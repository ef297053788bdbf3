/** What bonding, unbonding, jailing and slashing do, link by link and entry by entry: whose chunks
    go where. */
module StakeEffects {
  import opened Base
  import opened Stake
  import opened StakeInvariants

  function PowerOf(s: Stakes, a: Address): int { if a in s.delegatees then s.delegatees[a].sum else 0 }

  /** What is bonded to `to` in `s` is queued in `s'` for the delegators who bonded it. */
  ghost predicate Queued(s: Stakes, s': Stakes, to: Address, height: int) {
    forall a: Address, k: int ::
      DueChunks(s'.frozen, k, a) == DueChunks(s.frozen, k, a) + if k == height then Chunks(s, Link(a, to)) else []
  }

  /** The delegatee is gone, and every chunk bonded to it is queued for the delegator who bonded it. */
  ghost predicate Released(s: Stakes, s': Stakes, to: Address, height: int) {
    && s'.delegatees == s.delegatees - {to}
    && (forall l: Link :: Chunks(s', l) == if l.to == to then [] else Chunks(s, l))
    && Queued(s, s', to, height)
  }

  lemma LinkedIffListed(s: Stakes, from: Address, to: Address)
    requires Consistent(s)
    ensures Link(from, to) in s.vpowers <==> to in s.delegatees && from in s.delegatees[to].delegators
  {
    assert Link(from, to) in s.vpowers <==> Lists(s.delegatees, Link(from, to));
  }

  /** Bonding appends the chunk to the one link and adds its power to the one delegatee. */
  lemma BondEffect(s: Stakes, senderKey: PubKey, from: Address, to: Address, c: Chunk)
    requires Consistent(s) && (to in s.delegatees || from == to)
    ensures var r := Bond(s, senderKey, from, to, c);
      && r.Success? && r.value.frozen == s.frozen && r.value.missed == s.missed
      && (forall l: Link :: Chunks(r.value, l) == Chunks(s, l) + if l == Link(from, to) then [c] else [])
      && (forall a: Address :: PowerOf(r.value, a) == PowerOf(s, a) + if a == to then c.power else 0)
  {
    hide Consistent;
    LinkedIffListed(s, from, to);
  }

  /** Every link to `to` is one of its delegators'. */
  lemma OnlyDelegators(s: Stakes, to: Address, a: Address)
    requires ConsistentExceptSelf(s, to)
    ensures Link(a, to) in s.vpowers <==> a in s.delegatees[to].delegators
  {
    assert Link(a, to) in s.vpowers <==> Lists(s.delegatees, Link(a, to));
  }

  lemma LinksAreRemoved(s: Stakes, s': Stakes, to: Address)
    requires ConsistentExceptSelf(s, to) && s'.vpowers == s.vpowers - LinksTo(to, s.delegatees[to].delegators)
    ensures forall l: Link :: Chunks(s', l) == if l.to == to then [] else Chunks(s, l)
  {
    forall l: Link ensures Chunks(s', l) == if l.to == to then [] else Chunks(s, l) {
      if l.to == to { OnlyDelegators(s, to, l.from); }
    }
  }

  lemma EvictDue(s: Stakes, to: Address, height: int, a: Address, k: int)
    requires ConsistentExceptSelf(s, to)
    ensures to in s.delegatees && Evict(s, to, height).Success?
    ensures DueChunks(Evict(s, to, height).value.frozen, k, a)
         == DueChunks(s.frozen, k, a) + if k == height then Chunks(s, Link(a, to)) else []
  {
    var ds := s.delegatees[to].delegators;
    EvictKeepsBooks(s, to, height);
    AllDelegatorsBonded(s, to);
    OnlyDelegators(s, to, a);
    hide Consistent; hide ConsistentExceptSelf; hide AllBonded; hide ReleaseAll;
    ReleaseAllPaysOwners(s, to, ds, height, a);
  }

  lemma EvictQueues(s: Stakes, to: Address, height: int)
    requires ConsistentExceptSelf(s, to)
    ensures Evict(s, to, height).Success? && Queued(s, Evict(s, to, height).value, to, height)
  {
    EvictDue(s, to, height, 0, 0);
    hide ConsistentExceptSelf;
    hide Evict;
    hide DueChunks;
    hide Chunks;
    forall a: Address, k: int
      ensures DueChunks(Evict(s, to, height).value.frozen, k, a)
           == DueChunks(s.frozen, k, a) + if k == height then Chunks(s, Link(a, to)) else []
    {
      EvictDue(s, to, height, a, k);
    }
  }

  lemma EvictEffect(s: Stakes, to: Address, height: int)
    requires ConsistentExceptSelf(s, to)
    ensures Evict(s, to, height).Success? && Released(s, Evict(s, to, height).value, to, height)
  {
    var ds := s.delegatees[to].delegators;
    EvictKeepsBooks(s, to, height);
    AllDelegatorsBonded(s, to);
    ReleaseAllRemovesLinks(s, to, ds, height);
    var s' := Evict(s, to, height).value;
    LinksAreRemoved(s, s', to);
    hide *;
    EvictQueues(s, to, height);
    ReleasedByParts(s, s', to, height);
  }

  lemma ReleasedByParts(s: Stakes, s': Stakes, to: Address, height: int)
    requires s'.delegatees == s.delegatees - {to}
    requires forall l: Link :: Chunks(s', l) == if l.to == to then [] else Chunks(s, l)
    requires Queued(s, s', to, height)
    ensures Released(s, s', to, height)
  {
    hide Chunks;
    hide DueChunks;
  }

  /** What is left at a link once the last chunk with hash `h` of `from` at `to` is taken out. */
  function Remaining(s: Stakes, l: Link, from: Address, to: Address, h: Hash): seq<Chunk>
    requires LastChunk(Chunks(s, Link(from, to)), h) >= 0
  {
    if l == Link(from, to) then RemoveAt(Chunks(s, l), LastChunk(Chunks(s, l), h)) else Chunks(s, l)
  }

  lemma UnbondChunkEffect(s: Stakes, from: Address, to: Address, h: Hash)
    requires Unbondable(s, from, to, h)
    ensures var (s', c) := UnbondChunk(s, from, to, h).value;
      && c == Chunks(s, Link(from, to))[LastChunk(Chunks(s, Link(from, to)), h)]
      && (forall l: Link :: Chunks(s', l) == Remaining(s, l, from, to, h))
      && s'.frozen == s.frozen && to in s'.delegatees && PowerOf(s', to) == PowerOf(s, to) - c.power
      && s'.delegatees[to].self == s.delegatees[to].self - (if from == to then c.power else 0)
      && s'.delegatees - {to} == s.delegatees - {to}
  {
  }

  lemma FreezeEffect(s: Stakes, owner: Address, c: Chunk, height: int)
    ensures var s' := Freeze(s, owner, [c], height);
      && s'.vpowers == s.vpowers && s'.delegatees == s.delegatees
      && forall a: Address, k: int :: DueChunks(s'.frozen, k, a) ==
           DueChunks(s.frozen, k, a) + if k == height && a == owner then [c] else []
  {
  }

  /** Does unbonding this chunk leave the delegatee without power of its own? */
  predicate LosesSelf(s: Stakes, from: Address, to: Address, c: Chunk)
    requires to in s.delegatees
  {
    s.delegatees[to].self == if from == to then c.power else 0
  }

  /** One chunk of `from` moves from its link to its frozen entry, and the delegatee loses that power. */
  ghost predicate OneFrozen(s: Stakes, s': Stakes, from: Address, to: Address, h: Hash, refundHeight: int)
    requires Unbondable(s, from, to, h)
  {
    var c := Chunks(s, Link(from, to))[LastChunk(Chunks(s, Link(from, to)), h)];
    && to in s'.delegatees && s'.delegatees - {to} == s.delegatees - {to}
    && PowerOf(s', to) == PowerOf(s, to) - c.power
    && (s'.delegatees[to].self == 0 <==> LosesSelf(s, from, to, c))
    && (forall l: Link :: Chunks(s', l) == Remaining(s, l, from, to, h))
    && (forall a: Address, k: int :: DueChunks(s'.frozen, k, a) ==
          DueChunks(s.frozen, k, a) + if k == refundHeight && a == from then [c] else [])
  }

  lemma FrozenFirst(s: Stakes, from: Address, to: Address, h: Hash, refundHeight: int)
    requires Consistent(s) && Unbondable(s, from, to, h)
    ensures var (s1, c) := UnbondChunk(s, from, to, h).value;
      var s2 := Freeze(s1, from, [c], refundHeight);
      ConsistentExceptSelf(s2, to) && OneFrozen(s, s2, from, to, h, refundHeight)
      && (s2.delegatees[to].self != 0 ==> Consistent(s2))
  {
    hide Linked; hide VPowersOk; hide DelegateesOk;
    hide FrozensOk; hide FrozenGrows; hide ConsistentExceptSelf; hide Consistent;
    hide Remaining; hide LastChunk;
    ConsistentParts(s);
    UnbondChunkEffect(s, from, to, h);
    UnbondChunkKeepsBooks(s, from, to, h);
    UnbondChunkKeepsPowers(s, from, to, h);
    var (s1, c) := UnbondChunk(s, from, to, h).value;
    hide UnbondChunk;
    hide Unbondable;
    FreezeEffect(s1, from, c, refundHeight);
    FreezeKeepsBooks(s1, from, c, refundHeight, to);
    hide Freeze;
    hide DueChunks;
    hide Chunks;
  }

  /** Unbonding removes one chunk, the last one with the given hash, and queues it for its owner. The
      delegatee goes exactly when no power of its own is left; then every other chunk bonded to
      it is queued for the delegator who bonded it. Nothing else in the books moves. */
  lemma UnbondEffect(s: Stakes, from: Address, to: Address, h: Hash, refundHeight: int)
    requires Consistent(s) && Unbondable(s, from, to, h)
    ensures Unbond(s, from, to, h, refundHeight).Success?
    ensures var s' := Unbond(s, from, to, h, refundHeight).value;
      var c := Chunks(s, Link(from, to))[LastChunk(Chunks(s, Link(from, to)), h)];
      var gone := LosesSelf(s, from, to, c);
      && (to in s'.delegatees <==> !gone) && s'.delegatees - {to} == s.delegatees - {to}
      && (!gone ==> PowerOf(s', to) == PowerOf(s, to) - c.power)
      && (forall l: Link :: Chunks(s', l) == if gone && l.to == to then [] else Remaining(s, l, from, to, h))
      && (forall a: Address, k: int :: DueChunks(s'.frozen, k, a) ==
            DueChunks(s.frozen, k, a)
            + (if k == refundHeight && a == from then [c] else [])
            + (if k == refundHeight && gone then Remaining(s, Link(a, to), from, to, h) else []))
  {
    hide Consistent; hide ConsistentExceptSelf; hide Freeze; hide Evict; hide Remaining; hide DueChunks; hide LosesSelf;
    FrozenFirst(s, from, to, h, refundHeight);
    var (s1, c) := UnbondChunk(s, from, to, h).value;
    var s2 := Freeze(s1, from, [c], refundHeight);
    if s2.delegatees[to].self == 0 { EvictEffect(s2, to, refundHeight); }
    assert UnbondChunk(s, from, to, h).Success?;
    hide UnbondChunk;
    hide Chunks;
    hide LastChunk;
  }

  /** A vote jails its validator exactly when it is unsigned, the validator is a delegatee, and the
      misses, this one included, reach the allowance; then all that was bonded to it comes free. */
  lemma VoteEffect(s: Stakes, v: Vote, allowedDown: int, refundHeight: int)
    requires Consistent(s)
    ensures var r := CountVote(s, v, allowedDown, refundHeight);
      var jailed := !v.signed && v.validator in s.delegatees && Missed(s, v.validator) + 1 >= allowedDown;
      && r.Success?
      && (forall a: Address :: Missed(r.value, a) == Missed(s, a) + if a == v.validator && !v.signed then 1 else 0)
      && (if jailed then Released(s, r.value, v.validator, refundHeight)
          else r.value.delegatees == s.delegatees && r.value.vpowers == s.vpowers && r.value.frozen == s.frozen)
  {
    hide Consistent; hide ConsistentExceptSelf; hide Evict; hide DueChunks; hide Chunks; hide FrozenGrows;
    if !v.signed && v.validator in s.delegatees {
      var s1 := s.(missed := s.missed[v.validator := Missed(s, v.validator) + 1]);
      MissedKeepsBooks(s, s1, v.validator);
      EvictEffect(s1, v.validator, refundHeight);
      EvictKeepsBooks(s1, v.validator, refundHeight);
      SameChunks(s, s1);
    }
  }

  lemma MissedKeepsBooks(s: Stakes, s1: Stakes, to: Address)
    requires Consistent(s) && to in s.delegatees && s1 == s.(missed := s1.missed)
    ensures ConsistentExceptSelf(s1, to)
  {
    ExceptSelf(s, to);
    hide Consistent; hide Linked; hide VPowersOk; hide DelegateesOk; hide FrozensOk; hide NoDuplicates;
  }

  lemma SameChunks(s: Stakes, s1: Stakes)
    requires s1 == s.(missed := s1.missed)
    ensures forall l: Link :: Chunks(s1, l) == Chunks(s, l)
  {
  }

  /** The chunks of one list are those of another, each without its percentage. */
  ghost predicate CutBy(cs: seq<Chunk>, cs': seq<Chunk>, rate: int) {
    |cs'| == |cs| && forall i :: 0 <= i < |cs| ==> cs'[i] == cs[i].(power := cs[i].power - Slashed(cs[i].power, rate))
  }

  lemma SlashChunksCuts(cs: seq<Chunk>, rate: int)
    ensures CutBy(cs, SlashChunks(cs, rate), rate)
  {
    hide Slashed;
  }

  /** Slashing takes its percentage, rounded towards zero, from every chunk bonded to the delegatee,
      and nothing from any other chunk. */
  lemma SlashEffect(s: Stakes, to: Address, rate: int)
    requires Consistent(s) && to in s.delegatees
    ensures Slash(s, to, rate).Success?
    ensures var s' := Slash(s, to, rate).value.0;
      forall l: Link :: if l.to == to then CutBy(Chunks(s, l), Chunks(s', l), rate) else Chunks(s', l) == Chunks(s, l)
  {
    ExceptSelf(s, to);
    AllDelegatorsBonded(s, to);
    var ds := s.delegatees[to].delegators;
    SlashAllCutsLinks(s, to, ds, rate);
    hide Consistent; hide ConsistentExceptSelf; hide AllBonded; hide SlashAll; hide CutBy; hide SlashChunks;
    var s' := Slash(s, to, rate).value.0;
    forall l: Link
      ensures if l.to == to then CutBy(Chunks(s, l), Chunks(s', l), rate) else Chunks(s', l) == Chunks(s, l)
    {
      if l.to == to {
        OnlyDelegators(s, to, l.from);
        SlashChunksCuts(Chunks(s, l), rate);
        assert l == Link(l.from, to);
        if l !in s.vpowers { SlashNothing(rate); }
      }
    }
  }

  lemma SlashNothing(rate: int)
    ensures CutBy([], [], rate)
  {
  }
}
