/** ctrlers/vpower: the controller object that keeps the stake ledger, statement by statement, proved
    against the value-level operations of `Stake`. An operation that reports an error leaves the
    ledger half changed, as the source does; `StakeInvariants` shows that this cannot happen. */
module StakeCtrler {
  import opened Base
  import opened Accounts
  import opened Stake
  import opened StakeInvariants
  import opened Refunds
  import Keys

  lemma {:induction false} SlashedSumTake(cs: seq<Chunk>, i: nat, rate: int)
    requires i < |cs|
    ensures SlashedSum(cs[..i + 1], rate) == SlashedSum(cs[..i], rate) + Slashed(cs[i].power, rate)
  {
    assert cs[..i + 1][..i] == cs[..i];
  }

  lemma {:induction false} ChunkSumTake(cs: seq<Chunk>, i: nat)
    requires i < |cs|
    ensures ChunkSum(cs[..i + 1]) == ChunkSum(cs[..i]) + cs[i].power
  {
    assert cs[..i + 1][..i] == cs[..i];
  }

  /** delPowerWithTxHash looks for the chunk from the end. */
  method FindLast(cs: seq<Chunk>, h: Hash) returns (i: int)
    ensures i == LastChunk(cs, h)
  {
    i := |cs| - 1;
    assert cs[..i + 1] == cs;
    while i >= 0 && cs[i].txHash != h
      invariant -1 <= i < |cs|
      invariant LastChunk(cs, h) == LastChunk(cs[..i + 1], h)
    {
      assert cs[..i + 1][..i] == cs[..i];
      i := i - 1;
    }
    assert i < 0 ==> cs[..i + 1] == [];
  }

  /** delDelegator. */
  method DropDelegator(ds: seq<Address>, a: Address) returns (out: seq<Address>)
    ensures out == WithoutDelegator(ds, a)
  {
    var i := |ds| - 1;
    assert ds[..i + 1] == ds;
    while i >= 0 && ds[i] != a
      invariant -1 <= i < |ds|
      invariant LastIndex(ds, a) == LastIndex(ds[..i + 1], a)
    {
      assert ds[..i + 1][..i] == ds[..i];
      i := i - 1;
    }
    assert i < 0 ==> ds[..i + 1] == [];
    if i >= 0 { out := ds[..i] + ds[i + 1..]; } else { out := ds; }
  }

  /** The inner loop of doSlash, over the chunks of one voting power. */
  method SlashVPowerInPlace(v: VPower, rate: int) returns (v': VPower, cut: int)
    ensures v' == SlashVPower(v, rate) && cut == SlashedSum(v.chunks, rate)
  {
    var cs, sum := v.chunks, v.sum;
    cut := 0;
    var i := |cs|;
    assert v.chunks[..i] == v.chunks;
    while i > 0
      invariant 0 <= i <= |v.chunks| == |cs|
      invariant forall j :: 0 <= j < i ==> cs[j] == v.chunks[j]
      invariant forall j :: i <= j < |cs| ==> cs[j] == SlashChunks(v.chunks, rate)[j]
      invariant cut == SlashedSum(v.chunks, rate) - SlashedSum(v.chunks[..i], rate)
      invariant sum == v.sum - cut
    {
      i := i - 1;
      SlashedSumTake(v.chunks, i, rate);
      var slashed := Percent64(cs[i].power, rate);
      cs := cs[i := cs[i].(power := cs[i].power - slashed)];
      sum := sum - slashed;
      cut := cut + slashed;
    }
    assert v.chunks[..0] == [];
    assert cs == SlashChunks(v.chunks, rate);
    v' := VPower(sum, cs);
  }

  class VPowerCtrler {
    var delegatees: map<Address, Delegatee>
    var vpowers: map<Link, VPower>
    var frozen: map<Due, Frozen>
    var missed: map<Address, int>

    ghost function View(): Stakes
      reads this
    {
      Stakes(delegatees, vpowers, frozen, missed)
    }

    constructor ()
      ensures View() == EMPTY
    {
      delegatees, vpowers, frozen, missed := map[], map[], map[], map[];
    }

    /** InitLedger. */
    method InitLedger(vals: seq<GenesisValidator>)
      requires View() == EMPTY
      modifies this
      ensures View() == Genesis(EMPTY, vals)
    {
      for i := 0 to |vals|
        invariant View() == Genesis(EMPTY, vals[..i])
      {
        assert vals[..i + 1][..i] == vals[..i];
        BondPowerChunk(vals[i].addr, NewDelegatee(vals[i].pubKey), vals[i].addr, VPower(0, []), Chunk(vals[i].power,
            1, 0));
      }
      assert vals[..|vals|] == vals;
    }

    method BondPowerChunk(to: Address, d: Delegatee, from: Address, v: VPower, c: Chunk)
      modifies this`vpowers, this`delegatees
      ensures View() == BondChunk(old(View()), to, d, from, v, c)
    {
      vpowers := vpowers[Link(from, to) := VPower(v.sum + c.power, v.chunks + [c])];
      var dgtee := d.(sum := d.sum + c.power);
      if from == to { dgtee := dgtee.(self := dgtee.self + c.power); }
      if from !in dgtee.delegators { dgtee := dgtee.(delegators := dgtee.delegators + [from]); }
      delegatees := delegatees[to := dgtee];
    }

    method ExecBonding(senderKey: PubKey, from: Address, to: Address, c: Chunk) returns (err: Option<StakeError>)
      modifies this`vpowers, this`delegatees
      ensures match Bond(old(View()), senderKey, from, to, c)
        case Success(s) => err == None && View() == s
        case Failure(e) => err == Some(e) && View() == old(View())
    {
      if to !in delegatees && from != to { return Some(NotFoundDelegatee); }
      var d := if to in delegatees then delegatees[to] else NewDelegatee(senderKey);
      if from in d.delegators {
        if Link(from, to) !in vpowers { return Some(NotFoundStake); }
        BondPowerChunk(to, d, from, vpowers[Link(from, to)], c);
      } else {
        BondPowerChunk(to, d, from, VPower(0, []), c);
      }
      return None;
    }

    method UnbondPowerChunk(from: Address, to: Address, h: Hash) returns (r: Result<Chunk, StakeError>)
      modifies this`vpowers, this`delegatees
      ensures match UnbondChunk(old(View()), from, to, h)
        case Success(p) => r == Success(p.1) && View() == p.0
        case Failure(e) => r == Failure(e) && View() == old(View())
    {
      if to !in delegatees { return Failure(NotFoundDelegatee); }
      if Link(from, to) !in vpowers { return Failure(NotFoundStake); }
      var v, d := vpowers[Link(from, to)], delegatees[to];
      var i := FindLast(v.chunks, h);
      if i < 0 { return Failure(NotFoundChunk); }
      var c, rest := v.chunks[i], v.chunks[..i] + v.chunks[i + 1..];
      d := d.(sum := d.sum - c.power);
      if from == to { d := d.(self := d.self - c.power); }
      if rest == [] {
        var ds := DropDelegator(d.delegators, from);
        d := d.(delegators := ds);
        vpowers := vpowers - {Link(from, to)};
      } else {
        vpowers := vpowers[Link(from, to) := VPower(v.sum - c.power, rest)];
      }
      delegatees := delegatees[to := d];
      return Success(c);
    }

    method FreezePowerChunkList(owner: Address, cs: seq<Chunk>, height: int)
      modifies this`frozen
      ensures View() == Freeze(old(View()), owner, cs, height)
    {
      var k := Due(height, owner);
      var f := if k in frozen then frozen[k] else Frozen(0, []);
      var refund := f.refund;
      for i := 0 to |cs|
        invariant refund == f.refund + ChunkSum(cs[..i]) && frozen == old(frozen)
      {
        ChunkSumTake(cs, i);
        refund := refund + cs[i].power;
      }
      assert cs[..|cs|] == cs;
      frozen := frozen[k := Frozen(refund, f.chunks + cs)];
    }

    /** Freeze all that is bonded to `to`, delegator by delegator, then drop the delegatee. */
    method EvictDelegatee(to: Address, height: int) returns (err: Option<StakeError>)
      requires to in delegatees
      modifies this
      ensures match Evict(old(View()), to, height)
        case Success(s) => err == None && View() == s
        case Failure(e) => err == Some(e)
    {
      var ds := delegatees[to].delegators;
      for i := 0 to |ds|
        invariant ReleaseAll(View(), to, ds[i..], height) == ReleaseAll(old(View()), to, ds, height)
        invariant delegatees == old(delegatees) && missed == old(missed)
      {
        assert ds[i..][0] == ds[i] && ds[i..][1..] == ds[i + 1..];
        if Link(ds[i], to) !in vpowers { return Some(NotFoundStake); }
        FreezePowerChunkList(ds[i], vpowers[Link(ds[i], to)].chunks, height);
        vpowers := vpowers - {Link(ds[i], to)};
      }
      assert ds[|ds|..] == [];
      delegatees := delegatees - {to};
      return None;
    }

    method ExeUnbonding(from: Address, to: Address, h: Hash, refundHeight: int) returns (err: Option<StakeError>)
      modifies this
      ensures match Unbond(old(View()), from, to, h, refundHeight)
        case Success(s) => err == None && View() == s
        case Failure(e) => err == Some(e)
    {
      var r := UnbondPowerChunk(from, to, h);
      if r.Failure? { return Some(r.error); }
      FreezePowerChunkList(from, [r.value], refundHeight);
      if delegatees[to].self == 0 { err := EvictDelegatee(to, refundHeight); } else { err := None; }
    }

    /** Slash what the first of the delegators `ds` has bonded. */
    method SlashDelegator(to: Address, ghost ds: seq<Address>, rate: int, from: Address) returns (cut: int)
      requires to in delegatees && ds != [] && ds[0] == from && Link(from, to) in vpowers
      modifies this`vpowers, this`delegatees
      ensures View() == SlashFirst(old(View()), to, ds, rate)
      ensures cut == SlashedSum(old(vpowers)[Link(from, to)].chunks, rate)
    {
      var l := Link(from, to);
      var v;
      v, cut := SlashVPowerInPlace(vpowers[l], rate);
      var d := delegatees[to].(sum := delegatees[to].sum - cut);
      if from == to { d := d.(self := d.self - cut); }
      vpowers := vpowers[l := v];
      delegatees := delegatees[to := d];
    }

    method DoSlash(to: Address, rate: int) returns (r: Result<int, StakeError>)
      modifies this
      ensures match Stake.Slash(old(View()), to, rate)
        case Success(p) => r == Success(p.1) && View() == p.0
        case Failure(e) => r == Failure(e)
    {
      hide SlashVPower;
      hide SlashedSum;
      if to !in delegatees { return Failure(NotFoundDelegatee); }
      var ds, slashedPower := delegatees[to].delegators, 0;
      for i := 0 to |ds|
        invariant to in delegatees
        invariant SlashRest(SlashAll(old(View()), to, ds, rate), SlashAll(View(), to, ds[i..], rate), slashedPower)
      {
        assert ds[i..][0] == ds[i] && ds[i..][1..] == ds[i + 1..];
        if Link(ds[i], to) !in vpowers { return Failure(NotFoundStake); }
        var cut := SlashDelegator(to, ds[i..], rate, ds[i]);
        slashedPower := slashedPower + cut;
      }
      assert ds[|ds|..] == [];
      return Success(slashedPower);
    }

    /** The part of BeginBlock that counts missed blocks and stops validators. */
    method PunishMissing(votes: seq<Vote>, allowedDown: int, refundHeight: int) returns (err: Option<StakeError>)
      modifies this
      ensures match CountVotes(old(View()), votes, allowedDown, refundHeight)
        case Success(s) => err == None && View() == s
        case Failure(e) => err == Some(e)
    {
      for i := 0 to |votes|
        invariant CountVotes(View(), votes[i..], allowedDown, refundHeight)
                == CountVotes(old(View()), votes, allowedDown, refundHeight)
      {
        assert votes[i..][0] == votes[i] && votes[i..][1..] == votes[i + 1..];
        ghost var before := View();
        var a := votes[i].validator;
        if !votes[i].signed {
          var count := (if a in missed then missed[a] else 0) + 1;
          missed := missed[a := count];
          if count >= allowedDown && a in delegatees {
            err := EvictDelegatee(a, refundHeight);
            if err != None { return; }
          }
        }
        assert CountVote(before, votes[i], allowedDown, refundHeight) == Success(View());
      }
      assert votes[|votes|..] == [];
      return None;
    }

    /** _unfreezePowerChunk: pay back what falls due, then delete the paid entries. */
    method UnfreezePowerChunk(h: int, acct: AcctCtrler) returns (err: Option<AcctError>)
      modifies this`frozen, acct`accts
      ensures match Unfreeze(old(acct.accts), old(View()), h)
        case Success(p) => err == None && acct.accts == p.0 && View() == p.1
        case Failure(e) => err == Some(e)
    {
      var due := set k | k in frozen && k.height == h :: k.owner;
      var owners := Keys.SortedKeys(due);
      Keys.OrderedIsAscending(due);
      err := PayOwners(frozen, h, owners, acct);
      if err == None { frozen := map k | k in frozen && k.height != h :: frozen[k]; }
    }
  }

  method PayOwners(fz: map<Due, Frozen>, h: int, owners: seq<Address>,
          acct: AcctCtrler) returns (err: Option<AcctError>)
    requires forall o <- owners :: Due(h, o) in fz
    modifies acct`accts
    ensures match Refund(old(acct.accts), fz, h, owners)
      case Success(m) => err == None && acct.accts == m
      case Failure(e) => err == Some(e)
  {
    hide Reward;
    hide RefundAmount;
    for i := 0 to |owners|
      invariant Refund(acct.accts, fz, h, owners[i..]) == Refund(old(acct.accts), fz, h, owners)
    {
      assert owners[i] in owners && owners[i..][0] == owners[i] && owners[i..][1..] == owners[i + 1..];
      err := acct.RewardAccount(owners[i], RefundAmount(fz[Due(h, owners[i])].refund));
      if err != None { return; }
    }
    assert owners[|owners|..] == [];
    return None;
  }

  /** The whole slash is what has been slashed so far and the rest. */
  ghost predicate SlashRest(all: Result<(Stakes, int), StakeError>, rest: Result<(Stakes, int), StakeError>,
          sofar: int) {
    match rest
    case Success(p) => all == Success((p.0, sofar + p.1))
    case Failure(e) => all == Failure(e)
  }
}
