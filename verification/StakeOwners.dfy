/** Who owns the bonded and frozen stake, under which address a delegatee is filed, and when frozen
    stake falls due. */
module StakeOwners {
  import opened Base
  import opened Stake
  import opened StakeInvariants

  /** Every bonded or frozen stake belongs to one of `owners`. */
  ghost predicate OwnedBy(s: Stakes, owners: set<Address>) {
    (forall l <- s.vpowers :: l.from in owners) && (forall k <- s.frozen :: k.owner in owners)
  }

  /** Delegatees are filed under the address of their public key. */
  ghost predicate KeyedBy(s: Stakes, addrOf: PubKey -> Address) {
    forall a <- s.delegatees :: addrOf(s.delegatees[a].pubKey) == a
  }

  ghost predicate Recorded(s: Stakes, owners: set<Address>, addrOf: PubKey -> Address) {
    OwnedBy(s, owners) && KeyedBy(s, addrOf)
  }

  ghost predicate DueAfter(s: Stakes, h: int) { forall k <- s.frozen :: k.height > h }

  lemma BondKeepsRecords(s: Stakes, senderKey: PubKey, from: Address, to: Address, c: Chunk, owners: set<Address>,
          addrOf: PubKey -> Address)
    requires Recorded(s, owners, addrOf) && from in owners && addrOf(senderKey) == from
    ensures var r := Bond(s, senderKey, from, to, c); r.Success? ==> Recorded(r.value, owners, addrOf)
  {
  }

  lemma {:induction false} ReleaseAllKeepsRecords(s: Stakes, to: Address, ds: seq<Address>, height: int,
          owners: set<Address>)
    requires OwnedBy(s, owners)
    ensures var r := ReleaseAll(s, to, ds, height);
      r.Success? ==> OwnedBy(r.value, owners) && r.value.delegatees == s.delegatees
    decreases |ds|
  {
    if ds != [] && Link(ds[0], to) in s.vpowers {
      var s' := Freeze(s, ds[0], s.vpowers[Link(ds[0], to)].chunks, height);
      ReleaseAllKeepsRecords(s'.(vpowers := s.vpowers - {Link(ds[0], to)}), to, ds[1..], height, owners);
    }
  }

  lemma UnbondKeepsRecords(s: Stakes, from: Address, to: Address, h: Hash, refundHeight: int, owners: set<Address>,
          addrOf: PubKey -> Address)
    requires Recorded(s, owners, addrOf)
    ensures var r := Unbond(s, from, to, h, refundHeight); r.Success? ==> Recorded(r.value, owners, addrOf)
  {
    var u := UnbondChunk(s, from, to, h);
    if u.Success? {
      var s' := Freeze(u.value.0, from, [u.value.1], refundHeight);
      assert Link(from, to) in s.vpowers;
      assert Recorded(s', owners, addrOf);
      if s'.delegatees[to].self == 0 {
        ReleaseAllKeepsRecords(s', to, s'.delegatees[to].delegators, refundHeight, owners);
      }
    }
  }

  lemma {:induction false} SlashAllKeepsRecords(s: Stakes, to: Address, ds: seq<Address>, rate: int,
          owners: set<Address>, addrOf: PubKey -> Address)
    requires Recorded(s, owners, addrOf) && to in s.delegatees
    ensures var r := SlashAll(s, to, ds, rate); r.Success? ==> Recorded(r.value.0, owners, addrOf)
    decreases |ds|
  {
    if ds != [] && Link(ds[0], to) in s.vpowers {
      assert Recorded(SlashFirst(s, to, ds, rate), owners, addrOf);
      SlashAllKeepsRecords(SlashFirst(s, to, ds, rate), to, ds[1..], rate, owners, addrOf);
    }
  }

  lemma {:induction false} CountVotesKeepsRecords(s: Stakes, vs: seq<Vote>, allowedDown: int, refundHeight: int,
          owners: set<Address>, addrOf: PubKey -> Address)
    requires Recorded(s, owners, addrOf)
    ensures var r := CountVotes(s, vs, allowedDown, refundHeight); r.Success? ==> Recorded(r.value, owners, addrOf)
    decreases |vs|
  {
    if vs != [] {
      var v := vs[0].validator;
      var r := CountVote(s, vs[0], allowedDown, refundHeight);
      if r.Success? {
        if v in s.delegatees {
          var count := (if v in s.missed then s.missed[v] else 0) + 1;
          ReleaseAllKeepsRecords(s.(missed := s.missed[v := count]), v, s.delegatees[v].delegators, refundHeight,
              owners);
        }
        assert Recorded(r.value, owners, addrOf);
        CountVotesKeepsRecords(r.value, vs[1..], allowedDown, refundHeight, owners, addrOf);
      }
    }
  }

  /** Genesis stake belongs to the genesis validators, and nothing is frozen. */
  lemma {:induction false} GenesisRecords(vals: seq<GenesisValidator>, owners: set<Address>, addrOf: PubKey -> Address)
    requires forall i :: 0 <= i < |vals| ==> vals[i].addr in owners && vals[i].addr == addrOf(vals[i].pubKey)
    ensures Recorded(Genesis(EMPTY, vals), owners, addrOf) && Genesis(EMPTY, vals).frozen == map[]
  {
    if vals != [] { GenesisRecords(vals[..|vals| - 1], owners, addrOf); }
  }
}
