/** The redundant books of the stake ledger agree in every reachable state, no internal lookup
    fails, and no operation creates or destroys power. */
module StakeInvariants {
  import opened Base
  import opened Sums
  import opened Stake

  function Power(v: VPower): int { v.sum }

  function RefundOf(f: Frozen): int { f.refund }

  /** All bonded power, and all power waiting for refund. */
  ghost function Bonded(s: Stakes): int { Total(s.vpowers, Power) }

  ghost function FrozenPower(s: Stakes): int { Total(s.frozen, RefundOf) }

  ghost predicate NoDuplicates(ds: seq<Address>) {
    ds == [] || (ds[|ds| - 1] !in ds[..|ds| - 1] && NoDuplicates(ds[..|ds| - 1]))
  }

  lemma {:induction false} NoDuplicatesPairwise(ds: seq<Address>)
    ensures NoDuplicates(ds) <==> forall i, j :: 0 <= i < j < |ds| ==> ds[i] != ds[j]
  {
    if ds != [] {
      var n := |ds| - 1;
      NoDuplicatesPairwise(ds[..n]);
      if NoDuplicates(ds) {
        forall i, j | 0 <= i < j < |ds| ensures ds[i] != ds[j] {
          assert ds[i] == ds[..n][i];
          assert j < n ==> ds[j] == ds[..n][j];
        }
      }
    }
  }

  lemma {:induction false} NoDuplicatesTail(ds: seq<Address>)
    requires ds != [] && NoDuplicates(ds)
    ensures NoDuplicates(ds[1..]) && ds[0] !in ds[1..]
  {
    NoDuplicatesPairwise(ds);
    NoDuplicatesPairwise(ds[1..]);
  }

  /** A hundred times the power fits int64, so that a percentage of it is exact. */
  predicate PowerOk(power: int) { 0 <= power && 100 * power < TWO63 }

  ghost predicate ChunksOk(cs: seq<Chunk>) { forall c <- cs :: PowerOk(c.power) }

  ghost predicate VPowerOk(v: VPower) {
    v.chunks != [] && v.sum == ChunkSum(v.chunks) && ChunksOk(v.chunks)
  }

  ghost predicate FrozenOk(f: Frozen) { f.refund == ChunkSum(f.chunks) && ChunksOk(f.chunks) }

  /** The power that the delegators `ds` have bonded to `to`. */
  ghost function DelegatorSum(vp: map<Link, VPower>, to: Address, ds: seq<Address>): int {
    if ds == [] then 0
    else DelegatorSum(vp, to, ds[..|ds| - 1]) + At(vp, Power, Link(ds[|ds| - 1], to))
  }

  ghost predicate DelegateeOk(vp: map<Link, VPower>, to: Address, d: Delegatee) {
    && NoDuplicates(d.delegators) && to in d.delegators
    && d.sum == DelegatorSum(vp, to, d.delegators)
    && d.self == At(vp, Power, Link(to, to))
  }

  ghost predicate Lists(dm: map<Address, Delegatee>, l: Link) {
    l.to in dm && l.from in dm[l.to].delegators
  }

  /** Delegator lists name exactly the stored voting powers. */
  ghost predicate Linked(dm: map<Address, Delegatee>, vp: map<Link, VPower>) {
    forall l: Link :: l in vp <==> Lists(dm, l)
  }

  ghost predicate VPowersOk(vp: map<Link, VPower>) { forall l <- vp :: VPowerOk(vp[l]) }

  ghost predicate DelegateesOk(dm: map<Address, Delegatee>, vp: map<Link, VPower>) {
    forall t <- dm :: DelegateeOk(vp, t, dm[t])
  }

  ghost predicate FrozensOk(fz: map<Due, Frozen>) { forall k <- fz :: FrozenOk(fz[k]) }

  ghost predicate Consistent(s: Stakes) {
    && Linked(s.delegatees, s.vpowers)
    && VPowersOk(s.vpowers)
    && DelegateesOk(s.delegatees, s.vpowers)
    && FrozensOk(s.frozen)
  }

  lemma {:induction false} ConsistentParts(s: Stakes)
    requires Consistent(s)
    ensures Linked(s.delegatees, s.vpowers) && VPowersOk(s.vpowers)
    ensures DelegateesOk(s.delegatees, s.vpowers) && FrozensOk(s.frozen)
    ensures forall t <- s.delegatees :: DelegateeOk(s.vpowers, t, s.delegatees[t])
  {
  }

  /** The two books agree on every link to `to`. */
  ghost predicate SameLinks(vp: map<Link, VPower>, vp': map<Link, VPower>, to: Address) {
    forall l: Link :: l.to == to ==> (l in vp <==> l in vp') && (l in vp ==> vp[l] == vp'[l])
  }

  lemma {:induction false} DelegateeFrame(vp: map<Link, VPower>, vp': map<Link, VPower>, to: Address, d: Delegatee)
    requires DelegateeOk(vp, to, d) && SameLinks(vp, vp', to)
    ensures DelegateeOk(vp', to, d)
  {
    DelegatorSumFrame(vp, vp', to, d.delegators);
  }

  // ----- sums over chunks and delegators

  lemma {:induction false} ChunkSumConcat(a: seq<Chunk>, b: seq<Chunk>)
    ensures ChunkSum(a + b) == ChunkSum(a) + ChunkSum(b)
  {
    if b == [] {
      assert a + b == a;
    } else {
      var n := |b| - 1;
      assert (a + b)[..|a + b| - 1] == a + b[..n];
      ChunkSumConcat(a, b[..n]);
    }
  }

  lemma {:induction false} ChunkSumRemove(cs: seq<Chunk>, i: nat)
    requires i < |cs|
    ensures ChunkSum(RemoveAt(cs, i)) == ChunkSum(cs) - cs[i].power
  {
    ChunkSumConcat(cs[..i], cs[i + 1..]);
    ChunkSumConcat(cs[..i + 1], cs[i + 1..]);
    assert cs[..i + 1][..i] == cs[..i];
    assert cs == cs[..i + 1] + cs[i + 1..];
  }

  lemma {:induction false} ChunkSumNonNegative(cs: seq<Chunk>)
    requires ChunksOk(cs)
    ensures ChunkSum(cs) >= 0 && forall c <- cs :: c.power <= ChunkSum(cs)
  {
    if cs != [] { ChunkSumNonNegative(cs[..|cs| - 1]); }
  }

  lemma {:induction false} DelegatorSumFrame(vp: map<Link, VPower>, vp': map<Link, VPower>, to: Address,
          ds: seq<Address>)
    requires forall d <- ds :: At(vp, Power, Link(d, to)) == At(vp', Power, Link(d, to))
    ensures DelegatorSum(vp, to, ds) == DelegatorSum(vp', to, ds)
  {
    if ds != [] { DelegatorSumFrame(vp, vp', to, ds[..|ds| - 1]); }
  }

  lemma {:induction false} DelegatorSumConcat(vp: map<Link, VPower>, to: Address, a: seq<Address>, b: seq<Address>)
    ensures DelegatorSum(vp, to, a + b) == DelegatorSum(vp, to, a) + DelegatorSum(vp, to, b)
  {
    if b == [] {
      assert a + b == a;
    } else {
      assert (a + b)[..|a + b| - 1] == a + b[..|b| - 1];
      DelegatorSumConcat(vp, to, a, b[..|b| - 1]);
    }
  }

  lemma {:induction false} DelegatorSumRemove(vp: map<Link, VPower>, to: Address, ds: seq<Address>, i: nat)
    requires i < |ds|
    ensures DelegatorSum(vp, to, RemoveAt(ds, i)) == DelegatorSum(vp, to, ds) - At(vp, Power, Link(ds[i], to))
  {
    DelegatorSumConcat(vp, to, ds[..i], ds[i + 1..]);
    DelegatorSumConcat(vp, to, ds[..i + 1], ds[i + 1..]);
    assert ds[..i + 1][..i] == ds[..i];
    assert ds == ds[..i + 1] + ds[i + 1..];
  }

  /** Changing what one listed delegator has bonded changes the sum by as much. */
  lemma {:induction false} DelegatorSumUpdate(vp: map<Link, VPower>, vp': map<Link, VPower>, to: Address,
          ds: seq<Address>, from: Address)
    requires NoDuplicates(ds) && from in ds
    requires forall d <- ds :: d != from ==> At(vp, Power, Link(d, to)) == At(vp', Power, Link(d, to))
    ensures DelegatorSum(vp', to, ds) ==
            DelegatorSum(vp, to, ds) - At(vp, Power, Link(from, to)) + At(vp', Power, Link(from, to))
  {
    var i :| 0 <= i < |ds| && ds[i] == from;
    DelegatorSumRemove(vp, to, ds, i);
    DelegatorSumRemove(vp', to, ds, i);
    RemovingKeepsDistinct(ds, i);
    DelegatorSumFrame(vp, vp', to, RemoveAt(ds, i));
  }

  // ----- bonding

  lemma {:induction false} BondChunkKeepsDelegatee(s: Stakes, to: Address, d: Delegatee, from: Address, v: VPower,
          c: Chunk)
    requires NoDuplicates(d.delegators) && (to in d.delegators || from == to)
    requires d.sum == DelegatorSum(s.vpowers, to, d.delegators)
    requires d.self == if to in d.delegators then At(s.vpowers, Power, Link(to, to)) else 0
    requires v.sum == if from in d.delegators then At(s.vpowers, Power, Link(from, to)) else 0
    ensures var s' := BondChunk(s, to, d, from, v, c); DelegateeOk(s'.vpowers, to, s'.delegatees[to])
  {
    var s' := BondChunk(s, to, d, from, v, c);
    var d' := s'.delegatees[to];
    if from in d.delegators {
      DelegatorSumUpdate(s.vpowers, s'.vpowers, to, d.delegators, from);
    } else {
      assert d'.delegators[..|d'.delegators| - 1] == d.delegators;
      DelegatorSumFrame(s.vpowers, s'.vpowers, to, d.delegators);
    }
  }

  ghost predicate BondsTo(s: Stakes, to: Address, d: Delegatee, from: Address, v: VPower) {
    && (if to in s.delegatees then d == s.delegatees[to]
        else from == to && d.sum == 0 && d.self == 0 && d.delegators == [])
    && v == if from in d.delegators && Link(from, to) in s.vpowers then s.vpowers[Link(from, to)] else VPower(0, [])
  }

  lemma {:induction false} BondChunkKeepsLinks(s: Stakes, to: Address, d: Delegatee, from: Address, v: VPower, c: Chunk)
    requires Linked(s.delegatees, s.vpowers) && BondsTo(s, to, d, from, v)
    ensures var s' := BondChunk(s, to, d, from, v, c); Linked(s'.delegatees, s'.vpowers)
  {
    var s' := BondChunk(s, to, d, from, v, c);
    forall l: Link ensures l in s'.vpowers <==> Lists(s'.delegatees, l) {
      assert l in s.vpowers <==> Lists(s.delegatees, l);
    }
  }

  lemma {:induction false} BondChunkKeepsPowers(s: Stakes, to: Address, d: Delegatee, from: Address, v: VPower,
          c: Chunk)
    requires VPowersOk(s.vpowers) && BondsTo(s, to, d, from, v) && PowerOk(c.power)
    ensures var s' := BondChunk(s, to, d, from, v, c);
      VPowersOk(s'.vpowers) && Bonded(s') == Bonded(s) - At(s.vpowers, Power, Link(from, to)) + v.sum + c.power
  {
    var s' := BondChunk(s, to, d, from, v, c);
    ChunkSumConcat(v.chunks, [c]);
    assert ChunkSum([c]) == c.power by { assert [c][..0] == []; }
    TotalUpdate(s.vpowers, Power, Link(from, to), s'.vpowers[Link(from, to)]);
  }

  lemma {:induction false} BondChunkKeepsDelegatees(s: Stakes, to: Address, d: Delegatee, from: Address, v: VPower,
          c: Chunk)
    requires Linked(s.delegatees, s.vpowers) && DelegateesOk(s.delegatees, s.vpowers) && BondsTo(s, to, d, from, v)
    ensures var s' := BondChunk(s, to, d, from, v, c); DelegateesOk(s'.delegatees, s'.vpowers)
  {
    var s' := BondChunk(s, to, d, from, v, c);
    assert Link(from, to) in s.vpowers <==> Lists(s.delegatees, Link(from, to));
    BondChunkKeepsDelegatee(s, to, d, from, v, c);
    BondKeepsOthers(s.delegatees, s.vpowers, to, s'.delegatees[to], Link(from, to), s'.vpowers[Link(from, to)]);
  }

  lemma {:induction false} BondKeepsOthers(dm: map<Address, Delegatee>, vp: map<Link, VPower>, to: Address,
          d': Delegatee, l: Link, v': VPower)
    requires DelegateesOk(dm, vp) && l.to == to && DelegateeOk(vp[l := v'], to, d')
    ensures DelegateesOk(dm[to := d'], vp[l := v'])
  {
    forall t | t in dm && t != to ensures DelegateeOk(vp[l := v'], t, dm[t]) {
      DelegateeFrame(vp, vp[l := v'], t, dm[t]);
    }
  }

  lemma {:induction false} BondChunkKeepsBooks(s: Stakes, to: Address, d: Delegatee, from: Address, v: VPower, c: Chunk)
    requires Consistent(s) && PowerOk(c.power) && BondsTo(s, to, d, from, v)
    ensures var s' := BondChunk(s, to, d, from, v, c);
            && Consistent(s') && Bonded(s') == Bonded(s) + c.power
            && s'.frozen == s.frozen && s'.missed == s.missed
  {
    assert Link(from, to) in s.vpowers <==> Lists(s.delegatees, Link(from, to));
    BondChunkKeepsLinks(s, to, d, from, v, c);
    BondChunkKeepsPowers(s, to, d, from, v, c);
    BondChunkKeepsDelegatees(s, to, d, from, v, c);
  }

  /** Bonding succeeds exactly when the delegatee exists or is the sender itself, adds exactly the
      chunk's power, and keeps all books consistent. */
  lemma {:induction false} BondKeepsBooks(s: Stakes, senderKey: PubKey, from: Address, to: Address, c: Chunk)
    requires Consistent(s) && PowerOk(c.power)
    ensures var r := Bond(s, senderKey, from, to, c);
            && (r.Success? <==> to in s.delegatees || from == to)
            && (r.Success? ==> Consistent(r.value) && Bonded(r.value) == Bonded(s) + c.power
                               && r.value.frozen == s.frozen && r.value.missed == s.missed)
  {
    var r := Bond(s, senderKey, from, to, c);
    if to in s.delegatees || from == to {
      var d := if to in s.delegatees then s.delegatees[to] else NewDelegatee(senderKey);
      assert Link(from, to) in s.vpowers <==> Lists(s.delegatees, Link(from, to));
      var v := if from in d.delegators then s.vpowers[Link(from, to)] else VPower(0, []);
      BondChunkKeepsBooks(s, to, d, from, v, c);
    }
  }

  ghost predicate DistinctAddresses(vals: seq<GenesisValidator>) {
    forall i, j :: 0 <= i < j < |vals| ==> vals[i].addr != vals[j].addr
  }

  ghost function GenesisPower(vals: seq<GenesisValidator>): int {
    if vals == [] then 0 else GenesisPower(vals[..|vals| - 1]) + vals[|vals| - 1].power
  }

  ghost predicate IsGenesisAddress(vals: seq<GenesisValidator>, a: Address) {
    exists i :: 0 <= i < |vals| && vals[i].addr == a
  }

  lemma {:induction false} GenesisDelegatees(vals: seq<GenesisValidator>)
    ensures var s := Genesis(EMPTY, vals);
            && s.frozen == map[] && s.missed == map[]
            && forall a <- s.delegatees :: IsGenesisAddress(vals, a) && s.delegatees[a].delegators == [a]
  {
    if vals != [] {
      var n := |vals| - 1;
      GenesisDelegatees(vals[..n]);
      var s, s' := Genesis(EMPTY, vals[..n]), Genesis(EMPTY, vals);
      forall a | a in s'.delegatees ensures IsGenesisAddress(vals, a) && s'.delegatees[a].delegators == [a] {
        if a == vals[n].addr {
          assert s'.delegatees[a].delegators == [] + [a];
        } else {
          assert a in s.delegatees && IsGenesisAddress(vals[..n], a);
          var i :| 0 <= i < n && vals[..n][i].addr == a;
          assert vals[i].addr == a;
        }
      }
    }
  }

  /** The genesis ledger is consistent and holds exactly the genesis powers. */
  lemma {:induction false} GenesisIsConsistent(vals: seq<GenesisValidator>)
    requires DistinctAddresses(vals) && forall i :: 0 <= i < |vals| ==> PowerOk(vals[i].power)
    ensures var s := Genesis(EMPTY, vals); Consistent(s) && Bonded(s) == GenesisPower(vals)
  {
    if vals == [] {
      assert Consistent(EMPTY) && Bonded(EMPTY) == 0;
    } else {
      var n := |vals| - 1;
      var v := vals[n];
      GenesisIsConsistent(vals[..n]);
      GenesisDelegatees(vals[..n]);
      GenesisStep(Genesis(EMPTY, vals[..n]), vals);
    }
  }

  lemma {:induction false} GenesisStep(s: Stakes, vals: seq<GenesisValidator>)
    requires vals != [] && Consistent(s) && DistinctAddresses(vals) && PowerOk(vals[|vals| - 1].power)
    requires forall a <- s.delegatees :: IsGenesisAddress(vals[..|vals| - 1], a)
    ensures var v := vals[|vals| - 1];
            var s' := BondChunk(s, v.addr, NewDelegatee(v.pubKey), v.addr, VPower(0, []), Chunk(v.power, 1, 0));
            Consistent(s') && Bonded(s') == Bonded(s) + v.power
  {
    var v := vals[|vals| - 1];
    assert !IsGenesisAddress(vals[..|vals| - 1], v.addr);
    BondChunkKeepsBooks(s, v.addr, NewDelegatee(v.pubKey), v.addr, VPower(0, []), Chunk(v.power, 1, 0));
  }

  // ----- freezing

  /** `s'` is `s` with `cs` appended to what `owner` gets back at `height`. */
  lemma {:induction false} FreezeAddsPower(s: Stakes, owner: Address, cs: seq<Chunk>, height: int)
    requires ChunksOk(cs) && FrozensOk(s.frozen)
    ensures var s' := Freeze(s, owner, cs, height);
            && FrozenPower(s') == FrozenPower(s) + ChunkSum(cs)
            && FrozensOk(s'.frozen)
  {
    var k := Due(height, owner);
    var f := if k in s.frozen then s.frozen[k] else Frozen(0, []);
    ChunkSumConcat(f.chunks, cs);
    TotalUpdate(s.frozen, RefundOf, k, Frozen(f.refund + ChunkSum(cs), f.chunks + cs));
  }

  ghost function LinksTo(to: Address, ds: seq<Address>): set<Link> { set d <- ds :: Link(d, to) }

  ghost function DueChunks(fz: map<Due, Frozen>, height: int, owner: Address): seq<Chunk> {
    if Due(height, owner) in fz then fz[Due(height, owner)].chunks else []
  }

  /** Entries due at another height are untouched, and entries due at `height` only grow. */
  ghost predicate FrozenGrows(fz: map<Due, Frozen>, fz': map<Due, Frozen>, height: int) {
    && (forall k <- fz :: k in fz' && fz[k].chunks <= fz'[k].chunks)
    && (forall k <- fz' :: k.height != height ==> k in fz && fz'[k] == fz[k])
  }

  lemma {:induction false} FreezeGrows(s: Stakes, owner: Address, cs: seq<Chunk>, height: int)
    ensures FrozenGrows(s.frozen, Freeze(s, owner, cs, height).frozen, height)
  {
  }

  lemma {:induction false} FrozenGrowsReflexive(fz: map<Due, Frozen>, height: int)
    ensures FrozenGrows(fz, fz, height)
  {
  }

  lemma {:induction false} FrozenGrowsTransitive(a: map<Due, Frozen>, b: map<Due, Frozen>, c: map<Due, Frozen>,
          height: int)
    requires FrozenGrows(a, b, height) && FrozenGrows(b, c, height)
    ensures FrozenGrows(a, c, height)
  {
    forall k | k in a ensures k in c && a[k].chunks <= c[k].chunks {
      assert k in b;
    }
  }

  /** Every entry of `fz` is still in `fz'`, where chunks may have been added to it. */
  ghost predicate Persists(fz: map<Due, Frozen>, fz': map<Due, Frozen>) {
    forall k <- fz :: k in fz' && fz[k].chunks <= fz'[k].chunks
  }

  lemma PersistsTransitive(a: map<Due, Frozen>, b: map<Due, Frozen>, c: map<Due, Frozen>)
    requires Persists(a, b) && Persists(b, c)
    ensures Persists(a, c)
  {
    forall k | k in a ensures k in c && a[k].chunks <= c[k].chunks { assert k in b; }
  }

  ghost predicate AllBonded(s: Stakes, to: Address, ds: seq<Address>) {
    NoDuplicates(ds) && forall d <- ds :: Link(d, to) in s.vpowers && VPowerOk(s.vpowers[Link(d, to)])
  }

  lemma {:induction false} FirstBonded(s: Stakes, to: Address, ds: seq<Address>)
    requires ds != [] && AllBonded(s, to, ds)
    ensures NoDuplicates(ds) && Link(ds[0], to) in s.vpowers
    ensures VPowerOk(s.vpowers[Link(ds[0], to)]) && ChunksOk(s.vpowers[Link(ds[0], to)].chunks)
  {
  }

  /** The state after the first of `ds` has been released. */
  ghost function ReleaseFirst(s: Stakes, to: Address, ds: seq<Address>, height: int): Stakes
    requires ds != [] && Link(ds[0], to) in s.vpowers
  {
    Freeze(s, ds[0], s.vpowers[Link(ds[0], to)].chunks, height).(vpowers := s.vpowers - {Link(ds[0], to)})
  }

  lemma {:induction false} ReleaseFirstKeepsRest(s: Stakes, to: Address, ds: seq<Address>, height: int)
    requires ds != [] && AllBonded(s, to, ds)
    ensures AllBonded(ReleaseFirst(s, to, ds, height), to, ds[1..])
  {
    NoDuplicatesTail(ds);
  }

  /** A release removes exactly the links of `ds`. */
  lemma {:induction false} ReleaseAllRemovesLinks(s: Stakes, to: Address, ds: seq<Address>, height: int)
    requires AllBonded(s, to, ds)
    ensures var r := ReleaseAll(s, to, ds, height);
            && r.Success? && r.value.delegatees == s.delegatees && r.value.missed == s.missed
            && r.value.vpowers == s.vpowers - LinksTo(to, ds)
    decreases |ds|
  {
    if ds != [] {
      ReleaseFirstKeepsRest(s, to, ds, height);
      ReleaseAllRemovesLinks(ReleaseFirst(s, to, ds, height), to, ds[1..], height);
      assert LinksTo(to, ds) == {Link(ds[0], to)} + LinksTo(to, ds[1..]);
    }
  }

  /** A release moves power from the bonded to the frozen books and loses none of it. */
  lemma {:induction false} ReleaseAllConserves(s: Stakes, to: Address, ds: seq<Address>, height: int)
    requires AllBonded(s, to, ds) && FrozensOk(s.frozen) && ReleaseAll(s, to, ds, height).Success?
    ensures var s' := ReleaseAll(s, to, ds, height).value;
            && FrozensOk(s'.frozen) && FrozenGrows(s.frozen, s'.frozen, height)
            && Bonded(s') + FrozenPower(s') == Bonded(s) + FrozenPower(s)
    decreases |ds|
  {
    if ds != [] {
      var v := s.vpowers[Link(ds[0], to)];
      var s1 := ReleaseFirst(s, to, ds, height);
      ReleaseFirstKeepsRest(s, to, ds, height);
      FreezeAddsPower(s, ds[0], v.chunks, height);
      FreezeGrows(s, ds[0], v.chunks, height);
      TotalRemove(s.vpowers, Power, Link(ds[0], to));
      ReleaseAllConserves(s1, to, ds[1..], height);
      FrozenGrowsTransitive(s.frozen, s1.frozen, ReleaseAll(s, to, ds, height).value.frozen, height);
    }
  }

  /** Each released delegator gets its own chunks back, behind what was already due to it then. */
  lemma {:induction false} ReleaseAllPaysOwners(s: Stakes, to: Address, ds: seq<Address>, height: int, d: Address)
    requires AllBonded(s, to, ds) && ReleaseAll(s, to, ds, height).Success?
    ensures var s' := ReleaseAll(s, to, ds, height).value;
            DueChunks(s'.frozen, height, d) ==
            DueChunks(s.frozen, height, d) + (if d in ds then s.vpowers[Link(d, to)].chunks else [])
    decreases |ds|
  {
    if ds != [] {
      ReleaseFirstKeepsRest(s, to, ds, height);
      ReleaseAllPaysOwners(ReleaseFirst(s, to, ds, height), to, ds[1..], height, d);
      NoDuplicatesTail(ds);
      assert d in ds <==> d == ds[0] || d in ds[1..];
    }
  }

  /** All of Consistent except that `to` may be missing from its own delegator list. */
  ghost predicate ConsistentExceptSelf(s: Stakes, to: Address) {
    && to in s.delegatees
    && Linked(s.delegatees, s.vpowers) && VPowersOk(s.vpowers) && FrozensOk(s.frozen)
    && DelegateesOk(s.delegatees - {to}, s.vpowers)
    && NoDuplicates(s.delegatees[to].delegators)
  }

  lemma {:induction false} ExceptSelf(s: Stakes, to: Address)
    requires Consistent(s) && to in s.delegatees
    ensures ConsistentExceptSelf(s, to)
  {
  }

  lemma {:induction false} AllDelegatorsBonded(s: Stakes, to: Address)
    requires ConsistentExceptSelf(s, to)
    ensures AllBonded(s, to, s.delegatees[to].delegators)
  {
    forall d <- s.delegatees[to].delegators ensures Link(d, to) in s.vpowers && VPowerOk(s.vpowers[Link(d, to)]) {
      assert Lists(s.delegatees, Link(d, to));
    }
  }

  lemma {:induction false} EvictionKeepsLinks(dm: map<Address, Delegatee>, vp: map<Link, VPower>, to: Address)
    requires to in dm && Linked(dm, vp)
    ensures Linked(dm - {to}, vp - LinksTo(to, dm[to].delegators))
  {
    var vp' := vp - LinksTo(to, dm[to].delegators);
    forall l: Link ensures l in vp' <==> Lists(dm - {to}, l) {
      assert l in vp <==> Lists(dm, l);
      assert l == Link(l.from, l.to);
    }
  }

  lemma {:induction false} EvictionKeepsOthers(dm: map<Address, Delegatee>, vp: map<Link, VPower>, to: Address,
          ds: seq<Address>)
    requires DelegateesOk(dm - {to}, vp)
    ensures DelegateesOk(dm - {to}, vp - LinksTo(to, ds))
  {
    forall t | t in dm - {to} ensures DelegateeOk(vp - LinksTo(to, ds), t, (dm - {to})[t]) {
      DelegateeFrame(vp, vp - LinksTo(to, ds), t, (dm - {to})[t]);
    }
  }

  /** Eviction never fails on consistent books. It removes the delegatee with all its links, and
      everything bonded to it is queued for its owners. */
  lemma {:induction false} EvictKeepsBooks(s: Stakes, to: Address, height: int)
    requires ConsistentExceptSelf(s, to)
    ensures var r := Evict(s, to, height);
            && r.Success? && Consistent(r.value)
            && r.value.delegatees == s.delegatees - {to} && r.value.missed == s.missed
            && FrozenGrows(s.frozen, r.value.frozen, height)
            && Bonded(r.value) + FrozenPower(r.value) == Bonded(s) + FrozenPower(s)
  {
    var ds := s.delegatees[to].delegators;
    AllDelegatorsBonded(s, to);
    ReleaseAllRemovesLinks(s, to, ds, height);
    ReleaseAllConserves(s, to, ds, height);
    EvictionKeepsLinks(s.delegatees, s.vpowers, to);
    EvictionKeepsOthers(s.delegatees, s.vpowers, to, ds);
  }

  // ----- unbonding

  lemma {:induction false} RemovingKeepsDistinct(ds: seq<Address>, i: nat)
    requires NoDuplicates(ds) && i < |ds|
    ensures NoDuplicates(RemoveAt(ds, i))
    ensures forall d :: d in RemoveAt(ds, i) <==> d in ds && d != ds[i]
  {
    var r := RemoveAt(ds, i);
    NoDuplicatesPairwise(ds);
    NoDuplicatesPairwise(r);
    forall d ensures d in r <==> d in ds && d != ds[i] {
      if d in ds && d != ds[i] {
        var k :| 0 <= k < |ds| && ds[k] == d;
        assert r[if k < i then k else k - 1] == d;
      }
    }
  }

  ghost predicate Unbondable(s: Stakes, from: Address, to: Address, h: Hash) {
    && to in s.delegatees && Link(from, to) in s.vpowers
    && LastChunk(s.vpowers[Link(from, to)].chunks, h) >= 0
  }

  /** The voting powers after the chunk has been taken out. */
  lemma {:induction false} UnbondChunkKeepsPowers(s: Stakes, from: Address, to: Address, h: Hash)
    requires VPowersOk(s.vpowers) && Unbondable(s, from, to, h)
    ensures var (s', c) := UnbondChunk(s, from, to, h).value;
            && VPowersOk(s'.vpowers) && PowerOk(c.power) && Bonded(s') == Bonded(s) - c.power
            && At(s'.vpowers, Power, Link(from, to)) == At(s.vpowers, Power, Link(from, to)) - c.power
  {
    hide ChunksOk; hide RemoveAt;
    var v := s.vpowers[Link(from, to)];
    var i := LastChunk(v.chunks, h);
    assert VPowerOk(v);
    WithoutChunk(v, i);
    TotalRemove(s.vpowers, Power, Link(from, to));
    TotalUpdate(s.vpowers, Power, Link(from, to), VPower(v.sum - v.chunks[i].power, RemoveAt(v.chunks, i)));
  }

  lemma {:induction false} WithoutChunk(v: VPower, i: nat)
    requires VPowerOk(v) && i < |v.chunks|
    ensures var rest := RemoveAt(v.chunks, i);
            && PowerOk(v.chunks[i].power)
            && if rest == [] then v.sum == v.chunks[i].power else VPowerOk(VPower(v.sum - v.chunks[i].power, rest))
  {
    ChunkSumRemove(v.chunks, i);
  }

  lemma {:induction false} UnbondChunkKeepsLinks(s: Stakes, from: Address, to: Address, h: Hash)
    requires Linked(s.delegatees, s.vpowers) && Unbondable(s, from, to, h)
    requires NoDuplicates(s.delegatees[to].delegators)
    ensures var s' := UnbondChunk(s, from, to, h).value.0;
            Linked(s'.delegatees, s'.vpowers) && NoDuplicates(s'.delegatees[to].delegators)
  {
    var s' := UnbondChunk(s, from, to, h).value.0;
    var ds := s.delegatees[to].delegators;
    assert Lists(s.delegatees, Link(from, to));
    RemovingKeepsDistinct(ds, LastIndex(ds, from));
    forall l: Link ensures l in s'.vpowers <==> Lists(s'.delegatees, l) {
      assert l in s.vpowers <==> Lists(s.delegatees, l);
    }
  }

  lemma {:induction false} SumAfterShrink(vp: map<Link, VPower>, to: Address, ds: seq<Address>, from: Address,
          v: VPower)
    requires NoDuplicates(ds) && from in ds && Link(from, to) in vp
    ensures DelegatorSum(vp[Link(from, to) := v], to, ds) == DelegatorSum(vp, to, ds) - vp[Link(from, to)].sum + v.sum
  {
    DelegatorSumUpdate(vp, vp[Link(from, to) := v], to, ds, from);
  }

  lemma {:induction false} SumAfterRemoval(vp: map<Link, VPower>, to: Address, ds: seq<Address>, from: Address)
    requires NoDuplicates(ds) && from in ds && Link(from, to) in vp
    ensures DelegatorSum(vp - {Link(from, to)}, to, WithoutDelegator(ds, from))
          == DelegatorSum(vp, to, ds) - vp[Link(from, to)].sum
    ensures forall a :: a in WithoutDelegator(ds, from) <==> a in ds && a != from
  {
    var vp' := vp - {Link(from, to)};
    DelegatorSumUpdate(vp, vp', to, ds, from);
    DelegatorSumRemove(vp', to, ds, LastIndex(ds, from));
    RemovingKeepsDistinct(ds, LastIndex(ds, from));
  }

  /** What unbonding leaves: the voting power without the chunk, or nothing. */
  lemma UnbondChunkShape(s: Stakes, from: Address, to: Address, h: Hash)
    requires Unbondable(s, from, to, h) && VPowerOk(s.vpowers[Link(from, to)])
    ensures var (s', c) := UnbondChunk(s, from, to, h).value;
            var l, v, d, d' := Link(from, to), s.vpowers[Link(from, to)], s.delegatees[to], s'.delegatees[to];
            && to in s'.delegatees && d'.sum == d.sum - c.power
            && d'.self == (if from == to then d.self - c.power else d.self)
            && ((s'.vpowers == s.vpowers - {l} && d'.delegators == WithoutDelegator(d.delegators, from)
                && c.power == v.sum)
                || (l in s'.vpowers && s'.vpowers == s.vpowers[l := s'.vpowers[l]]
                    && s'.vpowers[l].sum == v.sum - c.power && d'.delegators == d.delegators))
  {
    var v := s.vpowers[Link(from, to)];
    var i := LastChunk(v.chunks, h);
    WithoutChunk(v, i);
    hide LastChunk;
    hide WithoutDelegator;
    hide VPowerOk;
  }

  lemma {:induction false} RemovedSums(s: Stakes, s': Stakes, from: Address, to: Address, power: int)
    requires to in s.delegatees && to in s'.delegatees && DelegateeOk(s.vpowers, to, s.delegatees[to])
    requires from in s.delegatees[to].delegators && Link(from, to) in s.vpowers
    requires s.vpowers[Link(from, to)].sum == power
    requires var d, d' := s.delegatees[to], s'.delegatees[to];
      && d'.sum == d.sum - power && d'.self == (if from == to then d.self - power else d.self)
      && d'.delegators == WithoutDelegator(d.delegators, from)
    requires s'.vpowers == s.vpowers - {Link(from, to)}
    ensures var d' := s'.delegatees[to];
      && d'.sum == DelegatorSum(s'.vpowers, to, d'.delegators) && d'.self == At(s'.vpowers, Power, Link(to, to))
      && (to in d'.delegators || d'.self == 0)
  {
    SumAfterRemoval(s.vpowers, to, s.delegatees[to].delegators, from);
    hide NoDuplicates;
    hide DelegatorSum;
    hide WithoutDelegator;
  }

  lemma {:induction false} ShrunkSums(s: Stakes, s': Stakes, from: Address, to: Address, power: int)
    requires to in s.delegatees && to in s'.delegatees && DelegateeOk(s.vpowers, to, s.delegatees[to])
    requires from in s.delegatees[to].delegators && Link(from, to) in s.vpowers && Link(from, to) in s'.vpowers
    requires var d, d' := s.delegatees[to], s'.delegatees[to];
      && d'.sum == d.sum - power && d'.self == (if from == to then d.self - power else d.self)
      && d'.delegators == d.delegators
    requires s'.vpowers == s.vpowers[Link(from, to) := s'.vpowers[Link(from, to)]]
    requires s'.vpowers[Link(from, to)].sum == s.vpowers[Link(from, to)].sum - power
    ensures var d' := s'.delegatees[to];
      && d'.sum == DelegatorSum(s'.vpowers, to, d'.delegators)
      && d'.self == At(s'.vpowers, Power, Link(to, to)) && to in d'.delegators
  {
    SumAfterShrink(s.vpowers, to, s.delegatees[to].delegators, from, s'.vpowers[Link(from, to)]);
    hide NoDuplicates;
    hide DelegatorSum;
  }

  /** The delegatee's sum and self power still match the voting powers. */
  lemma {:induction false} UnbondChunkKeepsSums(s: Stakes, from: Address, to: Address, h: Hash)
    requires Linked(s.delegatees, s.vpowers) && VPowersOk(s.vpowers) && Unbondable(s, from, to, h)
    requires DelegateeOk(s.vpowers, to, s.delegatees[to])
    ensures var s' := UnbondChunk(s, from, to, h).value.0;
            var d := s'.delegatees[to];
            && d.sum == DelegatorSum(s'.vpowers, to, d.delegators)
            && d.self == At(s'.vpowers, Power, Link(to, to))
            && (to in d.delegators || d.self == 0)
  {
    assert Lists(s.delegatees, Link(from, to)) && VPowerOk(s.vpowers[Link(from, to)]);
    UnbondChunkShape(s, from, to, h);
    var (s', c) := UnbondChunk(s, from, to, h).value;
    hide Linked;
    hide VPowersOk;
    hide VPowerOk;
    hide DelegateeOk;
    hide DelegatorSum;
    hide WithoutDelegator;
    hide UnbondChunk;
    if Link(from, to) in s'.vpowers {
      ShrunkSums(s, s', from, to, c.power);
    } else {
      RemovedSums(s, s', from, to, c.power);
    }
  }

  lemma {:induction false} UnbondChunkKeepsOthers(s: Stakes, from: Address, to: Address, h: Hash)
    requires DelegateesOk(s.delegatees, s.vpowers) && Unbondable(s, from, to, h)
    ensures var s' := UnbondChunk(s, from, to, h).value.0; DelegateesOk(s'.delegatees - {to}, s'.vpowers)
  {
    var s' := UnbondChunk(s, from, to, h).value.0;
    OthersFrame(s.delegatees, s'.delegatees, s.vpowers, s'.vpowers, to);
  }

  lemma {:induction false} OthersFrame(dm: map<Address, Delegatee>, dm': map<Address, Delegatee>, vp: map<Link,
          VPower>, vp': map<Link, VPower>, to: Address)
    requires DelegateesOk(dm, vp) && dm' - {to} == dm - {to}
    requires forall l: Link :: l.to != to ==> (l in vp <==> l in vp') && (l in vp ==> vp[l] == vp'[l])
    ensures DelegateesOk(dm' - {to}, vp')
  {
    forall t | t in dm' - {to} ensures DelegateeOk(vp', t, (dm' - {to})[t]) {
      assert t in dm - {to};
      DelegateeFrame(vp, vp', t, dm[t]);
    }
  }

  lemma {:induction false} UnbondChunkKeepsBooks(s: Stakes, from: Address, to: Address, h: Hash)
    requires Consistent(s) && Unbondable(s, from, to, h)
    ensures var s' := UnbondChunk(s, from, to, h).value.0;
            && ConsistentExceptSelf(s', to) && s'.frozen == s.frozen && s'.missed == s.missed
            && (s'.delegatees[to].self != 0 ==> Consistent(s'))
  {
    var s' := UnbondChunk(s, from, to, h).value.0;
    UnbondChunkKeepsPowers(s, from, to, h);
    UnbondChunkKeepsLinks(s, from, to, h);
    UnbondChunkKeepsSums(s, from, to, h);
    UnbondChunkKeepsOthers(s, from, to, h);
    if s'.delegatees[to].self != 0 {
      WithSelf(s'.delegatees, s'.vpowers, to);
    }
  }

  lemma {:induction false} WithSelf(dm: map<Address, Delegatee>, vp: map<Link, VPower>, to: Address)
    requires to in dm && DelegateesOk(dm - {to}, vp) && DelegateeOk(vp, to, dm[to])
    ensures DelegateesOk(dm, vp)
  {
    forall t | t in dm ensures DelegateeOk(vp, t, dm[t]) {
      assert t != to ==> t in dm - {to} && (dm - {to})[t] == dm[t];
    }
  }

  lemma {:induction false} FreezeKeepsBooks(s: Stakes, owner: Address, c: Chunk, height: int, to: Address)
    requires ConsistentExceptSelf(s, to) && PowerOk(c.power)
    ensures var s' := Freeze(s, owner, [c], height);
            && ConsistentExceptSelf(s', to) && (Consistent(s) ==> Consistent(s'))
            && FrozenPower(s') == FrozenPower(s) + c.power && Bonded(s') == Bonded(s)
            && FrozenGrows(s.frozen, s'.frozen, height)
  {
    FreezeAddsPower(s, owner, [c], height);
    FreezeGrows(s, owner, [c], height);
    assert ChunkSum([c]) == c.power by { assert [c][..0] == []; }
  }

  /** Unbonding succeeds exactly when the named chunk exists: no lookup inside it can fail. It
      moves power from the bonded to the frozen books and loses none of it. */
  lemma {:induction false} UnbondKeepsBooks(s: Stakes, from: Address, to: Address, h: Hash, refundHeight: int)
    requires Consistent(s)
    ensures var r := Unbond(s, from, to, h, refundHeight);
            && (r.Success? <==> Unbondable(s, from, to, h))
            && (r.Success? ==>
                  && Consistent(r.value) && FrozenGrows(s.frozen, r.value.frozen, refundHeight)
                  && r.value.missed == s.missed
                  && Bonded(r.value) + FrozenPower(r.value) == Bonded(s) + FrozenPower(s))
  {
    hide Linked; hide VPowersOk; hide DelegateesOk;
    hide FrozensOk; hide FrozenGrows; hide ConsistentExceptSelf; hide Consistent;
    if Unbondable(s, from, to, h) {
      ConsistentParts(s);
      var (s1, c) := UnbondChunk(s, from, to, h).value;
      UnbondChunkKeepsBooks(s, from, to, h);
      UnbondChunkKeepsPowers(s, from, to, h);
      FreezeKeepsBooks(s1, from, c, refundHeight, to);
      var s2 := Freeze(s1, from, [c], refundHeight);
      if s2.delegatees[to].self == 0 {
        EvictKeepsBooks(s2, to, refundHeight);
        FrozenGrowsTransitive(s.frozen, s2.frozen, Evict(s2, to, refundHeight).value.frozen, refundHeight);
      }
    }
  }

  // ----- slashing

  lemma {:induction false} SlashedWithinPower(power: int, rate: int)
    requires PowerOk(power) && 0 <= rate <= 100
    ensures 0 <= Slashed(power, rate) <= power
  {
    PercentWithin(power, rate);
  }

  lemma {:induction false} SlashChunksSum(cs: seq<Chunk>, rate: int)
    requires ChunksOk(cs) && 0 <= rate <= 100
    ensures ChunkSum(SlashChunks(cs, rate)) == ChunkSum(cs) - SlashedSum(cs, rate)
    ensures ChunksOk(SlashChunks(cs, rate)) && SlashedSum(cs, rate) >= 0
  {
    if cs != [] {
      var n := |cs| - 1;
      SlashChunksSum(cs[..n], rate);
      assert SlashChunks(cs, rate)[..n] == SlashChunks(cs[..n], rate);
      SlashedWithinPower(cs[n].power, rate);
      assert forall i :: 0 <= i < n ==> SlashChunks(cs, rate)[i] == SlashChunks(cs[..n], rate)[i];
    }
  }

  /** The state after the chunks of the first of `ds` have been cut. */
  ghost function SlashFirst(s: Stakes, to: Address, ds: seq<Address>, rate: int): Stakes
    requires to in s.delegatees && ds != [] && Link(ds[0], to) in s.vpowers
  {
    var v := s.vpowers[Link(ds[0], to)];
    var cut := SlashedSum(v.chunks, rate);
    var d := s.delegatees[to];
    s.(vpowers := s.vpowers[Link(ds[0], to) := SlashVPower(v, rate)],
       delegatees := s.delegatees[to := d.(sum := d.sum - cut, self := if ds[0] == to then d.self - cut else d.self)])
  }

  lemma {:induction false} SlashFirstKeepsRest(s: Stakes, to: Address, ds: seq<Address>, rate: int)
    requires to in s.delegatees && ds != [] && AllBonded(s, to, ds)
    ensures AllBonded(SlashFirst(s, to, ds, rate), to, ds[1..])
  {
    NoDuplicatesTail(ds);
  }

  /** Slashing cuts every chunk of the listed delegators and touches no other link. */
  lemma {:induction false} SlashAllCutsLinks(s: Stakes, to: Address, ds: seq<Address>, rate: int)
    requires to in s.delegatees && AllBonded(s, to, ds)
    ensures var r := SlashAll(s, to, ds, rate);
            && r.Success? && r.value.0.vpowers.Keys == s.vpowers.Keys
            && (forall l <- s.vpowers :: r.value.0.vpowers[l] ==
                  if l.to == to && l.from in ds then SlashVPower(s.vpowers[l], rate) else s.vpowers[l])
    decreases |ds|
  {
    if ds != [] {
      NoDuplicatesTail(ds);
      SlashFirstKeepsRest(s, to, ds, rate);
      SlashAllCutsLinks(SlashFirst(s, to, ds, rate), to, ds[1..], rate);
    }
  }

  /** Slashing takes from the bonded books, and from the delegatee, exactly what it reports. */
  lemma {:induction false} SlashAllTakesCut(s: Stakes, to: Address, ds: seq<Address>, rate: int)
    requires to in s.delegatees && AllBonded(s, to, ds) && 0 <= rate <= 100 && SlashAll(s, to, ds, rate).Success?
    ensures var (s', cut) := SlashAll(s, to, ds, rate).value;
            && s'.frozen == s.frozen && s'.missed == s.missed && cut >= 0 && Bonded(s') == Bonded(s) - cut
            && s'.delegatees == s.delegatees[to := s.delegatees[to].(
                 sum := s.delegatees[to].sum - cut, self := s.delegatees[to].self - SelfCut(s, to, ds, rate))]
    decreases |ds|
  {
    hide AllBonded; hide VPowerOk; hide SlashChunks; hide ChunksOk;
    if ds != [] {
      FirstBonded(s, to, ds);
      var v := s.vpowers[Link(ds[0], to)];
      SlashFirstKeepsRest(s, to, ds, rate);
      SlashChunksSum(v.chunks, rate);
      TotalUpdate(s.vpowers, Power, Link(ds[0], to), SlashVPower(v, rate));
      SlashAllTakesCut(SlashFirst(s, to, ds, rate), to, ds[1..], rate);
      NoDuplicatesTail(ds);
    }
  }

  ghost function SelfCut(s: Stakes, to: Address, ds: seq<Address>, rate: int): int {
    if to in ds && Link(to, to) in s.vpowers then SlashedSum(s.vpowers[Link(to, to)].chunks, rate) else 0
  }

  /** The power lost by the listed delegators is the cut. */
  lemma {:induction false} SlashAllMatchesSum(s: Stakes, to: Address, ds: seq<Address>, rate: int)
    requires to in s.delegatees && AllBonded(s, to, ds) && SlashAll(s, to, ds, rate).Success?
    ensures var (s', cut) := SlashAll(s, to, ds, rate).value;
            DelegatorSum(s'.vpowers, to, ds) == DelegatorSum(s.vpowers, to, ds) - cut
    decreases |ds|
  {
    if ds != [] {
      var s1 := SlashFirst(s, to, ds, rate);
      var rest := ds[1..];
      SlashFirstKeepsRest(s, to, ds, rate);
      SlashAllMatchesSum(s1, to, rest, rate);
      SlashAllCutsLinks(s1, to, rest, rate);
      var s2 := SlashAll(s1, to, rest, rate).value.0;
      assert ds == [ds[0]] + rest && [ds[0]][..0] == [];
      DelegatorSumConcat(s.vpowers, to, [ds[0]], rest);
      DelegatorSumConcat(s2.vpowers, to, [ds[0]], rest);
      RestUnchanged(s.vpowers, to, ds, SlashVPower(s.vpowers[Link(ds[0], to)], rate));
      NoDuplicatesTail(ds);
      assert At(s2.vpowers, Power, Link(ds[0], to)) == At(s1.vpowers, Power, Link(ds[0], to));
    }
  }

  lemma {:induction false} RestUnchanged(vp: map<Link, VPower>, to: Address, ds: seq<Address>, v: VPower)
    requires ds != [] && NoDuplicates(ds)
    ensures DelegatorSum(vp[Link(ds[0], to) := v], to, ds[1..]) == DelegatorSum(vp, to, ds[1..])
  {
    NoDuplicatesTail(ds);
    DelegatorSumFrame(vp, vp[Link(ds[0], to) := v], to, ds[1..]);
  }

  lemma {:induction false} CutPowersAreOk(vp: map<Link, VPower>, vp': map<Link, VPower>, rate: int)
    requires VPowersOk(vp) && 0 <= rate <= 100 && vp'.Keys == vp.Keys
    requires forall l <- vp :: vp'[l] == vp[l] || vp'[l] == SlashVPower(vp[l], rate)
    ensures VPowersOk(vp')
  {
    forall l | l in vp' ensures VPowerOk(vp'[l]) {
      SlashChunksSum(vp[l].chunks, rate);
    }
  }

  lemma {:induction false} SlashKeepsPowers(s: Stakes, to: Address, rate: int)
    requires Consistent(s) && 0 <= rate <= 100 && to in s.delegatees
    ensures Slash(s, to, rate).Success? && VPowersOk(Slash(s, to, rate).value.0.vpowers)
  {
    var ds := s.delegatees[to].delegators;
    ExceptSelf(s, to);
    AllDelegatorsBonded(s, to);
    SlashAllCutsLinks(s, to, ds, rate);
    CutPowersAreOk(s.vpowers, SlashAll(s, to, ds, rate).value.0.vpowers, rate);
  }

  lemma {:induction false} SlashKeepsLinks(s: Stakes, to: Address, rate: int)
    requires Consistent(s) && 0 <= rate <= 100 && to in s.delegatees && Slash(s, to, rate).Success?
    ensures var s' := Slash(s, to, rate).value.0; Linked(s'.delegatees, s'.vpowers)
  {
    hide Linked; hide VPowersOk; hide DelegateesOk; hide FrozensOk; hide AllBonded; hide SlashAll;
    var ds := s.delegatees[to].delegators;
    ExceptSelf(s, to);
    AllDelegatorsBonded(s, to);
    SlashAllCutsLinks(s, to, ds, rate);
    SlashAllTakesCut(s, to, ds, rate);
    var s' := SlashAll(s, to, ds, rate).value.0;
    SlashedLinks(s.delegatees, s.vpowers, s'.delegatees, s'.vpowers);
  }

  lemma {:induction false} SlashCutsSelf(s: Stakes, to: Address, ds: seq<Address>, rate: int)
    requires to in s.delegatees && AllBonded(s, to, ds) && to in ds
    ensures var r := SlashAll(s, to, ds, rate);
            && r.Success?
            && At(r.value.0.vpowers, Power, Link(to, to)) == At(s.vpowers, Power, Link(to, to)) - SelfCut(s, to, ds,
                rate)
            && r.value.0.vpowers.Keys == s.vpowers.Keys
            && (forall l <- s.vpowers :: l.to != to ==> r.value.0.vpowers[l] == s.vpowers[l])
  {
    SlashAllCutsLinks(s, to, ds, rate);
    assert Link(to, to) in s.vpowers && Link(to, to) in s.vpowers.Keys;
  }

  lemma {:induction false} SlashKeepsDelegatees(s: Stakes, to: Address, rate: int)
    requires Consistent(s) && 0 <= rate <= 100 && to in s.delegatees && Slash(s, to, rate).Success?
    ensures var s' := Slash(s, to, rate).value.0; DelegateesOk(s'.delegatees, s'.vpowers)
  {
    hide Linked; hide VPowersOk; hide DelegateesOk; hide FrozensOk; hide AllBonded; hide SlashAll; hide NoDuplicates;
    var ds := s.delegatees[to].delegators;
    ConsistentParts(s);
    ExceptSelf(s, to);
    AllDelegatorsBonded(s, to);
    SlashCutsSelf(s, to, ds, rate);
    SlashAllTakesCut(s, to, ds, rate);
    SlashAllMatchesSum(s, to, ds, rate);
    var (s', cut) := SlashAll(s, to, ds, rate).value;
    CutDelegateeOk(s.vpowers, s'.vpowers, to, s.delegatees[to], cut, SelfCut(s, to, ds, rate));
    CutKeepsOthers(s.delegatees, s.vpowers, s'.vpowers, to, s'.delegatees[to]);
  }

  /** Slashing succeeds exactly when the delegatee exists, removes from the bonded power exactly
      what it reports as slashed, and keeps all books consistent. */
  lemma {:induction false} SlashKeepsBooks(s: Stakes, to: Address, rate: int)
    requires Consistent(s) && 0 <= rate <= 100
    ensures var r := Slash(s, to, rate);
            && (r.Success? <==> to in s.delegatees)
            && (r.Success? ==>
                  && Consistent(r.value.0) && r.value.1 >= 0 && Bonded(r.value.0) == Bonded(s) - r.value.1
                  && r.value.0.frozen == s.frozen && r.value.0.missed == s.missed)
  {
    hide Linked; hide VPowersOk; hide DelegateesOk; hide FrozensOk; hide AllBonded; hide SlashAll;
    if to in s.delegatees {
      SlashKeepsPowers(s, to, rate);
      SlashKeepsLinks(s, to, rate);
      SlashKeepsDelegatees(s, to, rate);
      ExceptSelf(s, to);
      AllDelegatorsBonded(s, to);
      SlashAllTakesCut(s, to, s.delegatees[to].delegators, rate);
    }
  }

  lemma {:induction false} SlashedLinks(dm: map<Address, Delegatee>, vp: map<Link, VPower>, dm': map<Address,
          Delegatee>, vp': map<Link, VPower>)
    requires Linked(dm, vp) && vp'.Keys == vp.Keys && dm'.Keys == dm.Keys
    requires forall t <- dm :: dm'[t].delegators == dm[t].delegators
    ensures Linked(dm', vp')
  {
    forall l: Link ensures l in vp' <==> Lists(dm', l) {
      assert l in vp <==> l in vp.Keys;
      assert l in vp' <==> l in vp'.Keys;
      assert l.to in dm <==> l.to in dm.Keys;
      assert l.to in dm' <==> l.to in dm'.Keys;
    }
  }

  lemma {:induction false} CutDelegateeOk(vp: map<Link, VPower>, vp': map<Link, VPower>, to: Address, d: Delegatee,
          cut: int, selfCut: int)
    requires DelegateeOk(vp, to, d)
    requires DelegatorSum(vp', to, d.delegators) == DelegatorSum(vp, to, d.delegators) - cut
    requires At(vp', Power, Link(to, to)) == At(vp, Power, Link(to, to)) - selfCut
    ensures DelegateeOk(vp', to, d.(sum := d.sum - cut, self := d.self - selfCut))
  {
  }

  lemma {:induction false} CutKeepsOthers(dm: map<Address, Delegatee>, vp: map<Link, VPower>, vp': map<Link, VPower>,
          to: Address, d': Delegatee)
    requires DelegateesOk(dm, vp) && vp'.Keys == vp.Keys && (forall l <- vp :: l.to != to ==> vp'[l] == vp[l])
    requires DelegateeOk(vp', to, d')
    ensures DelegateesOk(dm[to := d'], vp')
  {
    forall t | t in dm && t != to ensures DelegateeOk(vp', t, dm[t]) {
      assert SameLinks(vp, vp', t) by {
        forall l: Link | l.to == t ensures (l in vp <==> l in vp') && (l in vp ==> vp[l] == vp'[l]) {
          assert l in vp <==> l in vp.Keys;
          assert l in vp' <==> l in vp'.Keys;
        }
      }
      DelegateeFrame(vp, vp', t, dm[t]);
    }
  }

  // ----- jailing

  lemma {:induction false} CountVoteKeepsBooks(s: Stakes, v: Vote, allowedDown: int, refundHeight: int)
    requires Consistent(s)
    ensures var r := CountVote(s, v, allowedDown, refundHeight);
            && r.Success? && Consistent(r.value) && FrozenGrows(s.frozen, r.value.frozen, refundHeight)
            && Bonded(r.value) + FrozenPower(r.value) == Bonded(s) + FrozenPower(s)
  {
    hide Linked; hide VPowersOk; hide DelegateesOk; hide FrozensOk; hide FrozenGrows;
    FrozenGrowsReflexive(s.frozen, refundHeight);
    if !v.signed {
      var count := (if v.validator in s.missed then s.missed[v.validator] else 0) + 1;
      var s' := s.(missed := s.missed[v.validator := count]);
      if v.validator in s.delegatees {
        ExceptSelf(s', v.validator);
        EvictKeepsBooks(s', v.validator, refundHeight);
      }
    }
  }

  /** Counting the votes of a commit and jailing for missed blocks never fails and loses no power. */
  lemma {:induction false} CountVotesKeepsBooks(s: Stakes, vs: seq<Vote>, allowedDown: int, refundHeight: int)
    requires Consistent(s)
    ensures var r := CountVotes(s, vs, allowedDown, refundHeight);
            && r.Success? && Consistent(r.value) && FrozenGrows(s.frozen, r.value.frozen, refundHeight)
            && Bonded(r.value) + FrozenPower(r.value) == Bonded(s) + FrozenPower(s)
    decreases |vs|
  {
    if vs != [] {
      CountVoteKeepsBooks(s, vs[0], allowedDown, refundHeight);
      var s' := CountVote(s, vs[0], allowedDown, refundHeight).value;
      CountVotesKeepsBooks(s', vs[1..], allowedDown, refundHeight);
      FrozenGrowsTransitive(s.frozen, s'.frozen, CountVotes(s, vs, allowedDown, refundHeight).value.frozen,
          refundHeight);
    }
  }
}
