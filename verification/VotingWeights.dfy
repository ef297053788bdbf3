/** ctrlers/vpower/weight_fxnum.go and ctrlers/vpower/ctrler_weight.go: the stakers of the validators, what
    their power counts by its age, and their weights at the end of an inflation cycle. */
module VotingWeights {
  import opened Base
  import opened Stake
  import Keys
  import Mint

  // ----- scaled power

  /** The height at which chunks are weighed, the parameters of ripening, and the fixed-point rounding. */
  datatype Scale = Scale(height: int, ripening: int, permil: int, round: real -> real)

  /** The part of a chunk that ripens with time. */
  function Tau(sc: Scale): real { Mint.Quot(sc.round, sc.permil as real, 1000.0) }

  function RisingShare(sc: Scale, age: int): real {
    Mint.Quot(sc.round, sc.round(Tau(sc) * age as real), sc.ripening as real) + (1.0 - Tau(sc))
  }

  function RisingPower(sc: Scale, age: int, power: int): real { sc.round(RisingShare(sc, age) * power as real) }

  function ScaledChunk(sc: Scale, ch: Chunk): real {
    var age := sc.height - ch.height;
    if age >= sc.ripening then ch.power as real
    else if age >= 1 then RisingPower(sc, age, ch.power)
    else 0.0
  }

  function Scaled(sc: Scale, cs: seq<Chunk>): real {
    if cs == [] then 0.0 else Scaled(sc, cs[..|cs| - 1]) + ScaledChunk(sc, cs[|cs| - 1])
  }

  lemma ScaledStep(sc: Scale, cs: seq<Chunk>, i: nat)
    requires i < |cs|
    ensures Scaled(sc, cs[..i + 1]) == Scaled(sc, cs[..i]) + ScaledChunk(sc, cs[i])
  {
    assert cs[..i + 1][..i] == cs[..i];
  }

  /** Ripe power is summed up as an integer, rising power in fixed point. */
  method ScaledPowerChunks(sc: Scale, cs: seq<Chunk>) returns (scaled: real)
    ensures scaled == Scaled(sc, cs)
  {
    hide RisingPower;
    assert Scaled(sc, []) == 0.0 && cs[..0] == [];
    hide Scaled;
    var matured, rising := 0, 0.0;
    for i := 0 to |cs|
      invariant matured as real + rising == Scaled(sc, cs[..i])
    {
      ScaledStep(sc, cs, i);
      var age := sc.height - cs[i].height;
      if age >= sc.ripening {
        assert (matured + cs[i].power) as real == matured as real + cs[i].power as real;
        matured := matured + cs[i].power;
      } else if age >= 1 {
        rising := rising + RisingPower(sc, age, cs[i].power);
      }
    }
    assert cs[..|cs|] == cs;
    scaled := rising + matured as real;
  }

  lemma {:induction false} ScaledAppend(sc: Scale, a: seq<Chunk>, b: seq<Chunk>)
    ensures Scaled(sc, a + b) == Scaled(sc, a) + Scaled(sc, b)
    decreases |b|
  {
    hide ScaledChunk;
    if b == [] {
      assert a + b == a;
    } else {
      var n := |b| - 1;
      assert (a + b)[..|a + b| - 1] == a + b[..n] && (a + b)[|a + b| - 1] == b[n];
      ScaledAppend(sc, a, b[..n]);
    }
  }

  /** A permil is a share, however it is rounded. */
  lemma TauIsShare(sc: Scale)
    requires Mint.Rounds(sc.round) && 0 <= sc.permil <= 1000
    ensures 0.0 <= Tau(sc) <= 1.0
  {
    var x := sc.permil as real / 1000.0;
    assert 0.0 <= x <= 1.0;
    assert sc.round(0.0) <= sc.round(x) <= sc.round(1.0);
  }

  lemma RoundNonNegative(round: real -> real, x: real)
    requires Mint.Rounds(round) && x >= 0.0
    ensures round(x) >= 0.0
  {
    assert round(0.0) <= round(x);
  }

  lemma ProductNonNegative(x: real, y: real)
    requires x >= 0.0 && y >= 0.0
    ensures x * y >= 0.0
  {
  }

  lemma QuotNonNegative(round: real -> real, a: real, b: real)
    requires Mint.Rounds(round) && a >= 0.0 && b >= 0.0
    ensures Mint.Quot(round, a, b) >= 0.0
  {
    if b != 0.0 {
      assert a / b >= 0.0;
      RoundNonNegative(round, a / b);
    }
  }

  lemma ScaledChunkNonNegative(sc: Scale, ch: Chunk)
    requires Mint.Rounds(sc.round) && 0 <= sc.permil <= 1000 && ch.power >= 0
    ensures ScaledChunk(sc, ch) >= 0.0
  {
    var age := sc.height - ch.height;
    if 1 <= age < sc.ripening {
      TauIsShare(sc);
      hide Tau;
      hide Mint.Rounds;
      hide Mint.Quot;
      ProductNonNegative(Tau(sc), age as real);
      RoundNonNegative(sc.round, Tau(sc) * age as real);
      QuotNonNegative(sc.round, sc.round(Tau(sc) * age as real), sc.ripening as real);
      ProductNonNegative(RisingShare(sc, age), ch.power as real);
      RoundNonNegative(sc.round, RisingShare(sc, age) * ch.power as real);
    }
  }

  lemma {:induction false} ScaledNonNegative(sc: Scale, cs: seq<Chunk>)
    requires Mint.Rounds(sc.round) && 0 <= sc.permil <= 1000 && forall ch <- cs :: ch.power >= 0
    ensures Scaled(sc, cs) >= 0.0
  {
    hide ScaledChunk;
    hide Mint.Rounds;
    if cs != [] {
      var n := |cs| - 1;
      ScaledNonNegative(sc, cs[..n]);
      ScaledChunkNonNegative(sc, cs[n]);
    }
  }

  // ----- the stakers

  /** One staker of a validator, with what it has bonded to it. */
  datatype Staker = Staker(from: Address, to: Address, chunks: seq<Chunk>)

  /** The chunks of a validator's delegators, by delegator. */
  function Collected(s: Stakes, to: Address, ds: seq<Address>): (m: map<Address, seq<Chunk>>)
    ensures forall d :: d in m <==> d in ds
  {
    if ds == [] then map[]
    else
      var m, d := Collected(s, to, ds[..|ds| - 1]), ds[|ds| - 1];
      m[d := (if d in m then m[d] else []) + Chunks(s, Link(d, to))]
  }

  ghost function StakersOf(s: Stakes, v: Delegatee, to: Address): seq<Staker> {
    var m := Collected(s, to, v.delegators);
    Keys.OrderedIsAscending(m.Keys);
    var ks := Keys.Ordered(m.Keys);
    seq(|ks|, i requires 0 <= i < |ks| => assert ks[i] in ks; Staker(ks[i], to, m[ks[i]]))
  }

  /** The stakers of each validator in turn, in the order of their addresses. */
  ghost function Stakers(s: Stakes, addrOf: PubKey -> Address, vs: seq<Delegatee>): seq<Staker> {
    if vs == [] then []
    else
      var n := |vs| - 1;
      Stakers(s, addrOf, vs[..n]) + StakersOf(s, vs[n], addrOf(vs[n].pubKey))
  }

  function ChunksOf(s: Stakes, to: Address, ds: seq<Address>): seq<Chunk> {
    if ds == [] then [] else ChunksOf(s, to, ds[..|ds| - 1]) + Chunks(s, Link(ds[|ds| - 1], to))
  }

  /** All chunks of all stakers, as the validators list them. */
  function AllChunks(s: Stakes, addrOf: PubKey -> Address, vs: seq<Delegatee>): seq<Chunk> {
    if vs == [] then []
    else
      var n := |vs| - 1;
      AllChunks(s, addrOf, vs[..n]) + ChunksOf(s, addrOf(vs[n].pubKey), vs[n].delegators)
  }

  function HolderOf(s: Stakes, x: Staker, cycle: int, sc: Scale): Mint.Stakeholder
    requires cycle > 0
  {
    Mint.Stakeholder(x.from, Scaled(sc, x.chunks), Mint.SignRate(sc.round, Missed(s, x.to), cycle), x.from == x.to)
  }

  function Holders(s: Stakes, xs: seq<Staker>, cycle: int, sc: Scale): (hs: seq<Mint.Stakeholder>)
    requires cycle > 0
    ensures |hs| == |xs|
  {
    seq(|xs|, i requires 0 <= i < |xs| => HolderOf(s, xs[i], cycle, sc))
  }

  /** The weights of a cycle's stakers. */
  ghost function WeighStakers(s: Stakes, addrOf: PubKey -> Address, vs: seq<Delegatee>, cycle: int, sc: Scale,
                         supplyPower: int): Mint.Weighing
    requires cycle > 0
  {
    Mint.WeighAll(Holders(s, Stakers(s, addrOf, vs), cycle, sc), Scaled(sc, AllChunks(s, addrOf, vs)),
        supplyPower as real, sc.round)
  }

  // ----- collecting

  ghost predicate Missing(s: Stakes, v: Delegatee, to: Address) {
    exists d <- v.delegators :: Link(d, to) !in s.vpowers
  }

  lemma CollectStep(s: Stakes, to: Address, ds: seq<Address>, i: nat)
    requires i < |ds|
    ensures var m, cs := Collected(s, to, ds[..i]), Chunks(s, Link(ds[i], to));
      && Collected(s, to, ds[..i + 1]) == m[ds[i] := if ds[i] in m then m[ds[i]] + cs else cs]
      && ChunksOf(s, to, ds[..i + 1]) == ChunksOf(s, to, ds[..i]) + cs
  {
    assert ds[..i + 1][..i] == ds[..i];
    assert [] + Chunks(s, Link(ds[i], to)) == Chunks(s, Link(ds[i], to));
  }

  /** The chunks of one validator's stakers, if every lookup finds its entry. */
  method Collect(s: Stakes, v: Delegatee, to: Address) returns (r: Option<(map<Address, seq<Chunk>>, seq<Chunk>)>)
    ensures r.None? <==> Missing(s, v, to)
    ensures r.Some? ==> r.value == (Collected(s, to, v.delegators), ChunksOf(s, to, v.delegators))
  {
    var m: map<Address, seq<Chunk>>, all: seq<Chunk> := map[], [];
    assert m == Collected(s, to, []) && all == ChunksOf(s, to, []) && v.delegators[..0] == [];
    hide Collected;
    hide ChunksOf;
    for i := 0 to |v.delegators|
      invariant forall d <- v.delegators[..i] :: Link(d, to) in s.vpowers
      invariant m == Collected(s, to, v.delegators[..i]) && all == ChunksOf(s, to, v.delegators[..i])
    {
      var d := v.delegators[i];
      if Link(d, to) !in s.vpowers { return None; }
      var cs := s.vpowers[Link(d, to)].chunks;
      CollectStep(s, to, v.delegators, i);
      m := m[d := if d in m then m[d] + cs else cs];
      all := all + cs;
    }
    assert v.delegators[..|v.delegators|] == v.delegators;
    r := Some((m, all));
  }

  ghost predicate LookupFails(s: Stakes, addrOf: PubKey -> Address, vs: seq<Delegatee>) {
    exists v <- vs :: Missing(s, v, addrOf(v.pubKey))
  }

  lemma HoldersAppend(s: Stakes, xs: seq<Staker>, ys: seq<Staker>, cycle: int, sc: Scale)
    requires cycle > 0
    ensures Holders(s, xs + ys, cycle, sc) == Holders(s, xs, cycle, sc) + Holders(s, ys, cycle, sc)
  {
    hide HolderOf;
  }

  /** One validator's stakers, from the smallest address on. */
  method Rank(s: Stakes, v: Delegatee, to: Address, m: map<Address, seq<Chunk>>, cycle: int, sc: Scale)
    returns (hs: seq<Mint.Stakeholder>)
    requires cycle > 0 && m == Collected(s, to, v.delegators)
    ensures hs == Holders(s, StakersOf(s, v, to), cycle, sc)
  {
    hide Collected;
    hide Mint.SignRate;
    hide Scaled;
    hide Keys.Ordered;
    var rate := Mint.SignRate(sc.round, Missed(s, to), cycle);
    var ks := Keys.SortedKeys(m.Keys);
    Keys.OrderedIsAscending(m.Keys);
    ghost var xs := StakersOf(s, v, to);
    assert |xs| == |ks| && forall j :: 0 <= j < |ks| ==> ks[j] in m && xs[j] == Staker(ks[j], to, m[ks[j]]);
    hide StakersOf;
    hs := [];
    for j := 0 to |ks|
      invariant hs == Holders(s, xs[..j], cycle, sc)
    {
      assert xs[..j + 1] == xs[..j] + [xs[j]];
      HoldersAppend(s, xs[..j], [xs[j]], cycle, sc);
      var scaled := ScaledPowerChunks(sc, m[ks[j]]);
      hs := hs + [Mint.Stakeholder(ks[j], scaled, rate, ks[j] == to)];
    }
    assert xs[..|ks|] == xs;
  }

  /** The whole weight computation, or nothing when some lookup fails. */
  method ComputeWeight(s: Stakes, addrOf: PubKey -> Address, vs: seq<Delegatee>, cycle: int, sc: Scale,
                       supplyPower: int)
    returns (r: Option<Mint.Weighing>)
    requires cycle > 0
    ensures r.None? <==> LookupFails(s, addrOf, vs)
    ensures r.Some? ==> r.value == WeighStakers(s, addrOf, vs, cycle, sc, supplyPower)
  {
    hide Missing;
    hide Holders;
    hide StakersOf;
    var hs: seq<Mint.Stakeholder>, all: seq<Chunk> := [], [];
    for i := 0 to |vs|
      invariant hs == Holders(s, Stakers(s, addrOf, vs[..i]), cycle, sc) && all == AllChunks(s, addrOf, vs[..i])
      invariant !LookupFails(s, addrOf, vs[..i])
    {
      var to := addrOf(vs[i].pubKey);
      assert vs[i] in vs && vs[..i + 1][..i] == vs[..i];
      var one := Collect(s, vs[i], to);
      if one.None? { return None; }
      var ranked := Rank(s, vs[i], to, one.value.0, cycle, sc);
      HoldersAppend(s, Stakers(s, addrOf, vs[..i]), StakersOf(s, vs[i], to), cycle, sc);
      hs := hs + ranked;
      all := all + one.value.1;
    }
    assert vs[..|vs|] == vs;
    var allScaled := ScaledPowerChunks(sc, all);
    var w := Mint.ComputeWeight(hs, allScaled, supplyPower as real, sc.round);
    r := Some(w);
  }
}
