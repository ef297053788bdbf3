/** When the weights of a cycle are all right: the last staker takes what the rounded weights of the others
    leave, so its weight can fall below zero, and the total can be rounded away. */
module WeightBounds {
  import opened Base
  import opened Stake
  import opened StakeInvariants
  import opened Chain
  import opened ChainInvariant
  import opened SignRates
  import opened Runs
  import opened VotingWeights
  import Keys
  import Mint

  // ----- the last weight

  /** Rounding misses by at most `e`. */
  ghost predicate Near(round: real -> real, e: real) { forall x :: x >= 0.0 ==> x - e <= round(x) <= x + e }

  lemma Round7IsNear()
    ensures Near(Mint.Round7, 0.00000005)
  {
    forall x | x >= 0.0 ensures x - 0.00000005 <= Mint.Round7(x) <= x + 0.00000005 { NearestOf(x * 10000000.0); }
  }

  lemma NearestOf(y: real)
    ensures y - 0.5 <= (y + 0.5).Floor as real <= y + 0.5
    ensures y / 10000000.0 - 0.00000005 <= (y + 0.5).Floor as real / 10000000.0 <= y / 10000000.0 + 0.00000005
  {
  }

  ghost predicate Measured(hs: seq<Mint.Stakeholder>) { forall h <- hs :: h.scaled >= 0.0 }

  /** No weight is negative if and only if the rounded weights of all but the last staker add up to at
      most the total. */
  lemma WeightsNonNegativeIff(hs: seq<Mint.Stakeholder>, allWeight: real, allScaled: real, round: real -> real)
    requires Mint.Rounds(round) && Measured(hs) && hs != [] && allWeight >= 0.0 && allScaled >= 0.0
    ensures (forall w <- Mint.Weights(hs, allWeight, allScaled, round) :: w >= 0.0) <==>
      Mint.Sum(Mint.FirstWeights(hs, allWeight, allScaled, round)) <= allWeight
  {
    hide Mint.ShareOfWeight;
    hide Mint.Rounds;
    var first, ws := Mint.FirstWeights(hs, allWeight, allScaled, round), Mint.Weights(hs, allWeight, allScaled, round);
    assert ws[|hs| - 1] in ws;
    forall i | 0 <= i < |first| ensures first[i] >= 0.0 {
      assert hs[i] in hs;
      ShareNonNegative(allWeight, hs[i].scaled, allScaled, round);
    }
  }

  function Five(): seq<Mint.Stakeholder> {
    var big := Mint.Stakeholder(1, 12499998.0, 1.0, false);
    [big, big.(addr := 2), big.(addr := 3), big.(addr := 4, scaled := 12500003.0), big.(addr := 5, scaled := 3.0)]
  }

  /** Such weights exist: five stakers with all of the supply, the last of whom weighs less than nothing. */
  lemma FiveStakers()
    ensures Measured(Five()) && Mint.Sum(ScaledPowers(Five())) == 50000000.0
    ensures
      var allWeight := Mint.Quot(Mint.Round7, 50000000.0, 50000000.0);
      Mint.Weights(Five(), allWeight, 50000000.0, Mint.Round7)[4] == -0.0000001
  {
    var hs, round := Five(), Mint.Round7;
    Mint.Round7Of(50000000.0 / 50000000.0, 10000000);
    assert Mint.Quot(round, 50000000.0, 50000000.0) == 1.0;
    Mint.LastWeightWraps(0.0);
    hide Mint.ShareOfWeight;
    hide Mint.Quot;
    hide Mint.Round7;
    var x := Mint.ShareOfWeight(1.0, 12499998.0, 50000000.0, round);
    var y := Mint.ShareOfWeight(1.0, 12500003.0, 50000000.0, round);
    assert Mint.FirstWeights(hs, 1.0, 50000000.0, round) == [x, x, x, y];
    SumOfFour(x, x, x, y);
    assert ScaledPowers(hs) == [12499998.0, 12499998.0, 12499998.0, 12500003.0] + [3.0];
    Mint.SumAppend([12499998.0, 12499998.0, 12499998.0, 12500003.0], 3.0);
    SumOfFour(12499998.0, 12499998.0, 12499998.0, 12500003.0);
  }

  lemma SumOfFour(a: real, b: real, c: real, d: real)
    ensures Mint.Sum([a, b, c, d]) == a + b + c + d
  {
    assert [a, b, c, d][1..] == [b, c, d] && [b, c, d][1..] == [c, d] && [c, d][1..] == [d] && [d][1..] == [];
    assert Mint.Sum([c, d]) == c + Mint.Sum([d]);
    assert Mint.Sum([b, c, d]) == b + Mint.Sum([c, d]);
  }

  lemma ShareNonNegative(allWeight: real, scaled: real, allScaled: real, round: real -> real)
    requires Mint.Rounds(round) && allWeight >= 0.0 && scaled >= 0.0 && allScaled >= 0.0
    ensures Mint.ShareOfWeight(allWeight, scaled, allScaled, round) >= 0.0
  {
    hide Mint.Rounds;
    hide Mint.Quot;
    ProductNonNegative(allWeight, scaled);
    RoundNonNegative(round, allWeight * scaled);
    QuotNonNegative(round, round(allWeight * scaled), allScaled);
  }

  /** A rounded weight exceeds the exact share by at most twice what rounding misses. */
  lemma ShareAtMost(allWeight: real, scaled: real, allScaled: real, round: real -> real, e: real)
    requires Mint.Rounds(round) && Near(round, e) && e >= 0.0
    requires allWeight >= 0.0 && scaled >= 0.0 && allScaled >= 1.0
    ensures Mint.ShareOfWeight(allWeight, scaled, allScaled, round) <=
      Mint.Times(Mint.Ratio(allWeight, allScaled), scaled) + 2.0 * e
  {
    var x := allWeight * scaled;
    ProductNonNegative(allWeight, scaled);
    RoundNonNegative(round, x);
    assert round(x) <= x + e;
    Mint.NonNegativeQuotient(round(x), 1.0, allScaled);
    assert round(x) * 1.0 / allScaled == round(x) / allScaled;
    assert round(round(x) / allScaled) <= round(x) / allScaled + e;
    QuotientAtMost(round(x), x, e, allScaled);
    Mint.Reassociate(allWeight, scaled, allScaled);
  }

  lemma QuotientAtMost(y: real, x: real, e: real, n: real)
    requires y <= x + e && e >= 0.0 && n >= 1.0
    ensures y / n <= x / n + e
  {
    assert y / n <= (x + e) / n;
    assert (x + e) / n == x / n + e / n;
    assert e / n <= e;
  }

  lemma {:induction false} SumWithin(xs: seq<real>, ys: seq<real>, gap: real)
    requires |xs| == |ys| && forall i :: 0 <= i < |xs| ==> xs[i] <= ys[i] + gap
    ensures Mint.Sum(xs) <= Mint.Sum(ys) + Mint.Times(gap, |xs| as real)
  {
    if xs == [] {
      Mint.ZeroTimes(gap);
    } else {
      SumWithin(xs[1..], ys[1..], gap);
      Mint.Distribute(gap, |xs[1..]| as real, 1.0);
    }
  }

  function ScaledPowers(hs: seq<Mint.Stakeholder>): seq<real> { seq(|hs|, i requires 0 <= i < |hs| => hs[i].scaled) }

  /** Together the others exceed their exact part by at most twice the error for each of them. */
  lemma FirstAtMost(hs: seq<Mint.Stakeholder>, allWeight: real, allScaled: real, round: real -> real, e: real)
    requires Mint.Rounds(round) && Near(round, e) && e >= 0.0 && Measured(hs) && hs != []
    requires allWeight >= 0.0 && allScaled >= 1.0 && allScaled == Mint.Sum(ScaledPowers(hs))
    ensures Mint.Sum(Mint.FirstWeights(hs, allWeight, allScaled, round)) <=
      Mint.Times(Mint.Ratio(allWeight, allScaled), allScaled - hs[|hs| - 1].scaled)
      + Mint.Times(2.0 * e, (|hs| - 1) as real)
  {
    hide Mint.ShareOfWeight;
    hide Mint.Times;
    hide Mint.Ratio;
    hide Mint.Rounds;
    hide Near;
    var n, k := |hs| - 1, Mint.Ratio(allWeight, allScaled);
    var first, parts := Mint.FirstWeights(hs, allWeight, allScaled, round), ScaledPowers(hs)[..n];
    assert ScaledPowers(hs) == parts + [hs[n].scaled];
    Mint.SumAppend(parts, hs[n].scaled);
    Mint.SumScaled(parts, k);
    forall i | 0 <= i < n ensures first[i] <= Mint.Scaled(k, parts)[i] + 2.0 * e {
      assert hs[i] in hs;
      ShareAtMost(allWeight, hs[i].scaled, allScaled, round, e);
    }
    SumWithin(first, Mint.Scaled(k, parts), 2.0 * e);
  }

  /** If the last staker's scaled power is at least (2n - 1) times the rounding error of the supply, for
      `n` stakers, no weight is negative. */
  lemma EnoughForTheLast(hs: seq<Mint.Stakeholder>, allScaled: real, supplyPower: real, round: real -> real, e: real)
    requires Mint.Rounds(round) && Near(round, e) && e >= 0.0 && Measured(hs) && hs != []
    requires allScaled >= 1.0 && allScaled == Mint.Sum(ScaledPowers(hs)) && supplyPower > 0.0
    requires Mint.Times((2 * |hs| - 1) as real, Mint.Times(e, supplyPower)) <= hs[|hs| - 1].scaled
    ensures forall w <- Mint.Weights(hs, Mint.Quot(round, allScaled, supplyPower), allScaled, round) :: w >= 0.0
  {
    var allWeight, last, n := Mint.Quot(round, allScaled, supplyPower), hs[|hs| - 1].scaled, |hs| - 1;
    assert hs[n] in hs;
    QuotNonNegative(round, allScaled, supplyPower);
    Mint.NonNegativeQuotient(allScaled, 1.0, supplyPower);
    assert allWeight >= allScaled / supplyPower - e;
    LastWithin(hs, allScaled);
    hide Mint.Quot;
    hide Near;
    hide Mint.Rounds;
    FirstAtMost(hs, allWeight, allScaled, round, e);
    Remainder(allWeight, allScaled, supplyPower, last, e, n as real);
    WeightsNonNegativeIff(hs, allWeight, allScaled, round);
  }

  lemma LastWithin(hs: seq<Mint.Stakeholder>, allScaled: real)
    requires Measured(hs) && hs != [] && allScaled == Mint.Sum(ScaledPowers(hs))
    ensures hs[|hs| - 1].scaled <= allScaled
  {
    var n := |hs| - 1;
    var parts := ScaledPowers(hs)[..n];
    assert ScaledPowers(hs) == parts + [hs[n].scaled];
    Mint.SumAppend(parts, hs[n].scaled);
    forall i | 0 <= i < n ensures parts[i] >= 0.0 { assert hs[i] in hs; }
    Mint.SumNonNegative(parts);
  }

  /** The last weight is at least its exact share less the errors: everything divided by the supply. */
  lemma Remainder(allWeight: real, allScaled: real, supplyPower: real, last: real, e: real, n: real)
    requires allScaled >= 1.0 && supplyPower > 0.0 && 0.0 <= last <= allScaled && e >= 0.0 && n >= 0.0
    requires allWeight >= allScaled / supplyPower - e
    requires Mint.Times(2.0 * n + 1.0, Mint.Times(e, supplyPower)) <= last
    ensures Mint.Times(Mint.Ratio(allWeight, allScaled), allScaled - last) + Mint.Times(2.0 * e, n) <= allWeight
  {
    var part := last / allScaled;
    PartWithin(last, allScaled);
    ExactShare(allWeight, allScaled, last);
    ShareOfRest(allWeight, allScaled, supplyPower, last, e);
    ErrorsOfAll(supplyPower, last, e, n);
    assert Mint.Times(2.0 * e, n) == 2.0 * e * n;
    assert Mint.Times(allWeight, part) >= last / supplyPower - e;
  }

  lemma PartWithin(last: real, allScaled: real)
    requires 0.0 <= last <= allScaled && allScaled >= 1.0
    ensures 0.0 <= last / allScaled <= 1.0
  {
  }

  lemma ExactShare(allWeight: real, allScaled: real, last: real)
    requires allScaled >= 1.0
    ensures Mint.Times(Mint.Ratio(allWeight, allScaled), allScaled - last)
         == allWeight - Mint.Times(allWeight, last / allScaled)
  {
    var k := allWeight / allScaled;
    assert k * allScaled == allWeight;
    assert k * (allScaled - last) == k * allScaled - k * last;
    assert k * last == allWeight * (last / allScaled);
  }

  lemma ShareOfRest(allWeight: real, allScaled: real, supplyPower: real, last: real, e: real)
    requires allScaled >= 1.0 && supplyPower > 0.0 && 0.0 <= last <= allScaled && e >= 0.0
    requires allWeight >= allScaled / supplyPower - e
    ensures Mint.Times(allWeight, last / allScaled) >= last / supplyPower - e
  {
    hide Mint.Times;
    var part, whole := last / allScaled, allScaled / supplyPower;
    PartWithin(last, allScaled);
    Swap(allScaled, supplyPower, last);
    LessError(allWeight, whole, e, part);
  }

  lemma LessError(a: real, b: real, e: real, x: real)
    requires a >= b - e && e >= 0.0 && 0.0 <= x <= 1.0
    ensures Mint.Times(a, x) >= Mint.Times(b, x) - e
  {
    ProductNonNegative(a - b + e, x);
    assert (a - b + e) * x == a * x - b * x + e * x;
    Mint.ScaledDown(e, x);
  }

  lemma Swap(a: real, s: real, x: real)
    requires a >= 1.0 && s > 0.0
    ensures Mint.Times(a / s, x / a) == x / s
  {
  }

  lemma ErrorsOfAll(supplyPower: real, last: real, e: real, n: real)
    requires supplyPower > 0.0 && Mint.Times(2.0 * n + 1.0, Mint.Times(e, supplyPower)) <= last
    ensures 2.0 * e * n + e <= last / supplyPower
  {
    var x := 2.0 * e * n + e;
    assert (2.0 * n + 1.0) * (e * supplyPower) == x * supplyPower;
    AtLeast(x, last, supplyPower);
  }

  lemma AtLeast(x: real, last: real, s: real)
    requires s > 0.0 && x * s <= last
    ensures x <= last / s
  {
  }

  // ----- the scaled powers of the stakers

  ghost function Over(keys: set<nat>, f: nat -> real): real
    decreases |keys|
  {
    if keys == {} then 0.0 else f(Keys.Least(keys)) + Over(keys - {Keys.Least(keys)}, f)
  }

  lemma {:induction false} OverOrdered(keys: set<nat>, f: nat -> real)
    ensures var ks := Keys.Ordered(keys); Mint.Sum(seq(|ks|, i requires 0 <= i < |ks| => f(ks[i]))) == Over(keys, f)
    decreases |keys|
  {
    if keys != {} {
      var l := Keys.Least(keys);
      var ks, rest := Keys.Ordered(keys), Keys.Ordered(keys - {l});
      OverOrdered(keys - {l}, f);
      var xs := seq(|ks|, i requires 0 <= i < |ks| => f(ks[i]));
      assert ks == [l] + rest;
      assert xs[1..] == seq(|rest|, i requires 0 <= i < |rest| => f(rest[i]));
    }
  }

  lemma {:induction false} OverAgrees(keys: set<nat>, f: nat -> real, g: nat -> real)
    requires forall k <- keys :: f(k) == g(k)
    ensures Over(keys, f) == Over(keys, g)
    decreases |keys|
  {
    if keys != {} { OverAgrees(keys - {Keys.Least(keys)}, f, g); }
  }

  lemma {:induction false} OverTake(keys: set<nat>, x: nat, f: nat -> real)
    requires x in keys
    ensures Over(keys, f) == f(x) + Over(keys - {x}, f)
    decreases |keys|
  {
    hide Keys.Least;
    var l := Keys.Least(keys);
    if l != x {
      OverTake(keys - {l}, x, f);
      LeastStays(keys, x);
      assert keys - {l} - {x} == keys - {x} - {l};
    }
  }

  lemma LeastStays(keys: set<nat>, x: nat)
    requires x in keys && x != Keys.Least(keys)
    ensures keys - {x} != {} && Keys.Least(keys - {x}) == Keys.Least(keys)
  {
    hide Keys.Least;
    var l := Keys.Least(keys);
    assert l in keys - {x};
    var m := Keys.Least(keys - {x});
    assert m in keys && l <= m && m <= l;
  }

  function ScaledIn(sc: Scale, m: map<Address, seq<Chunk>>): nat -> real {
    a => if a in m then Scaled(sc, m[a]) else 0.0
  }

  /** Adding chunks at a key adds their scaled power to the sum over the keys. */
  lemma OverUpdate(sc: Scale, m: map<Address, seq<Chunk>>, d: Address, cs: seq<Chunk>)
    ensures var m' := m[d := (if d in m then m[d] else []) + cs];
      Over(m'.Keys, ScaledIn(sc, m')) == Over(m.Keys, ScaledIn(sc, m)) + Scaled(sc, cs)
  {
    hide Scaled;
    var m' := m[d := (if d in m then m[d] else []) + cs];
    var f, f' := ScaledIn(sc, m), ScaledIn(sc, m');
    ScaledAppend(sc, if d in m then m[d] else [], cs);
    NoChunks(sc);
    OverTake(m'.Keys, d, f');
    OverAgrees(m'.Keys - {d}, f, f');
    if d in m {
      OverTake(m.Keys, d, f);
      assert m'.Keys - {d} == m.Keys - {d};
    } else {
      assert m'.Keys - {d} == m.Keys;
    }
  }

  lemma NoChunks(sc: Scale) ensures Scaled(sc, []) == 0.0 {}

  lemma {:induction false} CollectedScale(s: Stakes, sc: Scale, to: Address, ds: seq<Address>)
    ensures var m := Collected(s, to, ds); Over(m.Keys, ScaledIn(sc, m)) == Scaled(sc, ChunksOf(s, to, ds))
  {
    if ds != [] {
      var n := |ds| - 1;
      CollectedScale(s, sc, to, ds[..n]);
      OverUpdate(sc, Collected(s, to, ds[..n]), ds[n], Chunks(s, Link(ds[n], to)));
      ScaledAppend(sc, ChunksOf(s, to, ds[..n]), Chunks(s, Link(ds[n], to)));
      hide Scaled;
    }
  }

  lemma StakersOfScale(s: Stakes, sc: Scale, v: Delegatee, to: Address, cycle: int)
    requires cycle > 0
    ensures Mint.Sum(ScaledPowers(Holders(s, StakersOf(s, v, to), cycle, sc)))
         == Scaled(sc, ChunksOf(s, to, v.delegators))
  {
    hide Scaled;
    hide Mint.SignRate;
    hide Collected;
    var m := Collected(s, to, v.delegators);
    CollectedScale(s, sc, to, v.delegators);
    OverOrdered(m.Keys, ScaledIn(sc, m));
    Keys.OrderedIsAscending(m.Keys);
    var ks, f := Keys.Ordered(m.Keys), ScaledIn(sc, m);
    var ys := ScaledPowers(Holders(s, StakersOf(s, v, to), cycle, sc));
    var xs := seq(|ks|, i requires 0 <= i < |ks| => f(ks[i]));
    forall i | 0 <= i < |ks| ensures xs[i] == ys[i] { assert ks[i] in ks; }
    assert xs == ys;
  }

  lemma {:induction false} SumOfBoth(xs: seq<real>, ys: seq<real>)
    ensures Mint.Sum(xs + ys) == Mint.Sum(xs) + Mint.Sum(ys)
  {
    if xs == [] {
      assert xs + ys == ys;
    } else {
      assert (xs + ys)[1..] == xs[1..] + ys;
      SumOfBoth(xs[1..], ys);
    }
  }

  lemma NoPowers() ensures Mint.Sum(ScaledPowers([])) == 0.0 {}

  lemma PowersAppend(a: seq<Mint.Stakeholder>, b: seq<Mint.Stakeholder>)
    ensures Mint.Sum(ScaledPowers(a + b)) == Mint.Sum(ScaledPowers(a)) + Mint.Sum(ScaledPowers(b))
  {
    assert ScaledPowers(a + b) == ScaledPowers(a) + ScaledPowers(b);
    SumOfBoth(ScaledPowers(a), ScaledPowers(b));
  }

  /** The scaled powers of the stakers add up to the scaled power of all their chunks. */
  lemma {:induction false} ScaledPowersAddUp(s: Stakes, sc: Scale, addrOf: PubKey -> Address, vs: seq<Delegatee>,
          cycle: int)
    requires cycle > 0
    ensures Mint.Sum(ScaledPowers(Holders(s, Stakers(s, addrOf, vs), cycle, sc)))
         == Scaled(sc, AllChunks(s, addrOf, vs))
  {
    NoChunks(sc);
    hide Scaled;
    hide StakersOf;
    hide Holders;
    hide ScaledPowers;
    hide ChunksOf;
    if vs == [] {
      assert Holders(s, [], cycle, sc) == [];
      NoPowers();
    } else {
      var n := |vs| - 1;
      var to := addrOf(vs[n].pubKey);
      var xs, ys := Stakers(s, addrOf, vs[..n]), StakersOf(s, vs[n], to);
      ScaledPowersAddUp(s, sc, addrOf, vs[..n], cycle);
      StakersOfScale(s, sc, vs[n], to, cycle);
      ScaledAppend(sc, AllChunks(s, addrOf, vs[..n]), ChunksOf(s, to, vs[n].delegators));
      HoldersAppend(s, xs, ys, cycle, sc);
      PowersAppend(Holders(s, xs, cycle, sc), Holders(s, ys, cycle, sc));
    }
  }

  // ----- on the chain

  ghost function HoldersAt(env: Env, c: State, h: int): seq<Mint.Stakeholder>
    requires Weighable(c)
  {
    Holders(c.stakes, StakersAt(env, c), Param(c, INFLATION_CYCLE_BLOCKS), ScaleAt(env, c, h))
  }

  ghost function AllScaledAt(env: Env, c: State, h: int): real
    requires Weighable(c)
  {
    Scaled(ScaleAt(env, c, h), AllChunks(c.stakes, env.addrOf, c.validators))
  }

  lemma WeighedAt(env: Env, c: State, h: int)
    requires Weighable(c)
    ensures CycleWeights(env, c, h)
         == Mint.WeighAll(HoldersAt(env, c, h), AllScaledAt(env, c, h), SupplyPower(c.supply) as real, env.round)
    ensures Mint.Sum(ScaledPowers(HoldersAt(env, c, h))) == AllScaledAt(env, c, h)
  {
    hide Mint.WeighAll;
    hide Scaled;
    ScaledPowersAddUp(c.stakes, ScaleAt(env, c, h), env.addrOf, c.validators, Param(c, INFLATION_CYCLE_BLOCKS));
  }

  lemma {:induction false} CollectedNonNegative(s: Stakes, to: Address, ds: seq<Address>, d: Address)
    requires Consistent(s) && d in Collected(s, to, ds)
    ensures forall ch <- Collected(s, to, ds)[d] :: ch.power >= 0
  {
    hide Consistent;
    var n := |ds| - 1;
    LinkNonNegative(s, Link(d, to));
    if d in Collected(s, to, ds[..n]) { CollectedNonNegative(s, to, ds[..n], d); }
  }

  lemma LinkNonNegative(s: Stakes, l: Link)
    requires Consistent(s)
    ensures forall ch <- Chunks(s, l) :: ch.power >= 0
  {
    ConsistentParts(s);
    if l in s.vpowers { assert VPowerOk(s.vpowers[l]); }
  }

  lemma {:induction false} StakerNonNegative(s: Stakes, addrOf: PubKey -> Address, vs: seq<Delegatee>, x: Staker)
    requires Consistent(s) && x in Stakers(s, addrOf, vs)
    ensures forall ch <- x.chunks :: ch.power >= 0
  {
    hide Consistent;
    hide Collected;
    var n := |vs| - 1;
    if x in Stakers(s, addrOf, vs[..n]) {
      StakerNonNegative(s, addrOf, vs[..n], x);
    } else {
      var to := addrOf(vs[n].pubKey);
      Keys.OrderedIsAscending(Collected(s, to, vs[n].delegators).Keys);
      assert x in StakersOf(s, vs[n], to);
      CollectedNonNegative(s, to, vs[n].delegators, x.from);
    }
  }

  lemma StakersAreMeasured(env: Env, c: State, h: int)
    requires Core(env, c, h) && Mint.Rounds(env.round) && 0 <= Param(c, BONDING_BLOCKS_WEIGHT_PERMIL) <= 1000
    ensures Measured(HoldersAt(env, c, h)) && AllScaledAt(env, c, h) >= 0.0
  {
    var sc, xs, hs := ScaleAt(env, c, h), StakersAt(env, c), HoldersAt(env, c, h);
    AllChunksNonNegative(c.stakes, env.addrOf, c.validators);
    ScaledNonNegative(sc, AllChunks(c.stakes, env.addrOf, c.validators));
    hide Scaled;
    hide Mint.SignRate;
    hide Mint.Rounds;
    hide Consistent;
    forall x <- hs ensures x.scaled >= 0.0 {
      var j :| 0 <= j < |hs| && hs[j] == x;
      StakerNonNegative(c.stakes, env.addrOf, c.validators, xs[j]);
      ScaledNonNegative(sc, xs[j].chunks);
    }
  }

  lemma WeightsAt(w: Mint.Weighing, hs: seq<Mint.Stakeholder>, ws: seq<real>)
    requires |ws| == |hs| && w.bs == Mint.Weigh(hs, ws)
    ensures (forall b <- w.bs :: b.weight >= 0.0) <==> forall x <- ws :: x >= 0.0
  {
    if forall b <- w.bs :: b.weight >= 0.0 {
      forall x <- ws ensures x >= 0.0 {
        var j :| 0 <= j < |ws| && ws[j] == x;
        assert w.bs[j] in w.bs;
      }
    }
    if forall x <- ws :: x >= 0.0 {
      forall b <- w.bs ensures b.weight >= 0.0 {
        var j :| 0 <= j < |w.bs| && w.bs[j] == b;
        assert ws[j] in ws;
      }
    }
  }

  /** What the run theorems assume of the weights of a cycle holds if and only if the rounded weights of
      all but the last staker add up to at most the total weight. */
  lemma CycleWeightsIff(env: Env, c: State, h: int)
    requires Starts(env, c, h) && 0 <= Param(c, BONDING_BLOCKS_WEIGHT_PERMIL) <= 1000
    ensures var hs, w := HoldersAt(env, c, h), CycleWeights(env, c, h);
      (forall b <- w.bs :: b.weight >= 0.0) <==>
        hs == [] || Mint.Sum(Mint.FirstWeights(hs, w.allWeight, AllScaledAt(env, c, h), env.round)) <= w.allWeight
  {
    StakersAreMeasured(env, c, h);
    TotalWeightNonNegative(env, c, h);
    WeighedAt(env, c, h);
    hide Starts;
    hide HoldersAt;
    hide AllScaledAt;
    hide CycleWeights;
    hide Mint.FirstWeights;
    hide Mint.Sum;
    hide Mint.Quot;
    var hs, w, all := HoldersAt(env, c, h), CycleWeights(env, c, h), AllScaledAt(env, c, h);
    var ws := Mint.Weights(hs, w.allWeight, all, env.round);
    assert w.bs == Mint.Weigh(hs, ws);
    hide Mint.Weights;
    WeightsAt(w, hs, ws);
    if hs != [] {
      assert Mint.Rounds(env.round) by { PartsOfStart(env, c, h); }
      WeightsNonNegativeIff(hs, w.allWeight, all, env.round);
    } else {
      assert ws == [];
    }
  }

  lemma PartsOfStart(env: Env, c: State, h: int)
    requires Starts(env, c, h)
    ensures Core(env, c, h) && Mint.Rounds(env.round) && Weighable(c) && Param(c, MAX_TOTAL_SUPPLY) >= 0
  {
  }

  /** It does as long as the last of `n` stakers has a scaled power of at least 2n - 1 times the rounding
      error of the whole supply. */
  lemma BigEnoughStakes(env: Env, c: State, h: int, e: real)
    requires Starts(env, c, h) && 0 <= Param(c, BONDING_BLOCKS_WEIGHT_PERMIL) <= 1000
    requires Near(env.round, e) && e >= 0.0 && SupplyPower(c.supply) > 0
    requires StakersAt(env, c) != [] ==>
      && AllScaledAt(env, c, h) >= 1.0
      && var hs := HoldersAt(env, c, h);
        Mint.Times((2 * |hs| - 1) as real, Mint.Times(e, SupplyPower(c.supply) as real)) <= hs[|hs| - 1].scaled
    ensures WeightsOk(env, c, h)
  {
    hide *;
    PartsOfStart(env, c, h);
    StakersAreMeasured(env, c, h);
    WeighedAt(env, c, h);
    AsManyHolders(env, c, h);
    NoneNegative(HoldersAt(env, c, h), AllScaledAt(env, c, h), SupplyPower(c.supply) as real, env.round, e);
    FairIsOk(env, c, h);
  }

  lemma AsManyHolders(env: Env, c: State, h: int)
    requires Weighable(c)
    ensures |HoldersAt(env, c, h)| == |StakersAt(env, c)|
  {
  }

  lemma FairIsOk(env: Env, c: State, h: int)
    requires Weighable(c) && Param(c, MAX_TOTAL_SUPPLY) >= 0
    requires forall b <- CycleWeights(env, c, h).bs :: b.weight >= 0.0
    ensures WeightsOk(env, c, h)
  {
    hide CycleWeights;
    hide MintFails;
  }

  lemma NoneNegative(hs: seq<Mint.Stakeholder>, allScaled: real, supplyPower: real, round: real -> real, e: real)
    requires Mint.Rounds(round) && Near(round, e) && e >= 0.0 && Measured(hs)
    requires allScaled == Mint.Sum(ScaledPowers(hs)) && supplyPower > 0.0
    requires hs != [] ==>
      && allScaled >= 1.0
      && Mint.Times((2 * |hs| - 1) as real, Mint.Times(e, supplyPower)) <= hs[|hs| - 1].scaled
    ensures forall b <- Mint.WeighAll(hs, allScaled, supplyPower, round).bs :: b.weight >= 0.0
  {
    hide Mint.Times;
    hide Mint.Sum;
    hide Mint.Rounds;
    hide Near;
    var w := Mint.WeighAll(hs, allScaled, supplyPower, round);
    if hs != [] {
      var ws := Mint.Weights(hs, w.allWeight, allScaled, round);
      EnoughForTheLast(hs, allScaled, supplyPower, round, e);
      WeightsAt(w, hs, ws);
    }
  }

  /** With seven digits: if a share of 1 / 20000000 of the supply for each of the 2n - 1 is within the power
      of the last staker. */
  lemma BigEnoughForSeven(env: Env, c: State, h: int)
    requires Starts(env, c, h) && 0 <= Param(c, BONDING_BLOCKS_WEIGHT_PERMIL) <= 1000
    requires env.round == Mint.Round7 && SupplyPower(c.supply) > 0
    requires StakersAt(env, c) != [] ==>
      && AllScaledAt(env, c, h) >= 1.0
      && var hs := HoldersAt(env, c, h);
        ((2 * |hs| - 1) * SupplyPower(c.supply)) as real <= 20000000.0 * hs[|hs| - 1].scaled
    ensures WeightsOk(env, c, h)
  {
    hide *;
    PartsOfStart(env, c, h);
    Round7IsNear();
    AsManyHolders(env, c, h);
    if StakersAt(env, c) != [] {
      var hs := HoldersAt(env, c, h);
      TwentyMillionth(2 * |hs| - 1, SupplyPower(c.supply), hs[|hs| - 1].scaled);
    }
    BigEnoughStakes(env, c, h, 0.00000005);
  }

  lemma TwentyMillionth(n: int, s: int, last: real)
    requires (n * s) as real <= 20000000.0 * last
    ensures Mint.Times(n as real, Mint.Times(0.00000005, s as real)) <= last
  {
    var x := s as real;
    assert (n * s) as real == n as real * x;
    assert n as real * (0.00000005 * x) == 0.00000005 * (n as real * x);
  }

  /** With seven digits a positive total weight is rounded away if and only if the scaled power of all
      stakers is less than a twenty-millionth of the supply. */
  lemma RoundedAwayIff(allScaled: real, supplyPower: real)
    requires allScaled >= 0.0 && supplyPower > 0.0
    ensures Mint.Quot(Mint.Round7, allScaled, supplyPower) == 0.0 <==> 20000000.0 * allScaled < supplyPower
  {
    var x := allScaled / supplyPower;
    assert x * supplyPower == allScaled;
    Mint.NonNegativeQuotient(allScaled, 1.0, supplyPower);
    Below(x, supplyPower, allScaled);
    NearestIsZero(x * 10000000.0);
  }

  lemma Below(x: real, s: real, a: real)
    requires s > 0.0 && x * s == a
    ensures x * 20000000.0 < 1.0 <==> 20000000.0 * a < s
  {
    if x * 20000000.0 < 1.0 { assert (x * 20000000.0) * s < s; } else { assert (x * 20000000.0) * s >= s; }
    assert (x * 20000000.0) * s == 20000000.0 * a;
  }

  lemma NearestIsZero(y: real)
    requires y >= 0.0
    ensures (y + 0.5).Floor as real / 10000000.0 == 0.0 <==> y < 0.5
  {
  }
}
