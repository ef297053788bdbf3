/** ctrlers/vpower/ctrler_weight.go and ctrlers/supply/ctrler_mint.go: how an inflation cycle's
    issuance is shared out. Decimal arithmetic is modelled over `real`, with the truncations that
    the source performs written out. */
module Mint {
  import opened Base

  /** One over the precision of a decimal quotient (16 digits). */
  const UNITS: real := 10000000000000000.0

  datatype Beneficiary = Beneficiary(addr: Address, weight: real, signRate: real, isValidator: bool)

  // ----- sums

  function Sum(xs: seq<real>): real { if xs == [] then 0.0 else xs[0] + Sum(xs[1..]) }

  function Count(xs: seq<int>): int { if xs == [] then 0 else xs[0] + Count(xs[1..]) }

  lemma {:induction false} SumAppend(xs: seq<real>, x: real)
    ensures Sum(xs + [x]) == Sum(xs) + x
  {
    if xs == [] {
    } else {
      assert (xs + [x])[1..] == xs[1..] + [x];
      SumAppend(xs[1..], x);
    }
  }

  lemma {:induction false} CountAppend(xs: seq<int>, x: int)
    ensures Count(xs + [x]) == Count(xs) + x
  {
    if xs == [] {
      assert [x][1..] == [];
    } else {
      assert (xs + [x])[1..] == xs[1..] + [x];
      CountAppend(xs[1..], x);
    }
  }

  lemma {:induction false} SumRemove(xs: seq<real>, i: nat)
    requires i < |xs|
    ensures Sum(xs) == xs[i] + Sum(xs[..i] + xs[i + 1..])
  {
    var ys := xs[..i] + xs[i + 1..];
    if i == 0 {
      assert ys == xs[1..];
    } else {
      assert ys[1..] == xs[1..][..i - 1] + xs[1..][i..];
      SumRemove(xs[1..], i - 1);
    }
  }

  lemma TakeOut(xs: seq<real>, i: nat)
    requires i < |xs|
    ensures multiset(xs) == multiset(xs[..i] + xs[i + 1..]) + multiset{xs[i]}
  {
    assert xs == xs[..i] + [xs[i]] + xs[i + 1..];
  }

  lemma SameRest(a: multiset<real>, b: multiset<real>, x: real)
    requires a + multiset{x} == b + multiset{x}
    ensures a == b
  {
    assert a == (a + multiset{x}) - multiset{x};
    assert b == (b + multiset{x}) - multiset{x};
  }

  lemma {:induction false} SumIgnoresOrder(xs: seq<real>, ys: seq<real>)
    requires multiset(xs) == multiset(ys)
    ensures Sum(xs) == Sum(ys)
    decreases |xs|
  {
    if xs == [] {
      assert |multiset(ys)| == 0;
    } else {
      assert xs[0] in multiset(xs);
      var i :| 0 <= i < |ys| && ys[i] == xs[0];
      var rest := ys[..i] + ys[i + 1..];
      TakeOut(xs, 0);
      TakeOut(ys, i);
      assert xs[..0] + xs[1..] == xs[1..];
      SameRest(multiset(xs[1..]), multiset(rest), xs[0]);
      SumIgnoresOrder(xs[1..], rest);
      SumRemove(ys, i);
    }
  }

  // ----- weights

  function WeightsOf(bs: seq<Beneficiary>): seq<real> { seq(|bs|, i requires 0 <= i < |bs| => bs[i].weight) }

  function ValidatorWeights(bs: seq<Beneficiary>): seq<real> {
    seq(|bs|, i requires 0 <= i < |bs| => if bs[i].isValidator then bs[i].weight else 0.0)
  }

  /** What ComputeWeight knows of a beneficiary before its weight: its scaled power. */
  datatype Stakeholder = Stakeholder(addr: Address, scaled: real, signRate: real, isValidator: bool)

  /** A fixed-point quotient. By zero it is not a number, which the conversion to a decimal makes zero. */
  function Quot(round: real -> real, a: real, b: real): real { if b == 0.0 then 0.0 else round(a / b) }

  function ShareOfWeight(allWeight: real, scaled: real, allScaled: real, round: real -> real): real {
    Quot(round, round(allWeight * scaled), allScaled)
  }

  /** The weights of all but the last stakeholder. */
  function FirstWeights(hs: seq<Stakeholder>, allWeight: real, allScaled: real, round: real -> real): seq<real>
    requires hs != []
  {
    seq(|hs| - 1, i requires 0 <= i < |hs| - 1 => ShareOfWeight(allWeight, hs[i].scaled, allScaled, round))
  }

  /** The last one takes what is left of the whole. */
  function Weights(hs: seq<Stakeholder>, allWeight: real, allScaled: real, round: real -> real): (ws: seq<real>)
    ensures |ws| == |hs|
  {
    if hs == [] then []
    else
      var first := FirstWeights(hs, allWeight, allScaled, round);
      first + [allWeight - Sum(first)]
  }

  function Weigh(hs: seq<Stakeholder>, ws: seq<real>): (bs: seq<Beneficiary>)
    requires |ws| == |hs|
  {
    seq(|hs|, i requires 0 <= i < |hs| => Beneficiary(hs[i].addr, ws[i], hs[i].signRate, hs[i].isValidator))
  }

  datatype Weighing = Weighing(bs: seq<Beneficiary>, allWeight: real, valWeight: real)

  /** The weights of a cycle, and the total weights of everybody and of the validators. */
  function WeighAll(hs: seq<Stakeholder>, allScaled: real, supplyPower: real, round: real -> real): Weighing {
    var allWeight := Quot(round, allScaled, supplyPower);
    var bs := Weigh(hs, Weights(hs, allWeight, allScaled, round));
    Weighing(bs, allWeight, Sum(ValidatorWeights(bs)))
  }

  /** However products and quotients are rounded, the weights add up to their totals. */
  lemma WeightsMakeTotals(hs: seq<Stakeholder>, allScaled: real, supplyPower: real, round: real -> real)
    ensures var w := WeighAll(hs, allScaled, supplyPower, round);
      && |w.bs| == |hs| && Sum(ValidatorWeights(w.bs)) == w.valWeight
      && (hs != [] ==> Sum(WeightsOf(w.bs)) == w.allWeight)
  {
    hide ShareOfWeight;
    hide Quot;
    var w := WeighAll(hs, allScaled, supplyPower, round);
    if hs != [] {
      var first := FirstWeights(hs, w.allWeight, allScaled, round);
      assert WeightsOf(w.bs) == first + [w.allWeight - Sum(first)];
      SumAppend(first, w.allWeight - Sum(first));
    }
  }

  /** The loop over the beneficiaries in order. */
  method ComputeWeight(hs: seq<Stakeholder>, allScaled: real, supplyPower: real, round: real -> real)
    returns (w: Weighing)
    ensures w == WeighAll(hs, allScaled, supplyPower, round)
    ensures hs != [] ==> Sum(WeightsOf(w.bs)) == w.allWeight
  {
    hide ShareOfWeight;
    hide Quot;
    WeightsMakeTotals(hs, allScaled, supplyPower, round);
    var allWeight := Quot(round, allScaled, supplyPower);
    ghost var all := WeighAll(hs, allScaled, supplyPower, round).bs;
    var bs, sumWeight, valWeight := [], 0.0, 0.0;
    for i := 0 to |hs|
      invariant bs == all[..i]
      invariant Sum(WeightsOf(bs)) == sumWeight && Sum(ValidatorWeights(bs)) == valWeight
    {
      var w;
      if i == |hs| - 1 {
        assert WeightsOf(bs) == FirstWeights(hs, allWeight, allScaled, round);
        w := allWeight - sumWeight;
      } else {
        w := ShareOfWeight(allWeight, hs[i].scaled, allScaled, round);
      }
      var b := Beneficiary(hs[i].addr, w, hs[i].signRate, hs[i].isValidator);
      assert WeightsOf(bs + [b]) == WeightsOf(bs) + [w];
      assert ValidatorWeights(bs + [b]) == ValidatorWeights(bs) + [if b.isValidator then w else 0.0];
      SumAppend(WeightsOf(bs), w);
      SumAppend(ValidatorWeights(bs), if b.isValidator then w else 0.0);
      sumWeight := sumWeight + w;
      if b.isValidator { valWeight := valWeight + w; }
      bs := bs + [b];
    }
    w := Weighing(bs, allWeight, valWeight);
  }

  /** ComputeWeight's signing rate, from the blocks missed in a cycle. */
  function SignRate(round: real -> real, missed: int, cycle: int): real
    requires cycle > 0
  {
    1.0 - round(missed as real / cycle as real)
  }

  /** Rounding keeps the order, and keeps what needs none. */
  ghost predicate Rounds(round: real -> real) {
    && round(0.0) == 0.0 && round(1.0) == 1.0
    && forall x, y :: x <= y ==> round(x) <= round(y)
  }

  // ----- shares of the issuance

  /** Cut off after the last digit, towards zero. */
  function Trunc(x: real): real {
    if x >= 0.0 then (x * UNITS).Floor as real / UNITS else -((-x * UNITS).Floor as real / UNITS)
  }

  lemma TruncBounds(x: real)
    requires x >= 0.0
    ensures 0.0 <= Trunc(x) <= x < Trunc(x) + 1.0 / UNITS
  {
    var n := (x * UNITS).Floor as real;
    assert n <= x * UNITS < n + 1.0;
    assert n / UNITS <= x && x < (n + 1.0) / UNITS;
    assert (n + 1.0) / UNITS == n / UNITS + 1.0 / UNITS;
  }

  /** The issuance split between validators and everyone, and the total weight of each side. */
  datatype Pot = Pot(toAll: real, allWeight: real, toVals: real, valWeight: real)

  /** No share is divided by zero. */
  predicate Divides(bs: seq<Beneficiary>, allWeight: real, valWeight: real) {
    (bs != [] ==> allWeight != 0.0) && (forall b <- bs :: b.isValidator ==> valWeight != 0.0)
  }

  predicate PotOk(p: Pot, bs: seq<Beneficiary>) {
    && p.toAll >= 0.0 && p.toVals >= 0.0
    && (bs != [] ==> p.allWeight > 0.0)
    && (forall b <- bs :: b.isValidator ==> p.valWeight > 0.0)
    && (forall b <- bs :: b.weight >= 0.0)
  }

  datatype Share = Share(raw: real, rate: real)

  /** The part of `pot` that falls to weight `w` out of `whole`, truncated. */
  function Portion(pot: real, w: real, whole: real): real
    requires whole != 0.0
  {
    Trunc(pot * w / whole)
  }

  /** A beneficiary's part before rounding to whole units. */
  function RawShare(p: Pot, b: Beneficiary): real
    requires p.allWeight != 0.0 && (b.isValidator ==> p.valWeight != 0.0)
  {
    Portion(p.toAll, b.weight, p.allWeight) + if b.isValidator then Portion(p.toVals, b.weight, p.valWeight) else 0.0
  }

  function Shares(p: Pot, bs: seq<Beneficiary>): seq<Share>
    requires Divides(bs, p.allWeight, p.valWeight)
  {
    seq(|bs|, i requires 0 <= i < |bs| => Share(RawShare(p, bs[i]), bs[i].signRate))
  }

  function Raws(sh: seq<Share>): seq<real> { seq(|sh|, i requires 0 <= i < |sh| => sh[i].raw) }

  /** A payment before rounding: the share and the fraction carried to it, reduced by the signing
      rate; and the fraction it leaves. */
  function Due(s: Share, carry: real): real { (s.raw + carry) * s.rate }

  function Left(s: Share, carry: real): real { Due(s, carry) - Due(s, carry).Floor as real }

  /** Whole units paid in order. */
  function Payout(sh: seq<Share>, carry: real): (amts: seq<int>)
    ensures |amts| == |sh|
  {
    if sh == [] then [] else [Due(sh[0], carry).Floor] + Payout(sh[1..], Left(sh[0], carry))
  }

  /** `uint256.MustFromBig` of a decimal's integer part: cut off towards zero, then modulo 2^256. */
  function ToUint256(x: real): nat { (if x >= 0.0 then x.Floor else -(-x).Floor) % TWO256 }

  /** The payments as the ledger gets them. */
  function Amounts(sh: seq<Share>, carry: real): (amts: seq<nat>)
    ensures |amts| == |sh|
  {
    if sh == [] then [] else [ToUint256(Due(sh[0], carry))] + Amounts(sh[1..], Left(sh[0], carry))
  }

  predicate Fair(sh: seq<Share>) { forall s <- sh :: s.raw >= 0.0 && 0.0 <= s.rate <= 1.0 }

  predicate AllSigned(sh: seq<Share>) { forall s <- sh :: s.raw >= 0.0 && s.rate == 1.0 }

  lemma {:induction false} RawsTail(sh: seq<Share>)
    requires sh != []
    ensures Raws(sh)[0] == sh[0].raw && Raws(sh)[1..] == Raws(sh[1..])
  {
  }

  lemma ScaledDown(x: real, rate: real)
    requires x >= 0.0 && 0.0 <= rate <= 1.0
    ensures 0.0 <= x * rate <= x
  {
  }

  lemma DueBounds(s: Share, carry: real)
    requires s.raw >= 0.0 && carry >= 0.0 && 0.0 <= s.rate <= 1.0
    ensures 0.0 <= Due(s, carry) <= s.raw + carry
    ensures s.rate == 1.0 ==> Due(s, carry) == s.raw + carry
    ensures 0.0 <= Left(s, carry) < 1.0 && Due(s, carry).Floor as real + Left(s, carry) == Due(s, carry)
    ensures Due(s, carry).Floor >= 0
  {
    ScaledDown(s.raw + carry, s.rate);
  }

  /** Nobody is paid less than nothing. */
  lemma {:induction false} PayoutIsNonNegative(sh: seq<Share>, carry: real, i: nat)
    requires Fair(sh) && carry >= 0.0 && i < |sh|
    ensures Payout(sh, carry)[i] >= 0
    decreases |sh|
  {
    hide Due;
    hide Left;
    assert sh[0] in sh;
    DueBounds(sh[0], carry);
    if i > 0 { PayoutIsNonNegative(sh[1..], Left(sh[0], carry), i - 1); }
  }

  /** Together the payments are no more than the shares and the carry. */
  lemma {:induction false} PayoutWithinShares(sh: seq<Share>, carry: real)
    requires Fair(sh) && carry >= 0.0
    ensures Count(Payout(sh, carry)) as real <= Sum(Raws(sh)) + carry
    decreases |sh|
  {
    hide Due;
    hide Left;
    if sh != [] {
      assert sh[0] in sh;
      DueBounds(sh[0], carry);
      PayoutWithinShares(sh[1..], Left(sh[0], carry));
      RawsTail(sh);
      assert Payout(sh, carry)[1..] == Payout(sh[1..], Left(sh[0], carry));
    }
  }

  // ----- where the rest of the shares goes

  /** What absent signers forgo: of each share, and of the fraction carried to it, the part that was
      not signed for. */
  function Forgone(sh: seq<Share>, carry: real): real {
    if sh == [] then 0.0
    else Times(1.0 - sh[0].rate, sh[0].raw + carry) + Forgone(sh[1..], Left(sh[0], carry))
  }

  /** The fraction that nobody gets in the end. */
  function LastCarry(sh: seq<Share>, carry: real): real {
    if sh == [] then carry else LastCarry(sh[1..], Left(sh[0], carry))
  }

  lemma DueAndForgone(s: Share, carry: real)
    ensures Due(s, carry) + Times(1.0 - s.rate, s.raw + carry) == s.raw + carry
  {
  }

  /** Every unit of the shares is paid, forgone or left over, for any signing rates. */
  lemma {:induction false} SharesAccountedFor(sh: seq<Share>, carry: real)
    ensures Sum(Raws(sh)) + carry == Count(Payout(sh, carry)) as real + Forgone(sh, carry) + LastCarry(sh, carry)
    decreases |sh|
  {
    hide Due;
    hide Times;
    if sh != [] {
      DueAndForgone(sh[0], carry);
      SharesAccountedFor(sh[1..], Left(sh[0], carry));
      RawsTail(sh);
      assert Payout(sh, carry)[1..] == Payout(sh[1..], Left(sh[0], carry));
    }
  }

  /** The fraction carried to beneficiary `i`. */
  function CarryTo(sh: seq<Share>, carry: real, i: nat): real
    requires i < |sh|
  {
    if i == 0 then carry else CarryTo(sh[1..], Left(sh[0], carry), i - 1)
  }

  function DueAt(sh: seq<Share>, carry: real, i: nat): real
    requires i < |sh|
  {
    Due(sh[i], CarryTo(sh, carry, i))
  }

  lemma ToUint256Iff(x: real)
    ensures ToUint256(x) == x.Floor <==> 0.0 <= x < TWO256 as real
  {
    var n := x.Floor;
    if x < 0.0 {
      assert n < 0;
    } else {
      assert n % TWO256 == n <==> n < TWO256;
      assert n < TWO256 <==> x < TWO256 as real;
    }
  }

  /** The ledger gets the payments as they were computed if and only if none of them is negative or
      beyond 2^256. */
  lemma {:induction false} AmountsExactIff(sh: seq<Share>, carry: real)
    ensures Amounts(sh, carry) == Payout(sh, carry) <==>
      forall i :: 0 <= i < |sh| ==> 0.0 <= DueAt(sh, carry, i) < TWO256 as real
    decreases |sh|
  {
    hide ToUint256;
    hide Due;
    hide Left;
    if sh != [] {
      var rest, left := sh[1..], Left(sh[0], carry);
      ToUint256Iff(Due(sh[0], carry));
      AmountsExactIff(rest, left);
      var xs, ys := Amounts(sh, carry), Payout(sh, carry);
      assert xs[1..] == Amounts(rest, left) && ys[1..] == Payout(rest, left);
      assert xs == [xs[0]] + xs[1..] && ys == [ys[0]] + ys[1..];
      assert DueAt(sh, carry, 0) == Due(sh[0], carry);
      forall i | 0 <= i < |rest| ensures DueAt(sh, carry, i + 1) == DueAt(rest, left, i) {}
      forall i | 0 < i < |sh| ensures DueAt(sh, carry, i) == DueAt(rest, left, i - 1) {}
    }
  }

  lemma {:induction false} AmountAt(sh: seq<Share>, carry: real, i: nat)
    requires i < |sh|
    ensures Amounts(sh, carry)[i] == ToUint256(DueAt(sh, carry, i))
    decreases |sh|
  {
    hide ToUint256;
    hide Due;
    hide Left;
    if i > 0 {
      AmountAt(sh[1..], Left(sh[0], carry), i - 1);
      assert DueAt(sh, carry, i) == DueAt(sh[1..], Left(sh[0], carry), i - 1);
    }
  }

  lemma {:induction false} AmountWithinCount(amts: seq<nat>, i: nat)
    requires i < |amts|
    ensures amts[i] <= Count(amts)
  {
    NonNegativeCount(amts[1..]);
    if i > 0 { AmountWithinCount(amts[1..], i - 1); }
  }

  /** A payment of minus one unit or less becomes one of more than 2^255. */
  lemma NegativeDueWraps(x: real)
    requires -(TWO255 as real) < x <= -1.0
    ensures ToUint256(x) == TWO256 - (-x).Floor && Negative(ToUint256(x))
  {
    var n := (-x).Floor;
    assert 1 <= n < TWO255;
    assert -n % TWO256 == TWO256 - n;
  }

  /** Eleven blocks missed in a cycle that has become ten blocks long: of a share of ten units the
      validator is paid 2^256 - 1. */
  lemma NegativeRateWraps(round: real -> real)
    requires round(1.1) == 1.1
    ensures SignRate(round, 11, 10) == -0.1
    ensures Amounts([Share(10.0, SignRate(round, 11, 10))], 0.0) == [TWO256 - 1]
  {
    var s := Share(10.0, SignRate(round, 11, 10));
    assert 11 as real / 10 as real == 1.1;
    assert Due(s, 0.0) == -1.0;
    NegativeDueWraps(-1.0);
    assert [s][1..] == [];
  }

  /** To the nearest of seven digits. */
  function Round7(x: real): real { (x * 10000000.0 + 0.5).Floor as real / 10000000.0 }

  lemma Round7Rounds()
    ensures Rounds(Round7)
  {
    FloorIs(0.5, 0);
    FloorIs(10000000.5, 10000000);
    forall x, y | x <= y ensures Round7(x) <= Round7(y) { FloorMonotone(x * 10000000.0 + 0.5, y * 10000000.0 + 0.5); }
  }

  lemma FloorIs(x: real, n: int)
    requires n as real <= x < n as real + 1.0
    ensures x.Floor == n
  {
  }

  lemma FloorMonotone(x: real, y: real)
    requires x <= y
    ensures x.Floor <= y.Floor && x.Floor as real / 10000000.0 <= y.Floor as real / 10000000.0
  {
  }

  lemma Round7Of(x: real, n: int)
    requires n as real <= x * 10000000.0 + 0.5 < n as real + 1.0
    ensures Round7(x) == n as real / 10000000.0
  {
    FloorIs(x * 10000000.0 + 0.5, n);
  }

  /** The last beneficiary takes what the rounded weights of the others leave, which can be less than
      nothing: five stakers with powers 12499998, 12499998, 12499998, 12500003 and 3, all of the
      supply. Of an issuance of 10^8 units the last one is paid more than 2^255. */
  lemma LastWeightWraps(carry: real)
    requires 0.0 <= carry < 1.0
    ensures
      var big, bigger := ShareOfWeight(1.0, 12499998.0, 50000000.0, Round7), ShareOfWeight(1.0, 12500003.0, 50000000.0,
          Round7);
      var last := 1.0 - (big + big + big + bigger);
      last == -0.0000001 && Negative(ToUint256(Due(Share(Portion(100000000.0, last, 1.0), 1.0), carry)))
  {
    Round7Of(1.0 * 12499998.0, 124999980000000);
    Round7Of(1.0 * 12500003.0, 125000030000000);
    Round7Of(12499998.0 / 50000000.0, 2500000);
    Round7Of(12500003.0 / 50000000.0, 2500001);
    hide Round7;
    assert (10.0 * UNITS).Floor == 100000000000000000;
    assert Trunc(-10.0) == -10.0;
    NegativeDueWraps(-10.0 + carry);
  }

  /** Fair shares that add up to less than 2^256 are paid as computed. */
  lemma {:induction false} FairAmountsAreExact(sh: seq<Share>, carry: real)
    requires Fair(sh) && carry >= 0.0 && Sum(Raws(sh)) + carry < TWO256 as real
    ensures Amounts(sh, carry) == Payout(sh, carry)
    decreases |sh|
  {
    hide ToUint256;
    hide Due;
    hide Left;
    if sh != [] {
      assert sh[0] in sh;
      DueBounds(sh[0], carry);
      RawsTail(sh);
      SumNonNegative(Raws(sh[1..]));
      ToUint256Iff(Due(sh[0], carry));
      FairAmountsAreExact(sh[1..], Left(sh[0], carry));
    }
  }

  lemma {:induction false} SumNonNegative(xs: seq<real>)
    requires forall i :: 0 <= i < |xs| ==> xs[i] >= 0.0
    ensures Sum(xs) >= 0.0
  {
    if xs != [] { SumNonNegative(xs[1..]); }
  }

  /** Nobody who missed a block had anything to get. */
  ghost predicate NothingForgone(sh: seq<Share>, carry: real) {
    forall i :: 0 <= i < |sh| ==> sh[i].rate == 1.0 || sh[i].raw + CarryTo(sh, carry, i) == 0.0
  }

  lemma ProductIsZero(a: real, b: real)
    requires a >= 0.0 && b >= 0.0
    ensures Times(a, b) >= 0.0 && (Times(a, b) == 0.0 <==> a == 0.0 || b == 0.0)
  {
  }

  lemma {:induction false} ForgoneIsZeroIff(sh: seq<Share>, carry: real)
    requires Fair(sh) && 0.0 <= carry < 1.0
    ensures Forgone(sh, carry) >= 0.0 && 0.0 <= LastCarry(sh, carry) < 1.0
    ensures Forgone(sh, carry) == 0.0 <==> NothingForgone(sh, carry)
    decreases |sh|
  {
    hide Due;
    hide Left;
    hide Times;
    if sh != [] {
      assert sh[0] in sh;
      var rest, left := sh[1..], Left(sh[0], carry);
      DueBounds(sh[0], carry);
      ProductIsZero(1.0 - sh[0].rate, sh[0].raw + carry);
      ForgoneIsZeroIff(rest, left);
      assert CarryTo(sh, carry, 0) == carry;
      forall i | 0 <= i < |rest| ensures sh[i + 1] == rest[i] && CarryTo(sh, carry, i + 1) == CarryTo(rest, left, i) {}
      if NothingForgone(sh, carry) {
        forall i | 0 <= i < |rest| ensures rest[i].rate == 1.0 || rest[i].raw + CarryTo(rest, left, i) == 0.0 {
          assert sh[i + 1].rate == 1.0 || sh[i + 1].raw + CarryTo(sh, carry, i + 1) == 0.0;
        }
      }
      if (sh[0].rate == 1.0 || sh[0].raw + carry == 0.0) && NothingForgone(rest, left) {
        forall i | 0 <= i < |sh| ensures sh[i].rate == 1.0 || sh[i].raw + CarryTo(sh, carry, i) == 0.0 {
          if i > 0 { assert rest[i - 1].rate == 1.0 || rest[i - 1].raw + CarryTo(rest, left, i - 1) == 0.0; }
        }
      }
    }
  }

  /** When everybody signed every block the total is the sum of the shares, rounded down once. */
  lemma {:induction false} FullPayoutIsFloor(sh: seq<Share>, carry: real)
    requires AllSigned(sh) && 0.0 <= carry < 1.0
    ensures Count(Payout(sh, carry)) == (Sum(Raws(sh)) + carry).Floor
    decreases |sh|
  {
    hide Due;
    hide Left;
    if sh != [] {
      assert sh[0] in sh;
      DueBounds(sh[0], carry);
      FullPayoutIsFloor(sh[1..], Left(sh[0], carry));
      RawsTail(sh);
      assert Payout(sh, carry)[1..] == Payout(sh[1..], Left(sh[0], carry));
    }
  }

  /** ... so it does not depend on the order of the beneficiaries. */
  lemma FullTotalIgnoresOrder(sh: seq<Share>, sh': seq<Share>)
    requires AllSigned(sh) && AllSigned(sh') && multiset(Raws(sh)) == multiset(Raws(sh'))
    ensures Count(Payout(sh, 0.0)) == Count(Payout(sh', 0.0))
  {
    FullPayoutIsFloor(sh, 0.0);
    FullPayoutIsFloor(sh', 0.0);
    SumIgnoresOrder(Raws(sh), Raws(sh'));
  }

  /** Who gets a carried unit depends on the order, and with absent signers so does the total. */
  lemma OrderMatters()
    ensures Payout([Share(0.5, 1.0), Share(0.75, 1.0)], 0.0) == [0, 1]
    ensures Payout([Share(0.75, 1.0), Share(0.5, 1.0)], 0.0) == [0, 1]
    ensures Count(Payout([Share(0.5, 1.0), Share(0.5, 1.0), Share(1.0, 0.0)], 0.0)) == 1
    ensures Count(Payout([Share(0.5, 1.0), Share(1.0, 0.0), Share(0.5, 1.0)], 0.0)) == 0
  {
    var a, b, c := Share(0.5, 1.0), Share(0.75, 1.0), Share(1.0, 0.0);
    assert Due(a, 0.0) == 0.5 && Left(a, 0.0) == 0.5 && Due(b, 0.5) == 1.25 && Due(b, 0.0) == 0.75;
    assert Left(b, 0.0) == 0.75 && Due(a, 0.75) == 1.25 && Due(a, 0.5) == 1.0 && Left(a, 0.5) == 0.0;
    assert Due(c, 0.0) == 0.0 && Due(c, 0.5) == 0.0 && Left(c, 0.5) == 0.0;
    PayTwo(a, b, 0.0);
    PayTwo(b, a, 0.0);
    PayTwo(a, c, 0.5);
    PayTwo(c, a, 0.5);
    assert [a, a, c][1..] == [a, c] && [a, c, a][1..] == [c, a];
    assert Payout([a, a, c], 0.0) == [0] + Payout([a, c], 0.5) == [0, 1, 0];
    assert Payout([a, c, a], 0.0) == [0] + Payout([c, a], 0.5) == [0, 0, 0];
    CountThree(0, 1, 0);
    CountThree(0, 0, 0);
  }

  /** What two neighbours are paid and leave, added up. */
  function PairOutcome(s: Share, t: Share, carry: real): real {
    Due(s, carry).Floor as real + Due(t, Left(s, carry))
  }

  /** The fraction carried to the pair is weighed with the difference of the signing rates, the
      fractions that each leaves for the other with what the other missed. */
  predicate SwapIsHarmless(s: Share, t: Share, carry: real) {
    carry * (s.rate - t.rate) == Left(s, carry) * (1.0 - t.rate) - Left(t, carry) * (1.0 - s.rate)
  }

  lemma HarmlessIff(s: Share, t: Share, carry: real)
    ensures SwapIsHarmless(s, t, carry) <==> PairOutcome(s, t, carry) == PairOutcome(t, s, carry)
  {
    var x, y := Left(s, carry), Left(t, carry);
    assert PairOutcome(s, t, carry) == Due(s, carry) - x + t.raw * t.rate + x * t.rate;
    assert PairOutcome(t, s, carry) == Due(t, carry) - y + s.raw * s.rate + y * s.rate;
    assert Due(s, carry) == s.raw * s.rate + carry * s.rate && Due(t, carry) == t.raw * t.rate + carry * t.rate;
    assert x * (1.0 - t.rate) == x - x * t.rate && y * (1.0 - s.rate) == y - y * s.rate;
    assert carry * (s.rate - t.rate) == carry * s.rate - carry * t.rate;
  }

  lemma PairThenRest(s: Share, t: Share, rest: seq<Share>, carry: real)
    ensures var d := Due(t, Left(s, carry));
      Count(Payout([s, t] + rest, carry)) == Due(s, carry).Floor + d.Floor + Count(Payout(rest, d - d.Floor as real))
  {
    hide Due;
    var sh := [s, t] + rest;
    assert sh[1..] == [t] + rest && ([t] + rest)[1..] == rest;
    var tail := Payout(rest, Left(t, Left(s, carry)));
    var mid := Payout([t] + rest, Left(s, carry));
    assert mid == [Due(t, Left(s, carry)).Floor] + tail && mid[1..] == tail;
    assert Payout(sh, carry) == [Due(s, carry).Floor] + mid && Payout(sh, carry)[1..] == mid;
  }

  ghost predicate SameTotals(s: Share, t: Share, carry: real) {
    forall rest :: Fair(rest) ==> Count(Payout([s, t] + rest, carry)) == Count(Payout([t, s] + rest, carry))
  }

  lemma SameParts(x: int, p: real, y: int, q: real)
    requires x as real + p == y as real + q
    ensures x + p.Floor == y + q.Floor && p - p.Floor as real == q - q.Floor as real
  {
    assert p == q + (y - x) as real;
  }

  lemma LastTakesRest(s: Share, t: Share, carry: real, r: Share)
    requires r.rate == 1.0
    ensures Count(Payout([s, t] + [r], carry)) == (PairOutcome(s, t, carry) + r.raw).Floor
  {
    PairThenRest(s, t, [r], carry);
    var d := Due(t, Left(s, carry));
    var c := d - d.Floor as real;
    assert [r][1..] == [] && Due(r, c) == r.raw + c;
    assert Payout([r], c) == [(r.raw + c).Floor] && [(r.raw + c).Floor][1..] == [];
    assert PairOutcome(s, t, carry) + r.raw == (Due(s, carry).Floor + d.Floor) as real + (r.raw + c);
  }

  /** Two neighbours with different outcomes are told apart by one more beneficiary. */
  lemma DifferentTotals(s: Share, t: Share, carry: real)
    requires PairOutcome(s, t, carry) < PairOutcome(t, s, carry)
    ensures !SameTotals(s, t, carry) && !SameTotals(t, s, carry)
  {
    hide PairOutcome;
    hide Payout;
    var p, q := PairOutcome(s, t, carry), PairOutcome(t, s, carry);
    var r := Share((q.Floor + 1) as real - q, 1.0);
    LastTakesRest(s, t, carry, r);
    LastTakesRest(t, s, carry, r);
    assert Fair([r]);
  }

  /** Swapping two neighbours leaves the total of every continuation unchanged if and only if the
      carried fractions balance; in particular whenever both signed every block. */
  lemma SwapKeepsTotalIff(s: Share, t: Share, carry: real)
    ensures SameTotals(s, t, carry) <==> SwapIsHarmless(s, t, carry)
    ensures s.rate == 1.0 && t.rate == 1.0 ==> SwapIsHarmless(s, t, carry)
  {
    HarmlessIff(s, t, carry);
    var p, q := PairOutcome(s, t, carry), PairOutcome(t, s, carry);
    if p < q {
      DifferentTotals(s, t, carry);
    } else if q < p {
      DifferentTotals(t, s, carry);
    } else {
      SameParts(Due(s, carry).Floor, Due(t, Left(s, carry)), Due(t, carry).Floor, Due(s, Left(t, carry)));
      forall rest | Fair(rest) ensures Count(Payout([s, t] + rest, carry)) == Count(Payout([t, s] + rest, carry)) {
        PairThenRest(s, t, rest, carry);
        PairThenRest(t, s, rest, carry);
      }
    }
  }

  lemma CountThree(x: int, y: int, z: int)
    ensures Count([x, y, z]) == x + y + z
  {
    assert [x, y, z][1..] == [y, z] && [y, z][1..] == [z] && [z][1..] == [];
    assert Count([y, z]) == y + Count([z]) == y + z;
  }

  lemma PayTwo(s: Share, t: Share, carry: real)
    ensures Payout([s, t], carry) == [Due(s, carry).Floor, Due(t, Left(s, carry)).Floor]
  {
    hide Due;
    hide Left;
    var x, y := Due(s, carry).Floor, Due(t, Left(s, carry)).Floor;
    assert [s, t][1..] == [t];
    assert Payout([t], Left(s, carry)) == [y];
    assert Payout([s, t], carry) == [x] + Payout([t], Left(s, carry));
    assert [x] + [y] == [x, y];
  }

  // ----- the shares against the issuance

  lemma {:induction false} SumAtMost(xs: seq<real>, ys: seq<real>, gap: real)
    requires |xs| == |ys| && forall i :: 0 <= i < |xs| ==> xs[i] <= ys[i] <= xs[i] + gap
    ensures Sum(xs) <= Sum(ys) <= Sum(xs) + Times(gap, |xs| as real)
  {
    if xs != [] {
      SumAtMost(xs[1..], ys[1..], gap);
      Distribute(gap, |xs[1..]| as real, 1.0);
    }
  }

  lemma {:induction false} SumScaled(ws: seq<real>, c: real)
    ensures Sum(Scaled(c, ws)) == Times(c, Sum(ws))
  {
    if ws != [] {
      ScaledTail(c, ws);
      SumScaled(ws[1..], c);
      Distribute(c, ws[0], Sum(ws[1..]));
    }
  }

  lemma ScaledTail(c: real, ws: seq<real>)
    requires ws != []
    ensures Scaled(c, ws)[0] == Times(c, ws[0]) && Scaled(c, ws)[1..] == Scaled(c, ws[1..])
  {
    hide Times;
  }

  lemma Distribute(c: real, a: real, b: real) ensures Times(c, a + b) == Times(c, a) + Times(c, b) {}

  lemma {:induction false} SumAdds(xs: seq<real>, ys: seq<real>, zs: seq<real>)
    requires |xs| == |ys| == |zs| && forall i :: 0 <= i < |xs| ==> zs[i] == xs[i] + ys[i]
    ensures Sum(zs) == Sum(xs) + Sum(ys)
  {
    if xs != [] { SumAdds(xs[1..], ys[1..], zs[1..]); }
  }

  /** The share in the common part, and in the validators' part, without any truncation. */
  function ExactAll(p: Pot, bs: seq<Beneficiary>): seq<real> { Scaled(Ratio(p.toAll, p.allWeight), WeightsOf(bs)) }

  function ExactVal(p: Pot, bs: seq<Beneficiary>): seq<real> {
    Scaled(Ratio(p.toVals, p.valWeight), ValidatorWeights(bs))
  }

  function Ratio(a: real, c: real): real { if c == 0.0 then 0.0 else a / c }

  function Times(a: real, b: real): real { a * b }

  function Scaled(c: real, ws: seq<real>): seq<real> { seq(|ws|, i requires 0 <= i < |ws| => Times(c, ws[i])) }

  lemma PortionBounds(pot: real, w: real, whole: real)
    requires pot >= 0.0 && w >= 0.0 && whole > 0.0
    ensures 0.0 <= Portion(pot, w, whole) <= Times(Ratio(pot, whole), w) <= Portion(pot, w, whole) + 1.0 / UNITS
  {
    hide Trunc;
    var q := pot * w / whole;
    Reassociate(pot, w, whole);
    assert q == Times(Ratio(pot, whole), w) && Portion(pot, w, whole) == Trunc(q);
    hide Times;
    hide Ratio;
    hide Portion;
    NonNegativeQuotient(pot, w, whole);
    TruncBounds(q);
  }

  lemma Reassociate(a: real, w: real, c: real)
    requires c > 0.0
    ensures a * w / c == Times(Ratio(a, c), w)
  {
  }

  lemma NonNegativeQuotient(a: real, w: real, c: real)
    requires a >= 0.0 && w >= 0.0 && c > 0.0
    ensures a * w / c >= 0.0
  {
    assert a * w >= 0.0;
  }

  lemma RawShareBounds(p: Pot, bs: seq<Beneficiary>, i: nat)
    requires PotOk(p, bs) && i < |bs|
    ensures var x := ExactAll(p, bs)[i] + ExactVal(p, bs)[i];
      Raws(Shares(p, bs))[i] <= x <= Raws(Shares(p, bs))[i] + 2.0 / UNITS
  {
    hide Portion;
    hide Ratio;
    hide Times;
    var b := bs[i];
    assert b in bs;
    assert 2.0 / UNITS == 1.0 / UNITS + 1.0 / UNITS && 1.0 / UNITS >= 0.0;
    PortionBounds(p.toAll, b.weight, p.allWeight);
    if b.isValidator {
      PortionBounds(p.toVals, b.weight, p.valWeight);
    } else {
      ZeroTimes(Ratio(p.toVals, p.valWeight));
    }
  }

  /** The validators' part has no takers when no validator weighs anything. */
  function Offered(p: Pot): real { p.toAll + if p.valWeight == 0.0 then 0.0 else p.toVals }

  /** With the weights summing to their totals, the shares add up to what is offered, short by at
      most two truncation units per beneficiary. */
  lemma {:induction false} SharesFillThePot(p: Pot, bs: seq<Beneficiary>)
    requires PotOk(p, bs) && bs != []
    requires Sum(WeightsOf(bs)) == p.allWeight && Sum(ValidatorWeights(bs)) == p.valWeight
    ensures Sum(Raws(Shares(p, bs))) <= Offered(p) <= Sum(Raws(Shares(p, bs))) + Times(2.0 / UNITS, |bs| as real)
  {
    hide Times;
    hide Ratio;
    hide Portion;
    var xs, ys, raws := ExactAll(p, bs), ExactVal(p, bs), Raws(Shares(p, bs));
    SumScaled(WeightsOf(bs), Ratio(p.toAll, p.allWeight));
    SumScaled(ValidatorWeights(bs), Ratio(p.toVals, p.valWeight));
    Cancel(p.toAll, p.allWeight);
    Cancel(p.toVals, p.valWeight);
    var zs := seq(|bs|, i requires 0 <= i < |bs| => xs[i] + ys[i]);
    SumAdds(xs, ys, zs);
    forall i | 0 <= i < |bs| ensures raws[i] <= zs[i] <= raws[i] + 2.0 / UNITS { RawShareBounds(p, bs, i); }
    SumAtMost(raws, zs, 2.0 / UNITS);
  }

  lemma ZeroTimes(c: real) ensures Times(c, 0.0) == 0.0 {}

  lemma Cancel(a: real, c: real)
    ensures Times(Ratio(a, c), c) == if c == 0.0 then 0.0 else a
  {
  }

  // ----- minting

  /** The two parts of an issuance. */
  function Split(issue: real, valRate: int, allWeight: real, valWeight: real): Pot {
    var toVals := (issue * (valRate as real / 100.0)).Floor as real;
    Pot(issue - toVals, allWeight, toVals, valWeight)
  }

  /** The weights add up to their totals and none is negative. */
  predicate WeightsAddUp(bs: seq<Beneficiary>, allWeight: real, valWeight: real) {
    && (bs != [] ==> Sum(WeightsOf(bs)) == allWeight && Sum(ValidatorWeights(bs)) == valWeight)
    && (forall b <- bs :: b.weight >= 0.0)
  }

  /** ... and the signing rates are shares. */
  predicate Weighed(bs: seq<Beneficiary>, allWeight: real, valWeight: real) {
    WeightsAddUp(bs, allWeight, valWeight) && forall b <- bs :: 0.0 <= b.signRate <= 1.0
  }

  lemma SplitOk(issue: real, valRate: int, bs: seq<Beneficiary>, allWeight: real, valWeight: real)
    requires issue >= 0.0 && 0 <= valRate <= 100
    requires Weighed(bs, allWeight, valWeight) && Divides(bs, allWeight, valWeight)
    ensures PotOk(Split(issue, valRate, allWeight, valWeight), bs)
    ensures Split(issue, valRate, allWeight, valWeight).toAll + Split(issue, valRate, allWeight, valWeight).toVals
          == issue
  {
    if bs != [] {
      forall i | 0 <= i < |bs| ensures WeightsOf(bs)[i] >= 0.0 && ValidatorWeights(bs)[i] >= 0.0 { assert bs[i] in bs; }
      SumNonNegative(WeightsOf(bs));
      SumNonNegative(ValidatorWeights(bs));
    }
    var r := valRate as real / 100.0;
    assert 0.0 <= r <= 1.0;
    ScaledDown(issue, r);
  }

  lemma AmountsStep(sh: seq<Share>, i: nat, carry: real)
    requires i < |sh|
    ensures Amounts(sh[i..], carry) == [ToUint256(Due(sh[i], carry))] + Amounts(sh[i + 1..], Left(sh[i], carry))
  {
    assert sh[i..][0] == sh[i] && sh[i..][1..] == sh[i + 1..];
  }

  method PayOne(pot: Pot, b: Beneficiary, remainder: real) returns (amt: nat, left: real)
    requires pot.allWeight != 0.0 && (b.isValidator ==> pot.valWeight != 0.0)
    ensures var s := Share(RawShare(pot, b), b.signRate);
      amt == ToUint256(Due(s, remainder)) && left == Left(s, remainder)
  {
    hide Portion;
    var rwd := Portion(pot.toAll, b.weight, pot.allWeight);
    if b.isValidator { rwd := rwd + Portion(pot.toVals, b.weight, pot.valWeight); }
    assert rwd == RawShare(pot, b);
    rwd := (rwd + remainder) * b.signRate;
    assert rwd == Due(Share(RawShare(pot, b), b.signRate), remainder);
    amt := ToUint256(rwd);
    left := rwd - rwd.Floor as real;
  }

  method PayAll(pot: Pot, bs: seq<Beneficiary>) returns (rewards: seq<nat>, sumMinted: nat)
    requires Divides(bs, pot.allWeight, pot.valWeight)
    ensures rewards == Amounts(Shares(pot, bs), 0.0)
    ensures sumMinted == Count(rewards) % TWO256
  {
    hide Due;
    hide Left;
    hide RawShare;
    hide ToUint256;
    ghost var sh := Shares(pot, bs);
    rewards, sumMinted := [], 0;
    var remainder := 0.0;
    for i := 0 to |bs|
      invariant |rewards| == i && rewards + Amounts(sh[i..], remainder) == Amounts(sh, 0.0)
      invariant sumMinted == Count(rewards) % TWO256
    {
      assert bs[i] in bs;
      var amt, left := PayOne(pot, bs[i], remainder);
      AmountsStep(sh, i, remainder);
      CountAppend(rewards, amt);
      assert rewards + ([amt] + Amounts(sh[i + 1..], left)) == (rewards + [amt]) + Amounts(sh[i + 1..], left);
      sumMinted := Add256(sumMinted, amt);
      rewards := rewards + [amt];
      remainder := left;
    }
    assert sh[|bs|..] == [];
  }

  /** Where the minting of a cycle ends in an error or a panic: there are no weights, the issuance is
      negative, or a share is divided by zero. */
  predicate RewardsFail(weightError: bool, bs: seq<Beneficiary>, issue: real, allWeight: real, valWeight: real) {
    weightError || issue < 0.0 || !Divides(bs, allWeight, valWeight)
  }

  /** The payments of one inflation cycle and their sum. */
  method ComputeRewards(weightError: bool, bs: seq<Beneficiary>, issue: real, valRate: int, allWeight: real,
                        valWeight: real)
    returns (r: Option<(seq<nat>, nat)>)
    ensures r.None? <==> RewardsFail(weightError, bs, issue, allWeight, valWeight)
    ensures r.Some? ==>
      && r.value.0 == Amounts(Shares(Split(issue, valRate, allWeight, valWeight), bs), 0.0)
      && r.value.1 == Count(r.value.0) % TWO256
  {
    if weightError || issue < 0.0 { return None; }
    if bs != [] && allWeight == 0.0 { return None; }
    for i := 0 to |bs|
      invariant forall j :: 0 <= j < i ==> bs[j].isValidator ==> valWeight != 0.0
    {
      if bs[i].isValidator && valWeight == 0.0 { return None; }
    }
    var rewards, sumMinted := PayAll(Split(issue, valRate, allWeight, valWeight), bs);
    r := Some((rewards, sumMinted));
  }

  lemma SharesAreFair(p: Pot, bs: seq<Beneficiary>)
    requires PotOk(p, bs) && forall b <- bs :: 0.0 <= b.signRate <= 1.0
    ensures Fair(Shares(p, bs))
  {
    forall s <- Shares(p, bs) ensures s.raw >= 0.0 && 0.0 <= s.rate <= 1.0 {
      var i :| 0 <= i < |bs| && Shares(p, bs)[i] == s;
      assert bs[i] in bs;
      PortionBounds(p.toAll, bs[i].weight, p.allWeight);
      if bs[i].isValidator { PortionBounds(p.toVals, bs[i].weight, p.valWeight); }
    }
  }

  /** The rewards of a cycle never exceed its issuance; when every beneficiary signed every block and
      validators take part they fall short of it by less than one unit and the truncations. */
  lemma {:induction false} RewardsWithinIssue(bs: seq<Beneficiary>, issue: real, valRate: int, allWeight: real,
          valWeight: real)
    requires issue >= 0.0 && 0 <= valRate <= 100
    requires Weighed(bs, allWeight, valWeight) && Divides(bs, allWeight, valWeight)
    ensures var sh := Shares(Split(issue, valRate, allWeight, valWeight), bs);
      var total := Count(Payout(sh, 0.0)) as real;
      && (issue < TWO256 as real ==> Amounts(sh, 0.0) == Payout(sh, 0.0))
      && 0.0 <= total <= issue
      && (bs != [] && valWeight != 0.0 && (forall b <- bs :: b.signRate == 1.0) ==>
            issue < total + 1.0 + Times(2.0 / UNITS, |bs| as real))
  {
    var p := Split(issue, valRate, allWeight, valWeight);
    var sh := Shares(p, bs);
    SplitOk(issue, valRate, bs, allWeight, valWeight);
    SharesAreFair(p, bs);
    PayoutWithinShares(sh, 0.0);
    forall i | 0 <= i < |sh| ensures Payout(sh, 0.0)[i] >= 0 { PayoutIsNonNegative(sh, 0.0, i); }
    NonNegativeCount(Payout(sh, 0.0));
    if bs == [] {
      assert sh == [];
    } else {
      SharesFillThePot(p, bs);
      if forall b <- bs :: b.signRate == 1.0 {
        assert AllSigned(sh) by {
          forall s <- sh ensures s.raw >= 0.0 && s.rate == 1.0 {
            var i :| 0 <= i < |bs| && sh[i] == s;
            assert bs[i] in bs;
          }
        }
        FullPayoutIsFloor(sh, 0.0);
      }
      if issue < TWO256 as real { FairAmountsAreExact(sh, 0.0); }
    }
  }

  lemma {:induction false} SumsEqualIff(xs: seq<real>, ys: seq<real>)
    requires |xs| == |ys| && forall i :: 0 <= i < |xs| ==> xs[i] <= ys[i]
    ensures Sum(xs) <= Sum(ys) && (Sum(xs) == Sum(ys) <==> xs == ys)
  {
    if xs != [] {
      SumsEqualIff(xs[1..], ys[1..]);
      assert xs == [xs[0]] + xs[1..] && ys == [ys[0]] + ys[1..];
    }
  }

  /** The shares without any truncation. */
  function ExactShares(p: Pot, bs: seq<Beneficiary>): seq<real> {
    seq(|bs|, i requires 0 <= i < |bs| => ExactAll(p, bs)[i] + ExactVal(p, bs)[i])
  }

  lemma SharesExactIff(p: Pot, bs: seq<Beneficiary>)
    requires PotOk(p, bs) && bs != []
    requires Sum(WeightsOf(bs)) == p.allWeight && Sum(ValidatorWeights(bs)) == p.valWeight
    ensures Sum(Raws(Shares(p, bs))) <= Offered(p)
    ensures Sum(Raws(Shares(p, bs))) == Offered(p) <==> Raws(Shares(p, bs)) == ExactShares(p, bs)
  {
    hide Times;
    hide Ratio;
    hide Portion;
    var xs, ys, zs := ExactAll(p, bs), ExactVal(p, bs), ExactShares(p, bs);
    SumScaled(WeightsOf(bs), Ratio(p.toAll, p.allWeight));
    SumScaled(ValidatorWeights(bs), Ratio(p.toVals, p.valWeight));
    Cancel(p.toAll, p.allWeight);
    Cancel(p.toVals, p.valWeight);
    SumAdds(xs, ys, zs);
    forall i | 0 <= i < |bs| ensures Raws(Shares(p, bs))[i] <= zs[i] { RawShareBounds(p, bs, i); }
    SumsEqualIff(Raws(Shares(p, bs)), zs);
  }

  /** Where the issuance goes: what is not minted was cut off by the divisions, forgone by absent
      signers, or is the last fraction. The minted sum equals the issuance if and only if that is a
      whole number, no division had to be cut off, validators take part or get no part of their own,
      and nobody who missed a block had anything to get. */
  lemma IssueAccountedFor(bs: seq<Beneficiary>, issue: real, valRate: int, allWeight: real, valWeight: real)
    requires issue >= 0.0 && 0 <= valRate <= 100
    requires Weighed(bs, allWeight, valWeight) && Divides(bs, allWeight, valWeight)
    ensures var p := Split(issue, valRate, allWeight, valWeight);
      var sh := Shares(p, bs);
      var total, cut := Count(Payout(sh, 0.0)) as real, issue - Sum(Raws(sh));
      && issue - total == cut + Forgone(sh, 0.0) + LastCarry(sh, 0.0)
      && cut >= 0.0 && Forgone(sh, 0.0) >= 0.0 && 0.0 <= LastCarry(sh, 0.0) < 1.0
      && (bs == [] ==> total == 0.0)
      && (bs != [] ==>
            (total == issue <==>
               && issue == issue.Floor as real && Raws(sh) == ExactShares(p, bs)
               && (valWeight != 0.0 || p.toVals == 0.0) && NothingForgone(sh, 0.0)))
  {
    var p := Split(issue, valRate, allWeight, valWeight);
    var sh := Shares(p, bs);
    SplitOk(issue, valRate, bs, allWeight, valWeight);
    SharesAreFair(p, bs);
    SharesAccountedFor(sh, 0.0);
    ForgoneIsZeroIff(sh, 0.0);
    if bs == [] {
      assert sh == [] && Payout(sh, 0.0) == [];
    } else {
      SharesExactIff(p, bs);
    }
    var total := Count(Payout(sh, 0.0));
    hide *;
    NothingLostIff(issue, total, issue - Sum(Raws(sh)), Forgone(sh, 0.0), LastCarry(sh, 0.0));
  }

  lemma NothingLostIff(issue: real, total: int, cut: real, forgone: real, last: real)
    requires issue - total as real == cut + forgone + last && cut >= 0.0 && forgone >= 0.0 && 0.0 <= last < 1.0
    ensures total as real == issue <==> issue == issue.Floor as real && cut == 0.0 && forgone == 0.0
  {
    var n := issue.Floor;
    FloorOfWhole(total);
    if issue == n as real && cut == 0.0 && forgone == 0.0 {
      assert (n - total) as real == last;
      assert n - total == 0;
    }
  }

  lemma FloorOfWhole(n: int) ensures (n as real).Floor == n {}

  lemma {:induction false} NonNegativeCount(xs: seq<int>)
    requires forall i :: 0 <= i < |xs| ==> xs[i] >= 0
    ensures Count(xs) >= 0
  {
    if xs != [] { NonNegativeCount(xs[1..]); }
  }

  // ----- the supply cap

  /** What the factor of the issuance, 1 - (1 + permil / 1000) ^ -weight, is known to be: at most one,
      and of the sign of the weight permil. */
  ghost predicate Inflates(inflate: (int, real) -> real) {
    && (forall permil, weight :: inflate(permil, weight) <= 1.0)
    && (forall permil, weight :: permil >= 0 && weight >= 0.0 ==> inflate(permil, weight) >= 0.0)
    && (forall permil, weight :: -1000 < permil < 0 && weight > 0.0 ==> inflate(permil, weight) < 0.0)
  }

  /** The issuance: the distance to the cap times a factor computed from the total weight. */
  function Issuance(cap: nat, supply: nat, factor: real): real { Times(Sub256(cap, supply) as real, factor) }

  lemma DistanceToCap(cap: nat, supply: nat)
    requires cap < TWO256 && supply < TWO256
    ensures Sub256(cap, supply) == cap - supply <==> supply <= cap
  {
  }

  lemma IssuanceBounds(cap: nat, supply: nat, factor: real)
    requires supply <= cap < TWO256 && factor <= 1.0
    ensures Issuance(cap, supply, factor) <= (cap - supply) as real
  {
    hide Times;
    hide Sub256;
    DistanceToCap(cap, supply);
    TimesAtMost((cap - supply) as real, factor);
  }

  /** The issuance is negative if and only if the factor is, below the cap. */
  lemma IssuanceNegativeIff(cap: nat, supply: nat, factor: real)
    requires supply < cap < TWO256
    ensures Issuance(cap, supply, factor) < 0.0 <==> factor < 0.0
  {
    DistanceToCap(cap, supply);
    var d := (cap - supply) as real;
    assert d > 0.0 && Issuance(cap, supply, factor) == d * factor;
    if factor < 0.0 { assert d * -factor > 0.0; } else { assert d * factor >= 0.0; }
  }

  /** At the cap nothing is issued. */
  lemma IssuedAtCap(cap: nat, factor: real)
    requires cap < TWO256
    ensures Issuance(cap, cap, factor) == 0.0
  {
    DistanceToCap(cap, cap);
  }

  lemma TimesAtMost(x: real, factor: real)
    requires x >= 0.0 && factor <= 1.0
    ensures Times(x, factor) <= x
  {
    assert x * factor <= x * 1.0;
  }

  /** As long as the cap is not below the supply, minting keeps the supply within the cap. */
  lemma MintKeepsCap(bs: seq<Beneficiary>, cap: nat, supply: nat, factor: real, valRate: int, allWeight: real,
          valWeight: real)
    requires supply <= cap < TWO256 && factor <= 1.0 && 0 <= valRate <= 100 && Weighed(bs, allWeight, valWeight)
    requires !RewardsFail(false, bs, Issuance(cap, supply, factor), allWeight, valWeight)
    ensures var sh := Shares(Split(Issuance(cap, supply, factor), valRate, allWeight, valWeight), bs);
      Amounts(sh, 0.0) == Payout(sh, 0.0) && 0 <= Count(Amounts(sh, 0.0)) <= cap - supply
  {
    hide Issuance;
    IssuanceBounds(cap, supply, factor);
    RewardsWithinIssue(bs, Issuance(cap, supply, factor), valRate, allWeight, valWeight);
  }

  /** Once the cap is lowered below the supply the subtraction wraps: one staker with half the
      weight factor is issued half of 2^256. */
  lemma LoweredCapWraps()
    ensures Issuance(0, 2, 0.5) == (TWO255 - 1) as real
  {
  }
}
