/** The signing rates of an inflation cycle. A validator's rate is one minus the share of the cycle's
    blocks that it missed; the counters behind it grow by at most one in each block and start again
    with each cycle. */
module SignRates {
  import opened Base
  import opened Chain
  import opened Stake
  import opened StakeEffects
  import opened StakeInvariants
  import Governance
  import Mint
  import VotingWeights

  /** The rate is a share between nothing and everything if and only if no more blocks were missed than
      the cycle has, as long as one block of the cycle is not lost in rounding. */
  lemma SignRateIsShareIff(round: real -> real, unit: real, missed: int, cycle: int)
    requires Mint.Rounds(round) && unit > 0.0 && round(1.0 + unit) > 1.0
    requires missed >= 0 && cycle > 0 && unit * cycle as real <= 1.0
    ensures 0.0 <= Mint.SignRate(round, missed, cycle) <= 1.0 <==> missed <= cycle
  {
    if missed <= cycle {
      RateWithin(round, missed, cycle);
    } else {
      MoreThanAll(missed, cycle, unit);
      assert round(1.0 + unit) <= round(missed as real / cycle as real);
    }
  }

  lemma MoreThanAll(missed: int, cycle: int, unit: real)
    requires missed > cycle > 0 && unit * cycle as real <= 1.0
    ensures 1.0 + unit <= missed as real / cycle as real
  {
    assert missed as real >= (cycle + 1) as real == cycle as real + 1.0;
    OneMore(missed as real, cycle as real, unit);
  }

  lemma OneMore(a: real, n: real, unit: real)
    requires n > 0.0 && unit * n <= 1.0 && a >= n + 1.0
    ensures 1.0 + unit <= a / n
  {
    var x := a / n;
    assert x * n == a;
    assert (1.0 + unit) * n == n + unit * n;
    if x < 1.0 + unit { Below(x, 1.0 + unit, n); }
  }

  lemma Below(x: real, y: real, n: real)
    requires n > 0.0 && x < y
    ensures x * n < y * n
  {
  }

  lemma ShareWithin(missed: int, cycle: int)
    requires 0 <= missed <= cycle && cycle > 0
    ensures 0.0 <= missed as real / cycle as real <= 1.0
  {
  }

  lemma RateWithin(round: real -> real, missed: int, cycle: int)
    requires Mint.Rounds(round) && 0 <= missed <= cycle && cycle > 0
    ensures 0.0 <= Mint.SignRate(round, missed, cycle) <= 1.0
  {
    var x := missed as real / cycle as real;
    ShareWithin(missed, cycle);
    assert round(0.0) <= round(x) <= round(1.0);
  }

  // ----- the counters

  /** The counters after block `h` cannot pass the length of the cycle before the cycle ends. */
  ghost predicate CountersOk(s: Stakes, cycle: int, h: int)
    requires cycle > 0
  {
    forall a :: 0 <= Missed(s, a) <= h % cycle + 1
  }

  lemma SameCounters(s: Stakes, s': Stakes, cycle: int, h: int)
    requires cycle > 0 && s'.missed == s.missed && CountersOk(s, cycle, h)
    ensures CountersOk(s', cycle, h)
  {
    forall a ensures 0 <= Missed(s', a) <= h % cycle + 1 { assert 0 <= Missed(s, a) <= h % cycle + 1; }
  }

  /** One vote per validator, as a commit holds them. */
  predicate OneVoteEach(vs: seq<Vote>) { forall i, j :: 0 <= i < j < |vs| ==> vs[i].validator != vs[j].validator }

  lemma {:induction false} CountersGrowByOne(s: Stakes, vs: seq<Vote>, allowedDown: int, refundHeight: int, a: Address)
    requires Consistent(s) && OneVoteEach(vs)
    ensures var r := CountVotes(s, vs, allowedDown, refundHeight);
      && r.Success? && Missed(s, a) <= Missed(r.value, a) <= Missed(s, a) + 1
      && ((forall v <- vs :: v.validator != a) ==> Missed(r.value, a) == Missed(s, a))
    decreases |vs|
  {
    if vs != [] {
      VoteEffect(s, vs[0], allowedDown, refundHeight);
      CountVoteKeepsBooks(s, vs[0], allowedDown, refundHeight);
      hide Consistent;
      hide CountVote;
      hide Released;
      var s' := CountVote(s, vs[0], allowedDown, refundHeight).value;
      assert OneVoteEach(vs[1..]);
      CountersGrowByOne(s', vs[1..], allowedDown, refundHeight, a);
      if vs[0].validator == a {
        forall v <- vs[1..] ensures v.validator != a {
          var i :| 0 <= i < |vs[1..]| && vs[1..][i] == v;
          assert vs[0].validator != vs[i + 1].validator;
        }
      } else {
        assert vs[0] in vs;
      }
    }
  }

  /** The votes of a block: nobody votes twice, and there are some at the end of a cycle. The first block
      carries none. */
  predicate VotesOk(c: State, h: int, votes: seq<Vote>)
    requires |c.gov.live| == Governance.FIELDS && Param(c, INFLATION_CYCLE_BLOCKS) > 0
  {
    OneVoteEach(votes) && (MintDue(c, h) && h > 1 ==> votes != [])
  }

  /** A block keeps the counters within the running cycle, and clears them at its end. */
  lemma BlockKeepsCounters(c: State, h: int, votes: seq<Vote>)
    requires |c.gov.live| == Governance.FIELDS && Param(c, INFLATION_CYCLE_BLOCKS) > 0 && Consistent(c.stakes)
    requires h > 0 && VotesOk(c, h, votes) && CountersOk(c.stakes, Param(c, INFLATION_CYCLE_BLOCKS), h - 1)
    ensures CountBlockVotes(c, h, votes).Success?
    ensures CountersOk(CountBlockVotes(c, h, votes).value.stakes, Param(c, INFLATION_CYCLE_BLOCKS), h)
  {
    var cycle := Param(c, INFLATION_CYCLE_BLOCKS);
    var down, height := cycle - Param(c, MIN_SIGNED_BLOCKS), h + Param(c, LAZY_UNBONDING_BLOCKS);
    CountersGrowByOne(c.stakes, votes, down, height, 0);
    hide Consistent;
    var r := CountVotes(c.stakes, votes, down, height).value;
    var s := CountBlockVotes(c, h, votes).value.stakes;
    NextInCycle(h, cycle);
    forall a ensures 0 <= Missed(s, a) <= h % cycle + 1 {
      CountersGrowByOne(c.stakes, votes, down, height, a);
      assert 0 <= Missed(c.stakes, a) <= (h - 1) % cycle + 1;
    }
  }

  // ----- the rates of a cycle

  ghost function StakersAt(env: Env, c: State): seq<VotingWeights.Staker> {
    VotingWeights.Stakers(c.stakes, env.addrOf, c.validators)
  }

  lemma PayeeAt(env: Env, c: State, h: int, j: nat)
    requires Weighable(c) && j < |StakersAt(env, c)|
    ensures var bs, x := CycleWeights(env, c, h).bs, StakersAt(env, c)[j];
      && |bs| == |StakersAt(env, c)| && bs[j].addr == x.from && bs[j].isValidator == (x.from == x.to)
      && bs[j].signRate == Mint.SignRate(env.round, Missed(c.stakes, x.to), Param(c, INFLATION_CYCLE_BLOCKS))
  {
    hide Mint.SignRate;
    hide Mint.Weights;
    hide VotingWeights.Scaled;
  }

  /** At the end of a cycle nobody has missed more blocks than it has, so every rate is a share. */
  lemma RatesAreShares(env: Env, c: State, h: int)
    requires Weighable(c) && MintDue(c, h) && Mint.Rounds(env.round)
    requires CountersOk(c.stakes, Param(c, INFLATION_CYCLE_BLOCKS), h - 1)
    ensures forall b <- CycleWeights(env, c, h).bs :: 0.0 <= b.signRate <= 1.0
  {
    var cycle, bs := Param(c, INFLATION_CYCLE_BLOCKS), CycleWeights(env, c, h).bs;
    NextInCycle(h, cycle);
    WeighsEveryStaker(env, c, h);
    hide CycleWeights;
    hide StakersAt;
    hide Mint.SignRate;
    hide Mint.Rounds;
    forall b <- bs ensures 0.0 <= b.signRate <= 1.0 {
      var j :| 0 <= j < |bs| && bs[j] == b;
      PayeeAt(env, c, h, j);
      var to := StakersAt(env, c)[j].to;
      assert 0 <= Missed(c.stakes, to) <= (h - 1) % cycle + 1;
      RateWithin(env.round, Missed(c.stakes, to), cycle);
    }
  }

  lemma WeighsEveryStaker(env: Env, c: State, h: int)
    requires Weighable(c)
    ensures |CycleWeights(env, c, h).bs| == |StakersAt(env, c)|
  {
    hide Mint.Weights;
    hide VotingWeights.Scaled;
  }

  /** In any state, the rates are shares if and only if no validator with stakers missed more blocks
      than the cycle in force has. */
  lemma RatesAreSharesIff(env: Env, c: State, h: int, unit: real)
    requires Weighable(c) && Mint.Rounds(env.round) && forall a :: Missed(c.stakes, a) >= 0
    requires unit > 0.0 && env.round(1.0 + unit) > 1.0 && unit * Param(c, INFLATION_CYCLE_BLOCKS) as real <= 1.0
    ensures (forall b <- CycleWeights(env, c, h).bs :: InShare(b)) <==> forall x <- StakersAt(env, c) :: Kept(c, x)
  {
    hide *;
    WeighsEveryStaker(env, c, h);
    var xs, bs := StakersAt(env, c), CycleWeights(env, c, h).bs;
    forall j | 0 <= j < |xs| ensures InShare(bs[j]) <==> Kept(c, xs[j]) { RateOfStaker(env, c, h, unit, j); }
    EachIff(c, xs, bs);
  }

  predicate InShare(b: Mint.Beneficiary) { 0.0 <= b.signRate <= 1.0 }

  /** The staker's validator missed no more blocks than the cycle has. */
  predicate Kept(c: State, x: VotingWeights.Staker)
    requires Weighable(c)
  {
    Missed(c.stakes, x.to) <= Param(c, INFLATION_CYCLE_BLOCKS)
  }

  lemma RateOfStaker(env: Env, c: State, h: int, unit: real, j: nat)
    requires Weighable(c) && Mint.Rounds(env.round) && forall a :: Missed(c.stakes, a) >= 0
    requires unit > 0.0 && env.round(1.0 + unit) > 1.0 && unit * Param(c, INFLATION_CYCLE_BLOCKS) as real <= 1.0
    requires j < |StakersAt(env, c)|
    ensures |CycleWeights(env, c, h).bs| == |StakersAt(env, c)|
    ensures InShare(CycleWeights(env, c, h).bs[j]) <==> Kept(c, StakersAt(env, c)[j])
  {
    hide CycleWeights;
    hide StakersAt;
    hide Mint.SignRate;
    hide Mint.Rounds;
    PayeeAt(env, c, h, j);
    SignRateIsShareIff(env.round, unit, Missed(c.stakes, StakersAt(env, c)[j].to), Param(c, INFLATION_CYCLE_BLOCKS));
  }

  lemma EachIff(c: State, xs: seq<VotingWeights.Staker>, bs: seq<Mint.Beneficiary>)
    requires Weighable(c) && |xs| == |bs| && forall j :: 0 <= j < |xs| ==> (InShare(bs[j]) <==> Kept(c, xs[j]))
    ensures (forall b <- bs :: InShare(b)) <==> forall x <- xs :: Kept(c, x)
  {
    if forall b <- bs :: InShare(b) {
      forall x <- xs ensures Kept(c, x) {
        var j :| 0 <= j < |xs| && xs[j] == x;
        assert bs[j] in bs;
      }
    }
    if forall x <- xs :: Kept(c, x) {
      forall b <- bs ensures InShare(b) {
        var j :| 0 <= j < |bs| && bs[j] == b;
        assert xs[j] in xs;
      }
    }
  }

  lemma NextInCycle(h: int, cycle: int)
    requires h > 0 && cycle > 0
    ensures h % cycle == if (h - 1) % cycle + 1 == cycle then 0 else (h - 1) % cycle + 1
  {
    var q, r := (h - 1) / cycle, (h - 1) % cycle;
    assert h == q * cycle + (r + 1);
    if r + 1 == cycle {
      assert h == (q + 1) * cycle;
      Multiple(q + 1, cycle, 0);
    } else {
      Multiple(q, cycle, r + 1);
    }
  }

  lemma Multiple(q: int, cycle: int, r: int)
    requires 0 <= r < cycle
    ensures (q * cycle + r) % cycle == r
  {
    var n := q * cycle + r;
    assert n == (n / cycle) * cycle + n % cycle;
    var d := n / cycle - q;
    assert d * cycle == r - n % cycle;
    AtLeastOneCycle(d, cycle);
  }

  lemma AtLeastOneCycle(d: int, cycle: int)
    requires cycle > 0
    ensures (d >= 1 ==> d * cycle >= cycle) && (d <= -1 ==> d * cycle <= -cycle)
  {
  }
}
