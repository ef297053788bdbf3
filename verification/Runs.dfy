/** Theorems about every run of the chain from its genesis. */
module Runs {
  import opened Base
  import opened Accounts
  import opened Stake
  import opened StakeInvariants
  import opened StakeOwners
  import opened Refunds
  import opened Chain
  import opened ChainInvariant
  import opened Conservation
  import opened SignRates
  import opened StakeEffects
  import Supply
  import Limiter
  import ValidatorSet
  import Governance
  import Mint
  import VotingWeights

  // ----- one block

  /** What is known of the computations outside the model. */
  ghost predicate EnvOk(env: Env) {
    Governance.Whole(env.parse) && Mint.Rounds(env.round) && Mint.Inflates(env.inflate)
  }

  /** The state in which a block starts. */
  ghost predicate Starts(env: Env, c: State, h: int) {
    && Safe(env, c, h) && c.feeSum == 0 && CountersOk(c.stakes, Param(c, INFLATION_CYCLE_BLOCKS), h - 1)
    && ValidatorsListed(env, c) && EnvOk(env)
  }

  lemma BeginKeepsCounters(env: Env, c: State, h: int, b: Block)
    requires Starts(env, c, h) && VotesOk(c, h, b.votes)
    ensures CountersOk(BeginBlock(env, c, h, b).value.stakes, Param(c, INFLATION_CYCLE_BLOCKS), h)
  {
    hide Consistent;
    hide SlashEach;
    hide CountBlockVotes;
    hide CountersOk;
    hide OneVoteEach;
    hide Governance.During;
    hide Governance.Electorate;
    hide MoneyOk;
    hide Limiter.Bounded;
    var c0 := FreshBlock(env, c, h, b);
    SlashEachIsSafe(env, c0, h, b.byzantine);
    var c1 := SlashEach(c0, b.byzantine).value;
    SameCounters(c.stakes, c1.stakes, Param(c, INFLATION_CYCLE_BLOCKS), h - 1);
    BlockKeepsCounters(c1, h, b.votes);
  }

  /** The state in which the transactions are prepared. */
  ghost function Begun(env: Env, c: State, h: int, b: Block): (r: State)
    requires Starts(env, c, h)
    ensures Safe(env, r, h) && Sized(r) && r.feeSum == 0
    ensures VotesOk(c, h, b.votes) ==> CountersOk(r.stakes, Param(c, INFLATION_CYCLE_BLOCKS), h)
  {
    if VotesOk(c, h, b.votes) then BeginKeepsCounters(env, c, h, b); BeginBlock(env, c, h, b).value
    else BeginBlock(env, c, h, b).value
  }

  /** The state that EndBlock of the controllers sees. */
  ghost function Executed(env: Env, c: State, h: int, b: Block): (r: State)
    requires Starts(env, c, h) && TxsFit(b.txs)
    ensures Safe(env, r, h) && Sized(r) && r.gov.live == c.gov.live
    ensures r.supply == c.supply && c.accts.Keys <= r.accts.Keys
    ensures r.validators == c.validators && Persists(c.stakes.frozen, r.stakes.frozen)
    ensures VotesOk(c, h, b.votes) ==> CountersOk(r.stakes, Param(c, INFLATION_CYCLE_BLOCKS), h)
  {
    var begin := Begun(env, c, h, b);
    var r := DeliverAll(env, begin, begin, h, b.txs);
    PersistsTransitive(c.stakes.frozen, begin.stakes.frozen, r.stakes.frozen);
    if VotesOk(c, h, b.votes) then
      SameCounters(begin.stakes, r.stakes, Param(c, INFLATION_CYCLE_BLOCKS), h);
      r
    else r
  }

  /** Where the mint routine has an answer, it weighs nobody with less than nothing. */
  ghost predicate WeightsOk(env: Env, c: State, h: int)
    requires Weighable(c) && Param(c, MAX_TOTAL_SUPPLY) >= 0
  {
    MintDue(c, h) && !MintFails(env, c, h) ==> forall b <- CycleWeights(env, c, h).bs :: b.weight >= 0.0
  }

  /** The inputs of a block: some order of equally voted options and the votes of a commit; and the
      weights of the cycle that it ends. */
  ghost predicate BlockOk(env: Env, c: State, h: int, b: Block)
    requires Starts(env, c, h)
  {
    && TxsFit(b.txs) && Governance.Settlement(Executed(env, c, h, b).gov, h, b.settled)
    && VotesOk(c, h, b.votes) && WeightsOk(env, c, h)
  }

  /** ... and the mint routine, where it is asked, has an answer. */
  ghost predicate Answered(env: Env, c: State, h: int, b: Block) {
    Starts(env, c, h) && BlockOk(env, c, h, b) && !MintFails(env, c, h)
  }

  lemma CycleWeightsAddUp(env: Env, c: State, h: int)
    requires Weighable(c)
    ensures var w := CycleWeights(env, c, h);
      && Mint.Sum(Mint.ValidatorWeights(w.bs)) == w.valWeight
      && (w.bs != [] ==> Mint.Sum(Mint.WeightsOf(w.bs)) == w.allWeight)
  {
    hide Mint.WeighAll;
    hide VotingWeights.Scaled;
    hide VotingWeights.Holders;
    Mint.WeightsMakeTotals(
      VotingWeights.Holders(c.stakes, StakersAt(env, c), Param(c, INFLATION_CYCLE_BLOCKS), ScaleAt(env, c, h)),
      VotingWeights.Scaled(ScaleAt(env, c, h), VotingWeights.AllChunks(c.stakes, env.addrOf, c.validators)),
      SupplyPower(c.supply) as real, env.round);
  }

  /** What the routine is asked is in order: the weights add up to their totals, and at the end of the
      cycle no counter has passed its length. */
  lemma AnswerIsReady(env: Env, c: State, h: int, e: State)
    requires Starts(env, c, h) && WeightsOk(env, c, h) && !MintFails(env, c, h) && MintDue(c, h)
    requires e.gov.live == c.gov.live && e.supply == c.supply
    ensures MintReady(e, CycleWeights(env, c, h), MintIssue(env, c, h))
  {
    hide CycleWeights;
    hide Mint.Divides;
    hide Mint.Issuance;
    hide Mint.Sum;
    CycleWeightsAddUp(env, c, h);
    RatesAreShares(env, c, h);
    Mint.IssuanceBounds(Param(c, MAX_TOTAL_SUPPLY), c.supply,
        env.inflate(Param(c, INFLATION_WEIGHT_PERMIL), CycleWeights(env, c, h).allWeight));
  }

  /** The state just before refunds: proposals settled, fees split, rewards minted. */
  ghost function BeforeRefunds(env: Env, c: State, h: int, b: Block, w: Mint.Weighing, issue: real): (r: State)
    requires Safe(env, c, h) && Governance.Settlement(c.gov, h, b.settled)
    requires MintDue(c, h) ==> MintReady(c, w, issue)
    ensures Core(env, r, h) && r.feeSum == 0 && c.supply <= r.supply
    ensures r.stakes == c.stakes && c.accts.Keys <= r.accts.Keys
    ensures r.gov == Governance.Ended(env.parse, c.gov, h, b.settled) && r.gov.live == c.gov.live
    ensures r.validators == c.validators
  {
    Governance.EndBlockKeeps(env.parse, c.gov, h, b.settled);
    var c1 := c.(gov := Governance.Ended(env.parse, c.gov, h, b.settled));
    assert Wealth(c1) == Wealth(c);
    assert Core(env, c1, h);
    SplitFeesIsSafe(env, c1, h, b.proposer);
    var c2 := SplitFees(c1, b.proposer).value;
    assert c2.stakes == c.stakes && c2.validators == c.validators;
    MintIsSafe(env, c2, h, w, issue);
    MintRewards(c2, h, w, issue)
  }

  /** The state in which the refunds of a block are made. */
  ghost function RefundState(env: Env, c: State, h: int, b: Block): (r: State)
    requires Answered(env, c, h, b)
    ensures Core(env, r, h) && r.feeSum == 0 && c.supply <= r.supply && c.accts.Keys <= r.accts.Keys
    ensures r.validators == c.validators && Persists(c.stakes.frozen, r.stakes.frozen)
    ensures r.gov == Governance.Ended(env.parse, Executed(env, c, h, b).gov, h, b.settled) && r.gov.live == c.gov.live
    ensures r.stakes == Executed(env, c, h, b).stakes
    ensures CountersOk(r.stakes, Param(c, INFLATION_CYCLE_BLOCKS), h)
  {
    var e := Executed(env, c, h, b);
    if MintDue(c, h) then
      AnswerIsReady(env, c, h, e);
      BeforeRefunds(env, e, h, b, CycleWeights(env, c, h), MintIssue(env, c, h))
    else BeforeRefunds(env, e, h, b, Mint.Weighing([], 0.0, 0.0), 0.0)
  }

  /** Refunds, the new validators, and Commit. */
  ghost function Finish(x: State, h: int): Result<State, Halt>
    requires |x.gov.live| == Governance.FIELDS && Param(x, MAX_VALIDATOR_CNT) >= 0
  {
    var r := SettleStakes(x, h);
    if r.Failure? then r else Success(r.value.(gov := Governance.Committed(x.gov), gasLeft := 0))
  }

  /** A block. EndBlock panics unless every transaction was counted and the mint routine, at the end of
      a cycle, had an answer. */
  ghost function RunBlock(env: Env, c: State, h: int, b: Block): Result<State, Halt>
    requires Starts(env, c, h) && BlockOk(env, c, h, b)
  {
    if TxsCnt(env, Begun(env, c, h, b), b.txs) != |b.txs| then Failure(CountMismatch)
    else if MintFails(env, c, h) then Failure(MintFailed)
    else Finish(RefundState(env, c, h, b), h)
  }

  /** The books of a state in which no fee is owed. */
  ghost predicate Balanced(c: State) {
    Money(c.accts) + PowerToAmount(Bonded(c.stakes) + FrozenPower(c.stakes)) + Supply.Cumulated(c.rewards) == c.supply
  }

  lemma FinishIsSafe(env: Env, x: State, h: int)
    requires Core(env, x, h) && x.feeSum == 0
    ensures Finish(x, h).Success?
    ensures var c' := Finish(x, h).value;
      && Balanced(c') && c'.supply == x.supply && c'.feeSum == 0 && DueAfter(c'.stakes, h)
      && c'.gov == Governance.Committed(x.gov) && c'.accts.Keys == x.accts.Keys && c'.stakes == AfterRefund(x.stakes, h)
      && (GoodParams(c'.gov.live) && c'.supply <= Param(c', MAX_TOTAL_SUPPLY) ==> Core(env, c', h + 1))
      && ValidatorsListed(env, c')
      && (forall a :: a in x.accts ==> c'.accts[a].balance == x.accts[a].balance + PowerToAmount(DueTo(x.stakes, h, a)))
  {
    SettleStakesIsSafe(env, x, h);
    hide SettleStakes;
    hide Consistent;
    var s := SettleStakes(x, h).value;
    assert Wealth(s) == s.supply;
    assert Wealth(Finish(x, h).value) == Wealth(s);
  }

  /** Every transaction can be prepared against the state after BeginBlock. */
  ghost predicate AllPrepared(env: Env, c: State, h: int, b: Block)
    requires Starts(env, c, h)
  {
    forall tx <- b.txs :: Prepared(env, Begun(env, c, h, b), tx)
  }

  /** A block halts the chain if and only if it holds a transaction that cannot be prepared, or ends a
      cycle and the mint routine fails. If it does not, balances, bonded and frozen stake and rewards
      sum up to the recorded supply, which has not fallen and is within the cap in force; and no
      frozen stake is overdue. */
  lemma BlockConserves(env: Env, c: State, h: int, b: Block)
    requires Starts(env, c, h) && BlockOk(env, c, h, b)
    ensures RunBlock(env, c, h, b).Success? <==> AllPrepared(env, c, h, b) && !MintFails(env, c, h)
    ensures RunBlock(env, c, h, b).Failure? ==>
      RunBlock(env, c, h, b).error == if AllPrepared(env, c, h, b) then MintFailed else CountMismatch
    ensures RunBlock(env, c, h, b).Success? ==>
      var c' := RunBlock(env, c, h, b).value;
      && Balanced(c') && c.supply <= c'.supply <= Param(c, MAX_TOTAL_SUPPLY)
      && c'.feeSum == 0 && DueAfter(c'.stakes, h) && c.accts.Keys <= c'.accts.Keys
      && (Adopts(c, c', h) ==> Starts(env, c', h + 1))
  {
    AllCountedIff(env, Begun(env, c, h, b), b.txs);
    if !MintFails(env, c, h) {
      SettledBlock(env, c, h, b);
    }
    hide MintFails;
    hide Starts;
    hide BlockOk;
    hide Finish;
    hide Begun;
    hide Prepared;
  }

  lemma SettledBlock(env: Env, c: State, h: int, b: Block)
    requires Answered(env, c, h, b)
    ensures Finish(RefundState(env, c, h, b), h).Success?
    ensures var c' := Finish(RefundState(env, c, h, b), h).value;
      && Balanced(c') && c.supply <= c'.supply <= Param(c, MAX_TOTAL_SUPPLY)
      && c'.feeSum == 0 && DueAfter(c'.stakes, h) && c.accts.Keys <= c'.accts.Keys
      && (Adopts(c, c', h) ==> Starts(env, c', h + 1))
  {
    hide MintFails;
    hide CountersOk;
    hide VotesOk;
    hide WeightsOk;
    hide ValidatorsListed;
    hide EnvOk;
    var x := RefundState(env, c, h, b);
    assert x.supply <= Param(x, MAX_TOTAL_SUPPLY) && GoodParams(x.gov.live);
    Governance.EndBlockKeeps(env.parse, Executed(env, c, h, b).gov, h, b.settled);
    hide Executed;
    hide RefundState;
    hide Finish;
    hide Core;
    hide Governance.During;
    FinishIsSafe(env, x, h);
    SameCounters(x.stakes, Finish(x, h).value.stakes, Param(c, INFLATION_CYCLE_BLOCKS), h);
  }

  ghost predicate Panics(env: Env, c: State, h: int, b: Block, halt: Halt) {
    Starts(env, c, h) && BlockOk(env, c, h, b) && RunBlock(env, c, h, b) == Failure(halt)
  }

  /** An unknown sender is enough. */
  lemma UnknownSenderHalts(env: Env, c: State, h: int, b: Block, tx: Tx)
    requires Starts(env, c, h) && BlockOk(env, c, h, b) && b.txs == [tx]
    requires tx.from !in Begun(env, c, h, b).accts
    ensures Panics(env, c, h, b, CountMismatch)
  {
    BlockConserves(env, c, h, b);
    hide RunBlock;
    assert tx in b.txs;
  }

  /** With a cycle of one block the first block does: it has no committed ledger to weigh. */
  lemma FirstCycleHalts(env: Env, c: State, b: Block)
    requires Starts(env, c, 1) && BlockOk(env, c, 1, b) && Param(c, INFLATION_CYCLE_BLOCKS) == 1
    requires AllPrepared(env, c, 1, b)
    ensures Panics(env, c, 1, b, MintFailed)
  {
    BlockConserves(env, c, 1, b);
    hide RunBlock;
  }

  /** So does a cycle at whose end the stakers of the validators weigh nothing. */
  lemma WeightlessCycleHalts(env: Env, c: State, h: int, b: Block)
    requires Starts(env, c, h) && BlockOk(env, c, h, b) && AllPrepared(env, c, h, b)
    requires MintDue(c, h) && StakersAt(env, c) != [] && CycleWeights(env, c, h).allWeight == 0.0
    ensures Panics(env, c, h, b, MintFailed)
  {
    BlockConserves(env, c, h, b);
    WeighsEveryStaker(env, c, h);
    hide RunBlock;
    hide CycleWeights;
  }

  /** And a negative inflation weight, as long as the supply is below its cap and somebody weighs
      something. */
  lemma NegativeInflationHalts(env: Env, c: State, h: int, b: Block)
    requires Starts(env, c, h) && BlockOk(env, c, h, b) && AllPrepared(env, c, h, b)
    requires MintDue(c, h) && c.supply < Param(c, MAX_TOTAL_SUPPLY)
    requires -1000 < Param(c, INFLATION_WEIGHT_PERMIL) < 0 && CycleWeights(env, c, h).allWeight > 0.0
    ensures Panics(env, c, h, b, MintFailed)
  {
    BlockConserves(env, c, h, b);
    hide RunBlock;
    hide CycleWeights;
    Mint.IssuanceNegativeIff(Param(c, MAX_TOTAL_SUPPLY), c.supply,
        env.inflate(Param(c, INFLATION_WEIGHT_PERMIL), CycleWeights(env, c, h).allWeight));
  }

  // ----- when the mint routine fails

  /** After the first block every lookup of the weight computation finds its entry. */
  lemma LookupsSucceed(env: Env, c: State, h: int)
    requires Starts(env, c, h)
    ensures NoWeights(env, c, h) <==> h == 1
  {
    forall v <- c.validators ensures !VotingWeights.Missing(c.stakes, v, env.addrOf(v.pubKey)) {
      forall d <- v.delegators ensures Link(d, env.addrOf(v.pubKey)) in c.stakes.vpowers {
        LinkedIffListed(c.stakes, d, env.addrOf(v.pubKey));
      }
    }
  }

  lemma {:induction false} ChunksOfNonNegative(s: Stakes, to: Address, ds: seq<Address>)
    requires Consistent(s)
    ensures forall ch <- VotingWeights.ChunksOf(s, to, ds) :: ch.power >= 0
  {
    ConsistentParts(s);
    if ds != [] {
      var l := Link(ds[|ds| - 1], to);
      ChunksOfNonNegative(s, to, ds[..|ds| - 1]);
      if l in s.vpowers { assert VPowerOk(s.vpowers[l]); }
    }
  }

  lemma {:induction false} AllChunksNonNegative(s: Stakes, addrOf: PubKey -> Address, vs: seq<Delegatee>)
    requires Consistent(s)
    ensures forall ch <- VotingWeights.AllChunks(s, addrOf, vs) :: ch.power >= 0
  {
    hide Consistent;
    if vs != [] {
      var n := |vs| - 1;
      AllChunksNonNegative(s, addrOf, vs[..n]);
      ChunksOfNonNegative(s, addrOf(vs[n].pubKey), vs[n].delegators);
    }
  }

  lemma TotalWeightNonNegative(env: Env, c: State, h: int)
    requires Core(env, c, h) && Mint.Rounds(env.round) && 0 <= Param(c, BONDING_BLOCKS_WEIGHT_PERMIL) <= 1000
    ensures CycleWeights(env, c, h).allWeight >= 0.0
  {
    Bounds(env, c, h);
    var sc, all := ScaleAt(env, c, h), VotingWeights.AllChunks(c.stakes, env.addrOf, c.validators);
    AllChunksNonNegative(c.stakes, env.addrOf, c.validators);
    VotingWeights.ScaledNonNegative(sc, all);
    SupplyPowerExact(c.supply);
    hide VotingWeights.Scaled;
    hide VotingWeights.AllChunks;
    hide VotingWeights.Holders;
    hide Mint.Weights;
    hide Mint.Rounds;
    hide Mint.Quot;
    VotingWeights.QuotNonNegative(env.round, VotingWeights.Scaled(sc, all), SupplyPower(c.supply) as real);
  }

  /** A supply within the bounds of the parameters is converted exactly. */
  lemma SupplyPowerExact(supply: nat)
    requires 100 * supply < PowerToAmount(TWO63)
    ensures SupplyPower(supply) == supply / AMOUNT_PER_POWER
  {
  }

  ghost function Factor(env: Env, c: State, h: int): real
    requires Weighable(c)
  {
    env.inflate(Param(c, INFLATION_WEIGHT_PERMIL), CycleWeights(env, c, h).allWeight)
  }

  lemma IssueNegativeIff(env: Env, c: State, h: int)
    requires Core(env, c, h)
    ensures MintIssue(env, c, h) < 0.0 <==> Factor(env, c, h) < 0.0 && c.supply < Param(c, MAX_TOTAL_SUPPLY)
  {
    Bounds(env, c, h);
    hide CycleWeights;
    hide Mint.Issuance;
    hide StakesOk;
    var cap, factor := Param(c, MAX_TOTAL_SUPPLY), Factor(env, c, h);
    if c.supply < cap { Mint.IssuanceNegativeIff(cap, c.supply, factor); } else { Mint.IssuedAtCap(cap, factor); }
  }

  /** With parameters in their ranges the factor is never negative. */
  lemma FactorNonNegative(env: Env, c: State, h: int)
    requires Starts(env, c, h)
    requires Param(c, INFLATION_WEIGHT_PERMIL) >= 0 && 0 <= Param(c, BONDING_BLOCKS_WEIGHT_PERMIL) <= 1000
    ensures Factor(env, c, h) >= 0.0
  {
    hide CycleWeights;
    TotalWeightNonNegative(env, c, h);
  }

  /** The mint routine fails if and only if it is the first block that ends a cycle, the factor of the
      issuance is negative below the cap, or there are stakers, or validators among them, that together
      weigh nothing. */
  lemma MintFailsIff(env: Env, c: State, h: int)
    requires Starts(env, c, h)
    ensures var w := CycleWeights(env, c, h);
      MintFails(env, c, h) <==>
        && MintDue(c, h)
        && (|| h == 1
            || (Factor(env, c, h) < 0.0 && c.supply < Param(c, MAX_TOTAL_SUPPLY))
            || (w.bs != [] && w.allWeight == 0.0)
            || (w.valWeight == 0.0 && exists b <- w.bs :: b.isValidator))
  {
    LookupsSucceed(env, c, h);
    IssueNegativeIff(env, c, h);
    hide Core;
    hide Factor;
    hide MintIssue;
    hide MintDue;
    hide CycleWeights;
    hide NoWeights;
    hide Governance.During;
  }

  // ----- runs

  /** Governance has kept its parameters, or adopted good ones after block `h`: the cap is not below the
      supply, and no counter can pass the length of the cycle before it ends. */
  ghost predicate Adopts(c: State, c': State, h: int) {
    c'.gov.live == c.gov.live ||
    (&& GoodParams(c'.gov.live) && c'.supply <= c'.gov.live[MAX_TOTAL_SUPPLY]
     && CountersOk(c'.stakes, c'.gov.live[INFLATION_CYCLE_BLOCKS], h))
  }

  /** Block `b` takes the chain from `c` to `c'`. */
  ghost predicate StepTo(env: Env, c: State, h: int, b: Block, c': State) {
    Starts(env, c, h) && BlockOk(env, c, h, b) && RunBlock(env, c, h, b) == Success(c')
  }

  /** The state after a block, or `c` itself where there is none. */
  ghost function Next(env: Env, c: State, h: int, b: Block): State {
    if Starts(env, c, h) && BlockOk(env, c, h, b) && RunBlock(env, c, h, b).Success? then RunBlock(env, c, h,
        b).value else c
  }

  /** Run from a good state, the block has good inputs, and what governance adopts is good. */
  ghost predicate GoodBlock(env: Env, c: State, h: int, b: Block) {
    Starts(env, c, h) ==>
      BlockOk(env, c, h, b) && (RunBlock(env, c, h, b).Success? ==> Adopts(c, RunBlock(env, c, h, b).value, h))
  }

  ghost predicate Advances(env: Env, c: State, h: int, b: Block) {
    Starts(env, c, h) && BlockOk(env, c, h, b) ==> RunBlock(env, c, h, b).Success?
  }

  /** The inputs of a run of blocks are good, as far as it gets. */
  ghost predicate ChainOk(env: Env, c: State, h: int, bs: seq<Block>)
    decreases |bs|
  {
    bs == [] ||
    (GoodBlock(env, c, h, bs[0])
     && (Advances(env, c, h, bs[0]) ==> ChainOk(env, Next(env, c, h, bs[0]), h + 1, bs[1..])))
  }

  /** No block of the run halts the chain. */
  ghost predicate NeverHalts(env: Env, c: State, h: int, bs: seq<Block>)
    decreases |bs|
  {
    bs == [] || (Advances(env, c, h, bs[0]) && NeverHalts(env, Next(env, c, h, bs[0]), h + 1, bs[1..]))
  }

  /** A run that starts in a good state and gets to its end, and the state it ends in. */
  ghost predicate Completes(env: Env, c: State, h: int, bs: seq<Block>) {
    Starts(env, c, h) && ChainOk(env, c, h, bs) && NeverHalts(env, c, h, bs)
  }

  ghost function Final(env: Env, c: State, h: int, bs: seq<Block>): State
    decreases |bs|
  {
    if bs == [] then c else Final(env, Next(env, c, h, bs[0]), h + 1, bs[1..])
  }

  /** What a good block leaves: a state in which the next one can start. */
  lemma GoodStep(env: Env, c: State, h: int, b: Block)
    requires Starts(env, c, h) && GoodBlock(env, c, h, b) && Advances(env, c, h, b)
    ensures var c' := Next(env, c, h, b); StepTo(env, c, h, b, c') && Adopts(c, c', h) && Starts(env, c', h + 1)
  {
    hide RunBlock;
    hide BlockOk;
    hide Starts;
    BlockConserves(env, c, h, b);
  }

  lemma StepIsGood(env: Env, c: State, h: int, b: Block, c': State)
    requires StepTo(env, c, h, b, c') && Adopts(c, c', h)
    ensures GoodBlock(env, c, h, b) && Advances(env, c, h, b) && c' == Next(env, c, h, b)
    ensures Starts(env, c, h) && Starts(env, c', h + 1)
  {
    hide RunBlock;
    hide BlockOk;
    hide Starts;
    BlockConserves(env, c, h, b);
  }

  /** The first block of a run and the rest. */
  lemma {:induction false} FirstStep(env: Env, c: State, h: int, bs: seq<Block>) returns (c': State)
    requires Completes(env, c, h, bs) && bs != []
    ensures StepTo(env, c, h, bs[0], c') && Adopts(c, c', h) && Starts(env, c', h + 1)
    ensures Completes(env, c', h + 1, bs[1..]) && Final(env, c, h, bs) == Final(env, c', h + 1, bs[1..])
  {
    hide Starts;
    hide GoodBlock;
    hide Advances;
    hide Next;
    hide StepTo;
    GoodStep(env, c, h, bs[0]);
    c' := Next(env, c, h, bs[0]);
  }

  lemma {:induction false} OneMoreBlock(env: Env, c: State, h: int, bs: seq<Block>, c': State)
    requires bs != [] && StepTo(env, c, h, bs[0], c') && Adopts(c, c', h) && Completes(env, c', h + 1, bs[1..])
    ensures Completes(env, c, h, bs) && Final(env, c, h, bs) == Final(env, c', h + 1, bs[1..])
  {
    hide Starts;
    hide GoodBlock;
    hide Advances;
    hide Next;
    hide StepTo;
    StepIsGood(env, c, h, bs[0], c');
  }

  lemma NoBlocks(env: Env, c: State, h: int, bs: seq<Block>)
    requires Completes(env, c, h, bs)
    ensures Starts(env, c, h) && Completes(env, c, h, []) && Final(env, c, h, []) == c
  {
    hide Starts;
    hide GoodBlock;
    hide Advances;
    hide Next;
  }

  /** A run is a run of its first blocks, followed by a run of the others. */
  lemma {:induction false} RunPrefix(env: Env, c: State, h: int, bs: seq<Block>, n: nat)
    requires Completes(env, c, h, bs) && n <= |bs|
    ensures Completes(env, c, h, bs[..n])
    ensures Completes(env, Final(env, c, h, bs[..n]), h + n, bs[n..])
    ensures Final(env, c, h, bs) == Final(env, Final(env, c, h, bs[..n]), h + n, bs[n..])
    decreases n
  {
    hide Starts;
    hide StepTo;
    hide Adopts;
    hide Completes;
    hide Final;
    if n == 0 {
      NoBlocks(env, c, h, bs);
      assert bs[..0] == [] && bs[0..] == bs;
    } else {
      assert bs[..n][1..] == bs[1..][..n - 1] && bs[1..][n - 1..] == bs[n..] && bs[..n][0] == bs[0];
      var c' := FirstStep(env, c, h, bs);
      RunPrefix(env, c', h + 1, bs[1..], n - 1);
      OneMoreBlock(env, c, h, bs[..n], c');
    }
  }

  /** The block holds a transaction that cannot be prepared, or the mint routine fails. */
  ghost predicate Blocked(env: Env, c: State, h: int, b: Block) {
    Starts(env, c, h) && (!AllPrepared(env, c, h, b) || MintFails(env, c, h))
  }

  /** After `n` blocks have run, block `n` is blocked. */
  ghost predicate HaltsAt(env: Env, c: State, h: int, bs: seq<Block>, n: nat)
    requires n < |bs|
  {
    NeverHalts(env, c, h, bs[..n]) && Blocked(env, Final(env, c, h, bs[..n]), h + n, bs[n])
  }

  lemma AdvancesIff(env: Env, c: State, h: int, b: Block)
    requires Starts(env, c, h) && GoodBlock(env, c, h, b)
    ensures Advances(env, c, h, b) <==> !Blocked(env, c, h, b)
  {
    hide RunBlock;
    hide AllPrepared;
    hide MintFails;
    BlockConserves(env, c, h, b);
  }

  /** A run halts if and only if, after some of its blocks, the next one holds a transaction that
      cannot be prepared or ends a cycle in which the mint routine fails. */
  lemma {:induction false} RunHaltsIff(env: Env, c: State, h: int, bs: seq<Block>)
    requires Starts(env, c, h) && ChainOk(env, c, h, bs)
    ensures NeverHalts(env, c, h, bs) <==> forall n: nat | n < |bs| :: !HaltsAt(env, c, h, bs, n)
    decreases |bs|
  {
    hide Starts;
    hide GoodBlock;
    hide Advances;
    hide Next;
    hide Blocked;
    hide StepTo;
    hide Adopts;
    if bs != [] {
      AdvancesIff(env, c, h, bs[0]);
      assert bs[..0] == [];
      assert HaltsAt(env, c, h, bs, 0) <==> Blocked(env, c, h, bs[0]);
      if Advances(env, c, h, bs[0]) {
        GoodStep(env, c, h, bs[0]);
        var c', h', rest := Next(env, c, h, bs[0]), h + 1, bs[1..];
        RunHaltsIff(env, c', h', rest);
        forall n: nat | n < |rest| ensures HaltsAt(env, c', h', rest, n) <==> HaltsAt(env, c, h, bs, n + 1) {
          assert bs[..n + 1][1..] == rest[..n] && bs[..n + 1][0] == bs[0] && rest[n] == bs[n + 1];
        }
        if NeverHalts(env, c', h', rest) {
          forall n: nat | n < |bs| ensures !HaltsAt(env, c, h, bs, n) {
            if n > 0 { assert !HaltsAt(env, c', h', rest, n - 1); }
          }
        }
      }
    }
  }

  /** Token conservation over every run. */
  lemma {:induction false} TokensAreConserved(env: Env, c: State, h: int, bs: seq<Block>)
    requires Completes(env, c, h, bs)
    ensures var t := Final(env, c, h, bs);
      && Starts(env, t, h + |bs|) && Balanced(t) && |t.gov.live| == Governance.FIELDS
      && c.supply <= t.supply <= t.gov.live[MAX_TOTAL_SUPPLY] && DueAfter(t.stakes, h + |bs| - 1)
    decreases |bs|
  {
    hide Completes;
    hide Final;
    hide Starts;
    hide Balanced;
    hide Adopts;
    hide StepTo;
    if bs == [] {
      NoBlocks(env, c, h, bs);
      StartIsBalanced(env, c, h);
    } else {
      var c' := FirstStep(env, c, h, bs);
      StepConserves(env, c, h, bs[0], c');
      TokensAreConserved(env, c', h + 1, bs[1..]);
    }
  }

  /** Over every run, no counter passes the length of the cycle, and wherever a cycle ends the signing
      rates are shares. */
  lemma RatesStayShares(env: Env, c: State, h: int, bs: seq<Block>)
    requires Completes(env, c, h, bs)
    ensures var t := Final(env, c, h, bs);
      && Weighable(t)
      && (forall a :: 0 <= Missed(t.stakes, a) <= Param(t, INFLATION_CYCLE_BLOCKS))
      && (MintDue(t, h + |bs|) ==> forall b <- CycleWeights(env, t, h + |bs|).bs :: 0.0 <= b.signRate <= 1.0)
  {
    hide Completes;
    hide Final;
    hide CycleWeights;
    hide Consistent;
    hide Governance.During;
    TokensAreConserved(env, c, h, bs);
    var t := Final(env, c, h, bs);
    var cycle := Param(t, INFLATION_CYCLE_BLOCKS);
    forall a ensures 0 <= Missed(t.stakes, a) <= cycle {
      assert 0 <= Missed(t.stakes, a) <= (h + |bs| - 1) % cycle + 1;
    }
    if MintDue(t, h + |bs|) { RatesAreShares(env, t, h + |bs|); }
  }

  lemma StartIsBalanced(env: Env, c: State, h: int)
    requires Starts(env, c, h)
    ensures Balanced(c) && DueAfter(c.stakes, h - 1)
    ensures |c.gov.live| == Governance.FIELDS && c.supply <= c.gov.live[MAX_TOTAL_SUPPLY]
  {
    hide Consistent;
    hide Governance.During;
  }

  lemma StepConserves(env: Env, c: State, h: int, b: Block, c': State)
    requires StepTo(env, c, h, b, c')
    ensures Balanced(c') && c.supply <= c'.supply && c'.feeSum == 0 && DueAfter(c'.stakes, h)
    ensures c.accts.Keys <= c'.accts.Keys && (Adopts(c, c', h) ==> Starts(env, c', h + 1))
  {
    hide RunBlock;
    hide BlockOk;
    hide Balanced;
    BlockConserves(env, c, h, b);
  }

  // ----- genesis

  datatype GenesisDoc = GenesisDoc(holders: seq<(Address, nat)>, vals: seq<GenesisValidator>, params: Params)

  function HeldBy(hs: seq<(Address, nat)>): nat { if hs == [] then 0 else HeldBy(hs[..|hs| - 1]) + hs[|hs| - 1].1 }

  /** checkRequestInitChain: the initial supply, which must not exceed the cap. */
  ghost function InitialSupply(g: GenesisDoc): int { PowerToAmount(GenesisPower(g.vals)) + HeldBy(g.holders) }

  lemma {:induction false} PowerOfPrefix(vals: seq<GenesisValidator>, n: nat)
    requires n <= |vals| && forall i :: 0 <= i < |vals| ==> vals[i].power >= 0
    ensures 0 <= GenesisPower(vals[..n]) <= GenesisPower(vals)
    decreases |vals|
  {
    if vals != [] {
      var m := |vals| - 1;
      PowerOfPrefix(vals[..m], if n < |vals| then n else m);
      if n < |vals| { assert vals[..m][..n] == vals[..n]; } else { assert vals[..n] == vals; }
    }
  }

  lemma PowerWithinGenesis(vals: seq<GenesisValidator>, i: nat)
    requires i < |vals| && forall j :: 0 <= j < |vals| ==> vals[j].power >= 0
    ensures vals[i].power <= GenesisPower(vals)
  {
    PowerOfPrefix(vals, i);
    PowerOfPrefix(vals, i + 1);
    assert vals[..i + 1][..i] == vals[..i];
  }

  /** The initial supply as the node computes it: power summed up in int64, amounts in uint256. */
  ghost function CheckedSupply(g: GenesisDoc): nat { (RefundAmount(GenesisPower(g.vals)) + HeldBy(g.holders)) % TWO256 }

  lemma CheckedIsInitialSupply(g: GenesisDoc)
    requires 0 <= GenesisPower(g.vals) < TWO64 && InitialSupply(g) < TWO256
    ensures CheckedSupply(g) == InitialSupply(g)
  {
  }

  lemma WrapThenAdd(x: int, y: int)
    ensures Add64(Wrap64(x), y) == Wrap64(x + y) && RefundAmount(Wrap64(x)) == RefundAmount(x)
  {
    assert Wrap64(x) % TWO64 == x % TWO64;
    assert (Wrap64(x) + y) % TWO64 == (x + y) % TWO64;
  }

  /** The accumulating loops of checkRequestInitChain, whatever the document holds. */
  method CheckRequestInitChain(g: GenesisDoc) returns (r: Option<nat>)
    requires |g.params| == Governance.FIELDS
    ensures r.Some? <==> CheckedSupply(g) <= g.params[MAX_TOTAL_SUPPLY]
    ensures r.Some? ==> r.value == CheckedSupply(g)
  {
    var power := 0;
    for i := 0 to |g.vals|
      invariant power == Wrap64(GenesisPower(g.vals[..i]))
    {
      assert g.vals[..i + 1][..i] == g.vals[..i];
      WrapThenAdd(GenesisPower(g.vals[..i]), g.vals[i].power);
      power := Add64(power, g.vals[i].power);
    }
    assert g.vals[..|g.vals|] == g.vals;
    WrapThenAdd(GenesisPower(g.vals), 0);
    var total := RefundAmount(power);
    ghost var start := total;
    for i := 0 to |g.holders|
      invariant total == (start + HeldBy(g.holders[..i])) % TWO256
    {
      assert g.holders[..i + 1][..i] == g.holders[..i];
      total := Add256(total, g.holders[i].1);
    }
    assert g.holders[..|g.holders|] == g.holders;
    if total > g.params[MAX_TOTAL_SUPPLY] { return None; }
    return Some(total);
  }

  /** No holder with a balance is listed again later. */
  ghost predicate NothingOverwritten(hs: seq<(Address, nat)>) {
    forall i, j :: 0 <= i < j < |hs| && hs[i].0 == hs[j].0 ==> hs[i].1 == 0
  }

  ghost predicate GenesisOk(env: Env, g: GenesisDoc) {
    && NothingOverwritten(g.holders) && DistinctAddresses(g.vals) && GoodParams(g.params)
    && (forall i :: 0 <= i < |g.vals| ==> g.vals[i].power >= 0 && g.vals[i].addr == env.addrOf(g.vals[i].pubKey))
    && (forall i :: 0 <= i < |g.vals| ==> exists j :: 0 <= j < |g.holders| && g.holders[j].0 == g.vals[i].addr)
    && InitialSupply(g) <= g.params[MAX_TOTAL_SUPPLY]
  }

  /** The ledger holds the last entry of every address listed. */
  lemma {:induction false} LastEntry(hs: seq<(Address, nat)>, a: Address) returns (i: int)
    ensures -1 <= i < |hs| && (i < 0 ==> a !in Holders(hs))
    ensures i >= 0 ==> a in Holders(hs) && hs[i].0 == a && Holders(hs)[a].balance == hs[i].1
    ensures forall j :: i < j < |hs| ==> hs[j].0 != a
  {
    if hs == [] {
      i := -1;
    } else if hs[|hs| - 1].0 == a {
      i := |hs| - 1;
    } else {
      i := LastEntry(hs[..|hs| - 1], a);
    }
  }

  lemma HoldersAreListed(hs: seq<(Address, nat)>, a: Address)
    ensures a in Holders(hs) <==> exists j :: 0 <= j < |hs| && hs[j].0 == a
  {
    var i := LastEntry(hs, a);
  }

  /** The balances recorded at genesis sum up to the balances listed if and only if no balance is
      overwritten; they never exceed them. */
  lemma {:induction false} HoldersSumIff(hs: seq<(Address, nat)>)
    ensures Money(Holders(hs)) <= HeldBy(hs)
    ensures Money(Holders(hs)) == HeldBy(hs) <==> NothingOverwritten(hs)
  {
    if hs != [] {
      var n := |hs| - 1;
      var prev, a := hs[..n], hs[n].0;
      HoldersSumIff(prev);
      MoneyUpdate(Holders(prev), a, NEW_ACCT.(balance := hs[n].1));
      var i := LastEntry(prev, a);
      assert forall k :: 0 <= k < n ==> prev[k] == hs[k];
      if NothingOverwritten(hs) {
        forall k, l | 0 <= k < l < n && prev[k].0 == prev[l].0 ensures prev[k].1 == 0 { assert hs[k].0 == hs[l].0; }
        if i >= 0 { assert hs[i].0 == hs[n].0; }
      }
      if NothingOverwritten(prev) && Get(Holders(prev), a).balance == 0 {
        forall k, l | 0 <= k < l < |hs| && hs[k].0 == hs[l].0 ensures hs[k].1 == 0 {
          if l < n {
            assert prev[k].0 == prev[l].0;
          } else if k < i {
            assert prev[k].0 == prev[i].0;
          } else {
            assert k == i;
          }
        }
      }
    }
  }

  /** A holder listed twice is recorded once but counted twice. */
  lemma DuplicateHolderBreaksTheSum(a: Address)
    ensures Money(Holders([(a, 5), (a, 7)])) < HeldBy([(a, 5), (a, 7)])
  {
    var hs: seq<(Address, nat)> := [(a, 5), (a, 7)];
    HoldersSumIff(hs);
    assert hs[0].0 == hs[1].0 && hs[0].1 != 0;
  }

  /** InitChain. */
  ghost function InitChain(g: GenesisDoc): State
    requires InitialSupply(g) >= 0
  {
    var s := Genesis(EMPTY, g.vals);
    State(Holders(g.holders), s, Limiter.ResetTo(0, 0), ValidatorSet.Select(Listing(s), |g.vals|), map[],
          InitialSupply(g), Governance.Gov(map[], map[], g.params, g.params, None), 0, 0)
  }

  lemma GenesisStakes(env: Env, g: GenesisDoc)
    requires GenesisOk(env, g)
    ensures InitialSupply(g) >= 0 && StakesOk(env, InitChain(g), 1)
    ensures Bonded(InitChain(g).stakes) == GenesisPower(g.vals) && FrozenPower(InitChain(g).stakes) == 0
    ensures Governance.Electorate(Voters(env, InitChain(g).validators)) && ValidatorsListed(env, InitChain(g))
  {
    PowerOfPrefix(g.vals, 0);
    forall i | 0 <= i < |g.vals| ensures PowerOk(g.vals[i].power) && g.vals[i].addr in Holders(g.holders) {
      PowerWithinGenesis(g.vals, i);
      HoldersAreListed(g.holders, g.vals[i].addr);
    }
    GenesisIsConsistent(g.vals);
    GenesisRecords(g.vals, Holders(g.holders).Keys, env.addrOf);
    ChosenAreElectorate(env, Genesis(EMPTY, g.vals), |g.vals|);
    forall v | v in ValidatorSet.Select(Listing(Genesis(EMPTY, g.vals)), |g.vals|)
      ensures var s := Genesis(EMPTY, g.vals);
        env.addrOf(v.pubKey) in s.delegatees && s.delegatees[env.addrOf(v.pubKey)] == v
    {
      ChosenAreListed(env, Genesis(EMPTY, g.vals), |g.vals|, v);
    }
  }

  lemma GenesisMoney(env: Env, g: GenesisDoc, c: State)
    requires GenesisOk(env, g) && InitialSupply(g) >= 0 && c == InitChain(g)
    requires Bonded(c.stakes) == GenesisPower(g.vals) && FrozenPower(c.stakes) == 0
    ensures Wealth(c) == c.supply == InitialSupply(g) <= g.params[MAX_TOTAL_SUPPLY]
    ensures c.gov == Governance.Gov(map[], map[], g.params, g.params, None) && c.feeSum == 0 && c.gasLeft == 0
    ensures Limiter.Bounded(c.limiter) && Supply.UpTo(c.rewards, 1)
    ensures Supply.Cumulated(c.rewards) == 0 && GoodParams(g.params)
  {
    HoldersSumIff(g.holders);
    hide Genesis;
    hide Listing;
    hide ValidatorSet.Select;
    assert Supply.Cumulated(map[]) == 0;
  }

  lemma GenesisCounters(g: GenesisDoc)
    requires InitialSupply(g) >= 0 && GoodParams(g.params)
    ensures CountersOk(InitChain(g).stakes, g.params[INFLATION_CYCLE_BLOCKS], 0)
  {
    GenesisDelegatees(g.vals);
    assert forall a :: Missed(InitChain(g).stakes, a) == 0;
  }

  lemma EmptyGovernance(parse: Governance.Parse, p: Params, h: int)
    requires |p| == Governance.FIELDS
    ensures Governance.During(parse, Governance.Gov(map[], map[], p, p, None), h)
  {
  }

  /** The genesis state satisfies the invariant. */
  lemma GenesisIsSafe(env: Env, g: GenesisDoc)
    requires GenesisOk(env, g)
    ensures InitialSupply(g) >= 0 && Safe(env, InitChain(g), 1) && InitChain(g).feeSum == 0
    ensures ValidatorsListed(env, InitChain(g))
    ensures CountersOk(InitChain(g).stakes, g.params[INFLATION_CYCLE_BLOCKS], 0)
    ensures Balanced(InitChain(g)) && InitChain(g).supply == InitialSupply(g)
  {
    hide InitChain;
    hide InitialSupply;
    hide GenesisOk;
    hide StakesOk;
    hide Governance.Electorate;
    hide Governance.During;
    hide Limiter.Bounded;
    hide Supply.UpTo;
    GenesisStakes(env, g);
    GenesisMoney(env, g, InitChain(g));
    GenesisCounters(g);
    EmptyGovernance(env.parse, g.params, 1);
  }

  /** From every good genesis, over every run: nothing is created or lost except by minting, and the
      supply never exceeds its cap. */
  lemma ConservationFromGenesis(env: Env, g: GenesisDoc, c: State, bs: seq<Block>)
    requires GenesisOk(env, g) && InitialSupply(g) >= 0 && c == InitChain(g) && Completes(env, c, 1, bs)
    ensures var t := Final(env, c, 1, bs);
      && Balanced(t) && |t.gov.live| == Governance.FIELDS
      && InitialSupply(g) <= t.supply <= t.gov.live[MAX_TOTAL_SUPPLY]
  {
    hide *;
    GenesisIsSafe(env, g);
    TokensAreConserved(env, c, 1, bs);
  }
}
