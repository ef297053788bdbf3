/** The consensus engine's validator set. The application reports, at the end of each block, how its
    validators changed; the engine applies the report to its own set. */
module Engine {
  import opened Stake
  import opened Refunds
  import opened Chain
  import opened ChainInvariant
  import opened Conservation
  import opened Runs
  import Governance
  import ValidatorSet

  /** The validators in key order, as the diff compares them. */
  function ByKey(vs: seq<Delegatee>): seq<Delegatee> { ValidatorSet.Sort(ValidatorSet.PubLess, vs) }

  lemma ElectorateHasDistinctKeys(env: Env, vs: seq<Delegatee>)
    requires Governance.Electorate(Voters(env, vs))
    ensures ValidatorSet.DistinctKeys(vs)
  {
    forall i, j | 0 <= i < j < |vs| ensures vs[i].pubKey != vs[j].pubKey {
      assert Voters(env, vs)[i].addr != Voters(env, vs)[j].addr;
    }
  }

  lemma ByKeyIsSorted(vs: seq<Delegatee>)
    requires ValidatorSet.DistinctKeys(vs)
    ensures ValidatorSet.KeySorted(ByKey(vs)) && ByKey(ByKey(vs)) == ByKey(vs)
  {
    ValidatorSet.PubLessOrdersKeys();
    ValidatorSet.SortSorts(ValidatorSet.PubLess, vs);
    ValidatorSet.SortedIsKeySorted(ByKey(vs));
    ValidatorSet.PermutedKeysAreDistinct(vs, ByKey(vs));
    ValidatorSet.SortSorts(ValidatorSet.PubLess, ByKey(vs));
    ValidatorSet.SortedIsUnique(ValidatorSet.PubLess, ByKey(vs), ByKey(ByKey(vs)));
  }

  // ----- one block

  /** The delegatees chosen at the end of block `h`, from what the refunds leave. */
  ghost function Chosen(x: State, h: int): seq<Delegatee>
    requires |x.gov.live| == Governance.FIELDS && Param(x, MAX_VALIDATOR_CNT) >= 0
  {
    ValidatorSet.Select(Listing(AfterRefund(x.stakes, h)), Param(x, MAX_VALIDATOR_CNT))
  }

  /** What EndBlock reports: the validators it holds then against the chosen ones. */
  ghost function Emitted(x: State, h: int): seq<ValidatorSet.Update>
    requires |x.gov.live| == Governance.FIELDS && Param(x, MAX_VALIDATOR_CNT) >= 0
  {
    ValidatorSet.Diff(ByKey(x.validators), ByKey(Chosen(x, h)))
  }

  /** The validators after the block are the chosen delegatees in key order. */
  lemma NewValidators(env: Env, x: State, h: int)
    requires Core(env, x, h) && x.feeSum == 0
    ensures Finish(x, h).Success?
    ensures var c' := Finish(x, h).value;
      c'.validators == ByKey(Chosen(x, h)) == ByKey(c'.validators) && ValidatorSet.KeySorted(c'.validators)
  {
    FinishIsSafe(env, x, h);
    SettleStakesIsSafe(env, x, h);
    RefundKeepsBooks(x.stakes, h, x.accts.Keys);
    var s := AfterRefund(x.stakes, h);
    ListingIsDistinct(s, env.addrOf);
    ValidatorSet.SelectedKeysAreDistinct(Listing(s), Param(x, MAX_VALIDATOR_CNT));
    ByKeyIsSorted(Chosen(x, h));
    hide Listing;
    hide ValidatorSet.Select;
    hide ValidatorSet.Sort;
    hide ValidatorSet.KeySorted;
    hide Core;
  }

  /** The engine's set before the block, updated by what EndBlock reports, is the application's set
      after it if and only if no validator enters with, or falls to, power 0. */
  lemma BlockInformsEngine(env: Env, c: State, h: int, b: Block, c': State)
    requires StepTo(env, c, h, b, c')
    ensures ValidatorSet.ApplyUpdates(ValidatorSet.PowersOf(ByKey(c.validators)), Reported(env, c, h, b))
          == ValidatorSet.PowersOf(c'.validators)
       <==> ValidatorSet.NoNewZero(ByKey(c.validators), c'.validators)
  {
    assert Answered(env, c, h, b);
    hide MintFails;
    var x := RefundState(env, c, h, b);
    assert Governance.Electorate(Voters(env, c.validators));
    ElectorateHasDistinctKeys(env, c.validators);
    ByKeyIsSorted(c.validators);
    NewValidators(env, x, h);
    hide Executed;
    hide RefundState;
    hide Core;
    hide Governance.During;
    hide Finish;
    hide ByKey;
    hide Chosen;
    hide ValidatorSet.KeySorted;
    ValidatorSet.DiffIsExact(ByKey(c.validators), c'.validators);
  }

  /** The report of a block. */
  ghost function Reported(env: Env, c: State, h: int, b: Block): seq<ValidatorSet.Update> {
    if Answered(env, c, h, b) then Emitted(RefundState(env, c, h, b), h) else []
  }

  // ----- over runs

  predicate AllPositive(vs: seq<Delegatee>) { forall v <- vs :: v.sum > 0 }

  ghost predicate NeverZero(env: Env, c: State, h: int, bs: seq<Block>)
    decreases |bs|
  {
    bs == [] ||
    (AllPositive(Next(env, c, h, bs[0]).validators) && NeverZero(env, Next(env, c, h, bs[0]), h + 1, bs[1..]))
  }

  /** The engine's set after a run, starting from `powers`. */
  ghost function Followed(env: Env, c: State, h: int, bs: seq<Block>, powers: ValidatorSet.Powers): ValidatorSet.Powers
    decreases |bs|
  {
    if bs == [] then powers
    else Followed(env, Next(env, c, h, bs[0]), h + 1, bs[1..], ValidatorSet.ApplyUpdates(powers, Reported(env, c, h,
        bs[0])))
  }

  lemma BlockAgrees(env: Env, c: State, h: int, b: Block, c': State)
    requires StepTo(env, c, h, b, c') && AllPositive(c'.validators)
    ensures ValidatorSet.ApplyUpdates(ValidatorSet.PowersOf(ByKey(c.validators)), Reported(env, c, h, b))
          == ValidatorSet.PowersOf(ByKey(c'.validators))
  {
    BlockInformsEngine(env, c, h, b, c');
    assert Answered(env, c, h, b);
    hide MintFails;
    NewValidators(env, RefundState(env, c, h, b), h);
    hide RefundState;
    hide Core;
    hide Finish;
    hide ByKey;
    hide Chosen;
    hide Reported;
    hide ValidatorSet.KeySorted;
  }

  /** As long as no validator has power 0 the engine and the application agree on the validators and
      their powers after every run. */
  lemma {:induction false} EngineFollows(env: Env, c: State, h: int, bs: seq<Block>)
    requires Completes(env, c, h, bs) && NeverZero(env, c, h, bs)
    ensures Followed(env, c, h, bs, ValidatorSet.PowersOf(ByKey(c.validators)))
         == ValidatorSet.PowersOf(ByKey(Final(env, c, h, bs).validators))
    decreases |bs|
  {
    hide Completes;
    hide StepTo;
    hide Starts;
    hide Adopts;
    hide Reported;
    hide ByKey;
    hide Next;
    hide AllPositive;
    if bs != [] {
      var c' := FirstStep(env, c, h, bs);
      StepIsGood(env, c, h, bs[0], c');
      BlockAgrees(env, c, h, bs[0], c');
      EngineFollows(env, c', h + 1, bs[1..]);
    }
  }
}
