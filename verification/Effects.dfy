/** What a delivered transaction, the fees of a block and a distribution of rewards do to every
    single account, whichever of the roles in them coincide. */
module Effects {
  import opened Base
  import opened Sums
  import opened Accounts
  import opened Stake
  import opened StakeInvariants
  import opened Chain
  import opened ChainInvariant
  import opened Validation
  import opened Conservation
  import Supply
  import Governance
  import Limiter

  function Bal(m: Accts, a: Address): int { Get(m, a).balance }

  function If(b: bool, x: int): int { if b then x else 0 }

  predicate SameButBalance(x: Acct, y: Acct) { y.nonce == x.nonce && y.name == x.name && y.url == x.url }

  // ----- one debit or credit

  lemma DebitMoves(m: Accts, a: Address, amt: nat)
    requires a in m && amt <= m[a].balance && amt < TWO255 && Money(m) < TWO256
    ensures SubBalance(m, a, amt).Success?
    ensures var m' := SubBalance(m, a, amt).value;
      forall b: Address :: Bal(m', b) == Bal(m, b) - If(b == a, amt) && SameButBalance(Get(m, b), Get(m', b))
  {
    DebitTakes(m, a, amt);
  }

  lemma CreditMoves(m: Accts, a: Address, amt: nat)
    requires amt < TWO255 && Money(m) + amt < TWO256
    ensures AddBalance(m, a, amt).Success?
    ensures var m' := AddBalance(m, a, amt).value;
      forall b: Address :: Bal(m', b) == Bal(m, b) + If(b == a, amt) && SameButBalance(Get(m, b), Get(m', b))
  {
    CreditAdds(m, a, amt);
  }

  // ----- one transaction

  /** What running a transaction adds to an account, before the fee. */
  function RunDelta(tx: Tx, a: Address): int {
    match tx.kind
    case Transfer => If(a == tx.to, tx.amount) - If(a == tx.from, tx.amount)
    case Staking => -If(a == tx.from, tx.amount)
    case Withdraw(req) => If(a == tx.from, req)
    case _ => 0
  }

  /** Name and link after running: only a document change sets them, and only the sender's. */
  predicate DocsAfter(tx: Tx, a: Address, x: Acct, y: Acct) {
    if tx.kind.SetDoc? && a == tx.from then y.name == tx.kind.name && y.url == tx.kind.url
    else y.name == x.name && y.url == x.url
  }

  ghost predicate RanTo(tx: Tx, m: Accts, m': Accts) {
    forall a: Address ::
      && Bal(m', a) == Bal(m, a) + RunDelta(tx, a) && Get(m', a).nonce == Get(m, a).nonce
      && DocsAfter(tx, a, Get(m, a), Get(m', a))
  }

  lemma TransferEffect(env: Env, c: State, h: int, tx: Tx)
    requires Core(env, c, h) && Sized(c) && Ready(env, c, tx) && CommonOk(c, tx)
    requires tx.kind.Transfer? && Run(env, c, h, tx).Some?
    ensures RanTo(tx, c.accts, Run(env, c, h, tx).value.accts)
  {
    hide Fee;
    Bounds(env, c, h);
    hide Core;
    TransferMoves(c.accts, tx.from, tx.to, tx.amount);
    hide Accounts.Transfer;
  }

  lemma StakingEffect(env: Env, c: State, h: int, tx: Tx)
    requires Core(env, c, h) && Sized(c) && Ready(env, c, tx)
    requires CommonOk(c, tx) && tx.kind.Staking? && Run(env, c, h, tx).Some?
    ensures RanTo(tx, c.accts, Run(env, c, h, tx).value.accts)
  {
    Bounds(env, c, h);
    CommonCovers(env, c, h, tx);
    BalanceWithinMoney(c.accts, tx.payer);
    hide Fee;
    hide Core;
    DebitMoves(c.accts, tx.from, tx.amount);
    hide SubBalance;
    hide Bond;
  }

  lemma WithdrawEffect(env: Env, c: State, h: int, tx: Tx)
    requires Core(env, c, h) && Sized(c) && tx.from in c.accts
    requires tx.kind.Withdraw? && WithdrawOk(c, tx) && Run(env, c, h, tx).Some?
    ensures RanTo(tx, c.accts, Run(env, c, h, tx).value.accts)
  {
    Bounds(env, c, h);
    hide Core;
    Supply.CumulatedWithin(c.rewards, tx.from);
    CreditMoves(c.accts, tx.from, tx.kind.req);
    CreditAdds(c.accts, tx.from, tx.kind.req);
    hide AddBalance;
    hide Reward;
  }

  lemma OtherEffect(env: Env, c: State, h: int, tx: Tx)
    requires Sized(c) && tx.from in c.accts && Supply.UpTo(c.rewards, h) && Run(env, c, h, tx).Some?
    requires !tx.kind.Transfer? && !tx.kind.Staking? && !tx.kind.Withdraw?
    ensures RanTo(tx, c.accts, Run(env, c, h, tx).value.accts)
  {
    hide Unbond;
    hide Governance.Execute;
    hide Governance.CanVote;
  }

  lemma RunEffect(env: Env, c: State, h: int, tx: Tx)
    requires Core(env, c, h) && Sized(c) && Ready(env, c, tx) && CommonOk(c, tx) && Run(env, c, h, tx).Some?
    requires tx.kind.Withdraw? ==> WithdrawOk(c, tx)
    ensures RanTo(tx, c.accts, Run(env, c, h, tx).value.accts)
  {
    hide Run;
    hide RanTo;
    assert Supply.UpTo(c.rewards, h);
    match tx.kind
    case Transfer => TransferEffect(env, c, h, tx);
    case Staking => StakingEffect(env, c, h, tx);
    case Withdraw(_) => WithdrawEffect(env, c, h, tx);
    case _ => OtherEffect(env, c, h, tx);
  }

  /** Which of the other ledgers a transaction may touch. */
  ghost predicate RestAfter(tx: Tx, c: State, c': State) {
    && c'.validators == c.validators && c'.supply == c.supply
    && (!tx.kind.Staking? && !tx.kind.Unstaking? ==> c'.stakes == c.stakes && c'.limiter == c.limiter)
    && (!tx.kind.Withdraw? ==> c'.rewards == c.rewards)
    && (!tx.kind.Proposal? && !tx.kind.Voting? ==> c'.gov == c.gov)
  }

  lemma RunRest(env: Env, c: State, h: int, tx: Tx)
    requires Sized(c) && tx.from in c.accts && Supply.UpTo(c.rewards, h) && Run(env, c, h, tx).Some?
    ensures RestAfter(tx, c, Run(env, c, h, tx).value)
  {
    hide Bond;
    hide Unbond;
    hide Governance.Execute;
    hide Governance.CanVote;
    hide SubBalance;
    hide Reward;
    hide Accounts.Transfer;
  }

  lemma ChargeEffect(env: Env, c: State, h: int, tx: Tx)
    requires Core(env, c, h) && Affords(c, tx)
    ensures Charge(c, tx).Some? && RestAfter(tx, c, Charge(c, tx).value)
    ensures var m' := Charge(c, tx).value.accts;
      forall a: Address :: Bal(m', a) == Bal(c.accts, a) - If(a == tx.payer, Fee(tx))
        && Get(m', a) == Get(c.accts, a).(balance := Get(m', a).balance, nonce := Get(c.accts,
            a).nonce + If(a == tx.from, 1))
  {
    hide Fee;
    Bounds(env, c, h);
    hide Core;
    BalanceWithinMoney(c.accts, tx.payer);
    DebitMoves(c.accts, tx.payer, Fee(tx));
    DebitTakes(c.accts, tx.payer, Fee(tx));
    hide SubBalance;
  }

  /** The state in which a validated transaction runs differs from `c` in the limiter at most. */
  lemma CountedIsReady(env: Env, c: State, h: int, tx: Tx)
    requires Safe(env, c, h) && Sized(c) && Ready(env, c, tx) && Validated(env, c, h, tx)
    ensures tx.kind.Staking? ==> Limiter.Divides(c.limiter, StakingPower(tx.amount), Limiter.AddPower)
    ensures var v := Counted(c, tx);
      && CountedWell(env, c, v, h) && Ready(env, v, tx) && CommonOk(v, tx) && RestAfter(tx, c, v)
      && (tx.kind.Withdraw? ==> WithdrawOk(v, tx))
  {
    hide Core;
    hide Governance.During;
    hide Fee;
    hide WithinLimit;
    hide Governance.CanPropose;
    hide Governance.CanVote;
    hide Limiter.Apply;
    CountingKeepsLimiter(env, c, h, tx);
  }

  /** Delivering is counting, running, charging and recording the fee, when nothing fails. */
  lemma DeliverUnfolds(env: Env, begin: State, c: State, h: int, tx: Tx)
    requires Sized(begin) && Sized(c) && Supply.UpTo(c.rewards, h) && begin.accts.Keys <= c.accts.Keys
    requires Prepared(env, begin, tx) && Validated(env, c, h, tx)
    requires tx.kind.Staking? ==> Limiter.Divides(c.limiter, StakingPower(tx.amount), Limiter.AddPower)
    requires Counted(c, tx) == c.(limiter := Counted(c, tx).limiter)
    requires var r := Run(env, Counted(c, tx), h, tx);
      r.Some? && tx.from in r.value.accts && tx.payer in r.value.accts && Charge(r.value, tx).Some?
    ensures var paid := Charge(Run(env, Counted(c, tx), h, tx).value, tx).value;
      Deliver(env, begin, c, h, tx) == paid.(feeSum := Add256(paid.feeSum, Fee(tx)))
  {
    hide Prepared;
    hide Validated;
    hide Counted;
    hide Run;
    hide Charge;
    hide Fee;
    hide Add256;
  }

  /** A transaction that is prepared and validated changes every balance by the sum over the roles
      that the account plays in it, sender, receiver and payer, any of which may coincide; it
      advances the sender's nonce and no other, and touches no ledger that its kind does not name. */
  lemma DeliverEffect(env: Env, begin: State, c: State, h: int, tx: Tx)
    requires Safe(env, c, h) && Sized(begin) && Sized(c)
    requires begin.gov.live == c.gov.live && begin.accts.Keys <= c.accts.Keys
    requires Governance.Whole(env.parse) && tx.amount < TWO256
    requires Prepared(env, begin, tx) && Validated(env, c, h, tx)
    ensures var c' := Deliver(env, begin, c, h, tx);
      && RestAfter(tx, c, c')
      && forall a: Address ::
           && Bal(c'.accts, a) == Bal(c.accts, a) + RunDelta(tx, a) - If(a == tx.payer, Fee(tx))
           && Get(c'.accts, a).nonce == Get(c.accts, a).nonce + If(a == tx.from, 1)
           && DocsAfter(tx, a, Get(c.accts, a), Get(c'.accts, a))
  {
    assert Supply.UpTo(c.rewards, h) && Ready(env, c, tx);
    hide Core;
    hide Governance.During;
    hide Run;
    hide Fee;
    hide CommonOk;
    hide Persists;
    hide Deliver;
    CountedIsReady(env, c, h, tx);
    var v := Counted(c, tx);
    ValidatedRuns(env, c, h, tx);
    RunEffect(env, v, h, tx);
    RunRest(env, v, h, tx);
    ChargeEffect(env, Run(env, v, h, tx).value, h, tx);
    DeliverUnfolds(env, begin, c, h, tx);
    hide Validated;
    hide Charge;
    hide Counted;
    hide RunDelta;
    hide Bal;
    hide Add256;
  }

  // ----- the fees of a block

  /** The proposer receives its percentage of the fees, rounded down, and the dead address the rest;
      both when they are the same account. */
  lemma FeeEffect(env: Env, c: State, h: int, proposer: Address)
    requires Core(env, c, h)
    ensures SplitFees(c, proposer).Success?
    ensures var m' := SplitFees(c, proposer).value.accts;
      var part := ProposerPart(c.feeSum, Param(c, TX_FEE_REWARD_RATE));
      && part == c.feeSum * Param(c, TX_FEE_REWARD_RATE) / 100 <= c.feeSum
      && forall a: Address :: SameButBalance(Get(c.accts, a), Get(m', a))
           && Bal(m', a) == Bal(c.accts, a) + If(a == proposer, part) + If(a == Param(c, DEAD_ADDRESS), c.feeSum - part)
  {
    FeeBound(env, c, h);
    Bounds(env, c, h);
    var rate, dead := Param(c, TX_FEE_REWARD_RATE), Param(c, DEAD_ADDRESS);
    PartIsExact(c.feeSum, rate);
    hide Core;
    hide Sub256;
    hide ProposerPart;
    var part := ProposerPart(c.feeSum, rate);
    if c.feeSum > 0 {
      FeeParts(c.feeSum, rate);
      CreditMoves(c.accts, proposer, part);
      CreditAdds(c.accts, proposer, part);
      var m := AddBalance(c.accts, proposer, part).value;
      CreditMoves(m, dead, c.feeSum - part);
      hide AddBalance;
    }
  }

  lemma PartIsExact(fees: nat, rate: nat)
    requires fees < TWO255 / 100 && rate <= 100
    ensures ProposerPart(fees, rate) == fees * rate / 100
  {
    hide ProposerPart;
    Monotone(fees, rate, 100);
    PartOfProduct(fees, rate, fees * rate);
  }

  lemma PartOfProduct(fees: nat, rate: nat, x: nat)
    requires x == fees * rate && x < TWO256
    ensures ProposerPart(fees, rate) == x / 100
  {
  }

  // ----- the rewards of a cycle

  /** What a list of payments holds for one address. */
  function PaidTo(pays: seq<(Address, nat)>, a: Address): nat {
    if pays == [] then 0 else (if pays[0].0 == a then pays[0].1 else 0) + PaidTo(pays[1..], a)
  }

  lemma PayEffect(rs: Supply.Rewards, b: Address, amt: nat, h: int)
    requires Supply.UpTo(rs, h) && h >= 0 && Supply.Cumulated(rs) + amt < TWO256
    ensures var r := Supply.Change(Supply.RewardOf(rs, b), Supply.Issue, amt, h);
      && r.cumulated == Supply.RewardOf(rs, b).cumulated + amt && r.height <= h
      && Supply.Cumulated(rs[b := r]) == Supply.Cumulated(rs) + amt
  {
    Supply.CumulatedWithin(rs, b);
    TotalUpdate(rs, Supply.CumulatedOf, b, Supply.Change(Supply.RewardOf(rs, b), Supply.Issue, amt, h));
  }

  /** A distribution adds to every cumulated reward what the list pays that address, once for each
      time it is listed. */
  lemma {:induction false} DistributeEffect(rs: Supply.Rewards, pays: seq<(Address, nat)>, h: int, a: Address)
    requires Supply.UpTo(rs, h) && h >= 0 && Supply.Cumulated(rs) + Supply.PaySum(pays) < TWO256
    ensures Supply.RewardOf(Supply.Distribute(rs, pays, h), a).cumulated
          == Supply.RewardOf(rs, a).cumulated + PaidTo(pays, a)
    decreases |pays|
  {
    hide Supply.Cumulated;
    if pays != [] {
      var b, amt := pays[0].0, pays[0].1;
      PayEffect(rs, b, amt, h);
      hide Supply.Change;
      DistributeEffect(rs[b := Supply.Change(Supply.RewardOf(rs, b), Supply.Issue, amt, h)], pays[1..], h, a);
    }
  }
}
