/** A transaction that passes validation runs without error, can pay its fee and leaves the chain's
    invariant intact, whichever of sender, receiver and payer are the same account. */
module Validation {
  import opened Base
  import opened Accounts
  import opened Stake
  import opened StakeInvariants
  import opened StakeOwners
  import opened Chain
  import opened ChainInvariant
  import Supply
  import Limiter
  import Governance
  import Ballot

  /** What preparation established at the beginning of the block still holds. */
  predicate Ready(env: Env, c: State, tx: Tx)
    requires |c.gov.live| == Governance.FIELDS
  {
    && !Negative(tx.amount) && tx.amount < TWO256 && tx.gasPrice == Param(c, GAS_PRICE)
    && env.addrOf(tx.pubKey) == tx.from && tx.from in c.accts && tx.payer in c.accts
  }

  predicate Affords(c: State, tx: Tx) {
    tx.from in c.accts && tx.payer in c.accts && Fee(tx) <= c.accts[tx.payer].balance
  }

  /** The balances that validation has checked, without wrap-around. */
  predicate Covers(c: State, tx: Tx)
    requires tx.from in c.accts && tx.payer in c.accts
  {
    if tx.from != tx.payer then Fee(tx) <= c.accts[tx.payer].balance && tx.amount <= c.accts[tx.from].balance
    else Fee(tx) + tx.amount <= c.accts[tx.from].balance
  }

  lemma CommonCovers(env: Env, c: State, h: int, tx: Tx)
    requires Core(env, c, h) && Ready(env, c, tx) && CommonOk(c, tx)
    ensures Covers(c, tx) && tx.amount < TWO255 && tx.gas <= c.gasLeft
  {
    FeeSmall(c, tx);
    NoWrapSum(Fee(tx), tx.amount);
    hide Fee;
    hide Add256;
    hide Negative;
    hide StakesOk;
    hide MoneyOk;
    hide Limiter.Bounded;
    hide Governance.Electorate;
  }

  lemma NoWrapSum(fee: nat, amount: nat)
    requires fee <= TWO255 && !Negative(amount) && amount < TWO256
    ensures amount < TWO255 && Add256(fee, amount) == fee + amount
  {
  }

  /** The core invariant of a state that agrees with `c` on wealth and on what `c` promises. */
  lemma Rebuild(env: Env, c: State, c': State, h: int)
    requires Core(env, c, h) && c'.gov.live == c.gov.live && c'.supply == c.supply && Wealth(c') == Wealth(c)
    requires StakesOk(env, c', h) && Supply.UpTo(c'.rewards, h) && Limiter.Bounded(c'.limiter)
    requires c'.validators == c.validators && c'.gasLeft == c.gasLeft
    ensures Core(env, c', h)
  {
  }

  lemma AccountsGrow(env: Env, c: State, m: Accts, h: int)
    requires StakesOk(env, c, h) && c.accts.Keys <= m.Keys
    ensures StakesOk(env, c.(accts := m), h)
  {
    hide Consistent;
  }

  /** What running a transaction leaves behind. */
  ghost predicate RanWell(env: Env, c: State, c': State, h: int, tx: Tx) {
    && Safe(env, c', h) && Affords(c', tx) && c'.gasLeft == c.gasLeft && c'.feeSum == c.feeSum
    && c.accts.Keys <= c'.accts.Keys && c'.supply == c.supply && c'.gov.live == c.gov.live
    && c'.validators == c.validators && Persists(c.stakes.frozen, c'.stakes.frozen)
    && c'.stakes.missed == c.stakes.missed
  }

  lemma TransferRuns(env: Env, c: State, h: int, tx: Tx)
    requires Safe(env, c, h) && Sized(c) && Ready(env, c, tx) && CommonOk(c, tx) && tx.kind.Transfer?
    ensures Run(env, c, h, tx).Some? && RanWell(env, c, Run(env, c, h, tx).value, h, tx)
  {
    Bounds(env, c, h);
    CommonCovers(env, c, h, tx);
    TransferMoves(c.accts, tx.from, tx.to, tx.amount);
    var c' := Run(env, c, h, tx).value;
    AccountsGrow(env, c, c'.accts, h);
    Rebuild(env, c, c', h);
  }

  lemma SetDocRuns(env: Env, c: State, h: int, tx: Tx)
    requires Safe(env, c, h) && Sized(c) && Ready(env, c, tx) && CommonOk(c, tx) && tx.kind.SetDoc?
    ensures Run(env, c, h, tx).Some? && RanWell(env, c, Run(env, c, h, tx).value, h, tx)
  {
    CommonCovers(env, c, h, tx);
    var x := c.accts[tx.from].(name := tx.kind.name, url := tx.kind.url);
    MoneyUpdate(c.accts, tx.from, x);
    MoneyUpdate(c.accts[tx.from := x], tx.to, Get(c.accts[tx.from := x], tx.to));
    var c' := Run(env, c, h, tx).value;
    AccountsGrow(env, c, c'.accts, h);
    Rebuild(env, c, c', h);
  }

  lemma PowerOfAmount(amount: nat)
    requires 100 * amount < PowerToAmount(TWO63) && amount % AMOUNT_PER_POWER == 0
    ensures PowerToAmount(StakingPower(amount)) == amount && PowerOk(StakingPower(amount))
  {
  }

  lemma BondsWell(env: Env, c: State, h: int, tx: Tx)
    requires StakesOk(env, c, h) && tx.from in c.accts && env.addrOf(tx.pubKey) == tx.from
    requires PowerOk(StakingPower(tx.amount))
    requires tx.to in c.stakes.delegatees || tx.from == tx.to
    ensures var r := Bond(c.stakes, tx.pubKey, tx.from, tx.to, Chunk(StakingPower(tx.amount), h, tx.hash));
      && r.Success? && StakesOk(env, c.(stakes := r.value), h)
      && Bonded(r.value) == Bonded(c.stakes) + StakingPower(tx.amount) && r.value.frozen == c.stakes.frozen
      && r.value.missed == c.stakes.missed
  {
    var ch := Chunk(StakingPower(tx.amount), h, tx.hash);
    BondKeepsBooks(c.stakes, tx.pubKey, tx.from, tx.to, ch);
    BondKeepsRecords(c.stakes, tx.pubKey, tx.from, tx.to, ch, c.accts.Keys, env.addrOf);
  }

  lemma StakingPays(env: Env, c: State, h: int, tx: Tx)
    requires Core(env, c, h) && Ready(env, c, tx) && CommonOk(c, tx) && tx.amount % AMOUNT_PER_POWER == 0
    ensures PowerToAmount(StakingPower(tx.amount)) == tx.amount && PowerOk(StakingPower(tx.amount))
    ensures Money(c.accts) < TWO255
    ensures SubBalance(c.accts, tx.from, tx.amount).Success?
    ensures var m := SubBalance(c.accts, tx.from, tx.amount).value;
      Money(m) == Money(c.accts) - tx.amount && m.Keys == c.accts.Keys && Affords(c.(accts := m), tx)
  {
    Bounds(env, c, h);
    CommonCovers(env, c, h, tx);
    BalanceWithinMoney(c.accts, tx.from);
    PowerOfAmount(tx.amount);
    DebitTakes(c.accts, tx.from, tx.amount);
  }

  lemma StakingRuns(env: Env, c: State, h: int, tx: Tx)
    requires Safe(env, c, h) && Sized(c) && Ready(env, c, tx) && CommonOk(c, tx) && tx.kind.Staking?
    requires tx.amount % AMOUNT_PER_POWER == 0 && (tx.to in c.stakes.delegatees || tx.from == tx.to)
    ensures Run(env, c, h, tx).Some? && RanWell(env, c, Run(env, c, h, tx).value, h, tx)
  {
    hide Consistent;
    hide Bond;
    StakingPays(env, c, h, tx);
    BondsWell(env, c, h, tx);
    hide SubBalance;
    hide StakingPower;
    hide Fee;
    var r := Bond(c.stakes, tx.pubKey, tx.from, tx.to, Chunk(StakingPower(tx.amount), h, tx.hash)).value;
    var m := SubBalance(c.accts, tx.from, tx.amount).value;
    AccountsGrow(env, c.(stakes := r), m, h);
    Rebuild(env, c, Run(env, c, h, tx).value, h);
  }

  lemma UnbondsWell(env: Env, c: State, h: int, from: Address, to: Address, target: Hash, refundHeight: int)
    requires StakesOk(env, c, h) && refundHeight >= h && Unbondable(c.stakes, from, to, target)
    ensures var r := Unbond(c.stakes, from, to, target, refundHeight);
      && r.Success? && StakesOk(env, c.(stakes := r.value), h)
      && Bonded(r.value) + FrozenPower(r.value) == Bonded(c.stakes) + FrozenPower(c.stakes)
      && Persists(c.stakes.frozen, r.value.frozen) && r.value.missed == c.stakes.missed
  {
    hide Consistent;
    UnbondKeepsBooks(c.stakes, from, to, target, refundHeight);
    UnbondKeepsRecords(c.stakes, from, to, target, refundHeight, c.accts.Keys, env.addrOf);
    hide Unbond;
  }

  /** Validation finds the first chunk with the hash, execution removes the last one. */
  lemma FoundIsUnbondable(s: Stakes, from: Address, to: Address, h: Hash)
    requires to in s.delegatees && Link(from, to) in s.vpowers
    ensures FirstChunk(s.vpowers[Link(from, to)].chunks, h).Some? <==> Unbondable(s, from, to, h)
  {
    var cs := s.vpowers[Link(from, to)].chunks;
    if FirstChunk(cs, h).Some? { assert FirstChunk(cs, h).value in cs; }
    if LastChunk(cs, h) >= 0 { assert cs[LastChunk(cs, h)] in cs; }
  }

  lemma UnstakingRuns(env: Env, c: State, h: int, tx: Tx)
    requires Safe(env, c, h) && Sized(c) && Ready(env, c, tx) && CommonOk(c, tx) && tx.kind.Unstaking?
    requires tx.to in c.stakes.delegatees && Link(tx.from, tx.to) in c.stakes.vpowers
    requires FirstChunk(c.stakes.vpowers[Link(tx.from, tx.to)].chunks, tx.kind.target).Some?
    ensures Run(env, c, h, tx).Some? && RanWell(env, c, Run(env, c, h, tx).value, h, tx)
  {
    hide Consistent;
    hide Unbond;
    hide FirstChunk;
    hide LastChunk;
    hide Unbondable;
    CommonCovers(env, c, h, tx);
    FoundIsUnbondable(c.stakes, tx.from, tx.to, tx.kind.target);
    UnbondsWell(env, c, h, tx.from, tx.to, tx.kind.target, h + Param(c, LAZY_UNBONDING_BLOCKS));
    Rebuild(env, c, Run(env, c, h, tx).value, h);
  }

  lemma WithdrawRuns(env: Env, c: State, h: int, tx: Tx)
    requires Safe(env, c, h) && Sized(c) && Ready(env, c, tx)
    requires CommonOk(c, tx) && tx.kind.Withdraw? && WithdrawOk(c, tx)
    ensures Run(env, c, h, tx).Some? && RanWell(env, c, Run(env, c, h, tx).value, h, tx)
  {
    hide Consistent;
    hide Supply.WithdrawFrom;
    hide Governance.During;
    hide Limiter.Bounded;
    Bounds(env, c, h);
    CommonCovers(env, c, h, tx);
    Supply.CumulatedWithin(c.rewards, tx.from);
    Supply.WithdrawalTakes(c.rewards, tx.from, tx.kind.req, h);
    CreditAdds(c.accts, tx.from, tx.kind.req);
    var c' := Run(env, c, h, tx).value;
    AccountsGrow(env, c, c'.accts, h);
    Rebuild(env, c, c', h);
  }

  lemma GovRuns(env: Env, c: State, h: int, tx: Tx)
    requires Safe(env, c, h) && Sized(c) && Ready(env, c, tx) && CommonOk(c, tx) && Governance.Whole(env.parse)
    requires tx.kind.Proposal? || (tx.kind.Voting? && Governance.CanVote(c.gov, h, GovTx(tx)))
    ensures Run(env, c, h, tx).Some? && RanWell(env, c, Run(env, c, h, tx).value, h, tx)
  {
    CommonCovers(env, c, h, tx);
    Governance.ExecuteKeeps(env.parse, c.gov, h, Voters(env, c.validators), GovTx(tx));
    if tx.kind.Voting? { Ballot.FoundIsVoter(c.gov.props[tx.kind.proposal].ballot.voters, tx.from); }
    Rebuild(env, c, Run(env, c, h, tx).value, h);
  }

  ghost predicate CountedWell(env: Env, c: State, v: State, h: int) {
    Safe(env, v, h) && Sized(v) && v == c.(limiter := v.limiter) && Supply.UpTo(v.rewards, h)
  }

  lemma WithLimiter(env: Env, c: State, h: int, l: Limiter.Counters)
    requires Safe(env, c, h) && Sized(c) && Limiter.Bounded(l)
    ensures CountedWell(env, c, c.(limiter := l), h)
  {
    hide Consistent;
    hide Limiter.Bounded;
    Rebuild(env, c, c.(limiter := l), h);
  }

  lemma StakingCounts(env: Env, c: State, h: int, tx: Tx)
    requires Safe(env, c, h) && Sized(c) && tx.kind.Staking? && StakingPower(tx.amount) > 0
    ensures Limiter.Divides(c.limiter, StakingPower(tx.amount), Limiter.AddPower)
    ensures CountedWell(env, c, Counted(c, tx), h)
  {
    hide StakingPower;
    Limiter.ServeOne(c.limiter, Limiter.Request(StakingPower(tx.amount), Limiter.AddPower));
    WithLimiter(env, c, h, Limiter.Apply(c.limiter, StakingPower(tx.amount), Limiter.AddPower));
  }

  lemma FoundPowerOk(s: Stakes, l: Link, h: Hash)
    requires Consistent(s) && l in s.vpowers && FirstChunk(s.vpowers[l].chunks, h).Some?
    ensures PowerOk(FirstChunk(s.vpowers[l].chunks, h).value.power)
  {
    ConsistentParts(s);
    assert VPowerOk(s.vpowers[l]);
  }

  lemma UnstakingCounts(env: Env, c: State, h: int, tx: Tx)
    requires Safe(env, c, h) && Sized(c) && tx.kind.Unstaking? && UnstakingOk(c, tx)
    ensures CountedWell(env, c, Counted(c, tx), h)
  {
    hide Consistent;
    hide FirstChunk;
    hide Limiter.Check;
    hide Limiter.Bounded;
    hide Limiter.Divides;
    hide Governance.During;
    FoundPowerOk(c.stakes, Link(tx.from, tx.to), tx.kind.target);
    var pc := FirstChunk(c.stakes.vpowers[Link(tx.from, tx.to)].chunks, tx.kind.target).value;
    Limiter.ServeOne(c.limiter, Limiter.Request(pc.power, Limiter.SubPower));
    WithLimiter(env, c, h, Limiter.Apply(c.limiter, pc.power, Limiter.SubPower));
  }

  lemma CountingKeepsLimiter(env: Env, c: State, h: int, tx: Tx)
    requires Safe(env, c, h) && Sized(c) && tx.from in c.accts && tx.payer in c.accts && Validated(env, c, h, tx)
    ensures tx.kind.Staking? ==> Limiter.Divides(c.limiter, StakingPower(tx.amount), Limiter.AddPower)
    ensures CountedWell(env, c, Counted(c, tx), h)
  {
    hide Consistent;
    match tx.kind
    case Staking => StakingCounts(env, c, h, tx);
    case Unstaking(_) => UnstakingCounts(env, c, h, tx);
    case _ =>
  }

  /** Every validated transaction, of every kind that the EVM does not handle. */
  lemma ValidatedRuns(env: Env, c: State, h: int, tx: Tx)
    requires Sized(c) && Ready(env, c, tx) && Validated(env, c, h, tx) && Governance.Whole(env.parse)
    requires tx.kind.Staking? ==> Limiter.Divides(c.limiter, StakingPower(tx.amount), Limiter.AddPower)
    requires CountedWell(env, c, Counted(c, tx), h)
    ensures Run(env, Counted(c, tx), h, tx).Some? && RanWell(env, c, Run(env, Counted(c, tx), h, tx).value, h, tx)
  {
    hide Consistent;
    hide Run;
    hide Core;
    hide Governance.During;
    var v := Counted(c, tx);
    assert CommonOk(v, tx) && Ready(env, v, tx);
    match tx.kind
    case Transfer => TransferRuns(env, v, h, tx);
    case SetDoc(_, _) => SetDocRuns(env, v, h, tx);
    case Staking => StakingRuns(env, v, h, tx);
    case Unstaking(_) => UnstakingRuns(env, v, h, tx);
    case Withdraw(_) => WithdrawRuns(env, v, h, tx);
    case Proposal(_) => GovRuns(env, v, h, tx);
    case Voting(_, _) => GovRuns(env, v, h, tx);
  }

  /** The fee can be taken, and what is taken is what is recorded. */
  lemma ChargeIsSafe(env: Env, c: State, h: int, tx: Tx)
    requires Safe(env, c, h) && Affords(c, tx) && tx.gas <= c.gasLeft
    ensures Charge(c, tx).Some?
    ensures var c' := Charge(c, tx).value;
      && c'.accts.Keys == c.accts.Keys && c'.gasLeft == c.gasLeft - tx.gas
      && Safe(env, c'.(feeSum := Add256(c'.feeSum, Fee(tx))), h)
      && c'.accts[tx.from].nonce == c.accts[tx.from].nonce + 1
  {
    hide Consistent;
    hide Fee;
    hide Limiter.Bounded;
    hide Governance.Electorate;
    hide Governance.During;
    Bounds(env, c, h);
    BalanceWithinMoney(c.accts, tx.payer);
    DebitTakes(c.accts, tx.payer, Fee(tx));
    var m := SubBalance(c.accts, tx.payer, Fee(tx)).value;
    var x := m[tx.from];
    MoneyUpdate(m, tx.from, x.(nonce := x.nonce + 1));
    var c' := Charge(c, tx).value;
    assert c'.accts.Keys == c.accts.Keys;
    var paid := c'.(feeSum := Add256(c'.feeSum, Fee(tx)));
    AccountsGrow(env, c, c'.accts, h);
    assert Wealth(paid) == Wealth(c);
  }

  /** Validation suffices: a transaction that is prepared and validated runs without error, its gas
      fits the block, its fee is taken in full and recorded, and the invariant holds again. */
  lemma ValidationSuffices(env: Env, begin: State, c: State, h: int, tx: Tx)
    requires Safe(env, c, h) && Sized(begin) && Sized(c)
    requires begin.gov.live == c.gov.live && begin.accts.Keys <= c.accts.Keys
    requires Governance.Whole(env.parse) && tx.amount < TWO256
    requires Prepared(env, begin, tx) && Validated(env, c, h, tx)
    ensures tx.kind.Staking? ==> Limiter.Divides(c.limiter, StakingPower(tx.amount), Limiter.AddPower)
    ensures Sized(Counted(c, tx))
    ensures var r := Run(env, Counted(c, tx), h, tx);
      && r.Some? && tx.from in r.value.accts && tx.payer in r.value.accts && Charge(r.value, tx).Some?
    ensures var c' := Deliver(env, begin, c, h, tx);
      && Safe(env, c', h) && c'.gasLeft == c.gasLeft - tx.gas >= 0 && c'.feeSum == Add256(c.feeSum, Fee(tx))
      && c.accts.Keys <= c'.accts.Keys && c'.gov.live == c.gov.live && c'.supply == c.supply
      && c'.validators == c.validators && Persists(c.stakes.frozen, c'.stakes.frozen)
      && c'.stakes.missed == c.stakes.missed
  {
    assert Supply.UpTo(c.rewards, h);
    hide Persists;
    hide Consistent;
    hide Run;
    hide Core;
    hide Governance.During;
    assert Ready(env, c, tx);
    CountingKeepsLimiter(env, c, h, tx);
    ValidatedRuns(env, c, h, tx);
    hide Validated;
    hide Counted;
    ChargeIsSafe(env, Run(env, Counted(c, tx), h, tx).value, h, tx);
  }

  // ----- where validation would not suffice

  /** For a sender who pays the fee, a validated balance covers amount and fee exactly when their
      sum does not wrap around 2^256. */
  lemma CoversIffNoWrap(c: State, tx: Tx)
    requires tx.from in c.accts && tx.payer == tx.from && c.accts[tx.from].balance < TWO256 && CommonOk(c, tx)
    ensures Covers(c, tx) <==> Fee(tx) + tx.amount < TWO256
  {
  }

  /** With a gas price of 2^255 - 1 a transfer of 3 from an account that holds 1 is validated, and
      then fails. */
  lemma WrappedFeePassesValidation(env: Env, base: State, h: int, to: Address)
    requires Sized(base) && Supply.UpTo(base.rewards, h)
    ensures var c := base.(accts := map[1 := Acct(1, 0, "", "")], gasLeft := 2);
      var tx := Tx(Kind.Transfer, 1, to, 1, 3, 2, TWO255 - 1, 0, 0, []);
      Validated(env, c, h, tx) && Run(env, c, h, tx).None?
  {
    assert Mul256(TWO255 - 1, 2) == TWO256 - 2;
  }
}
