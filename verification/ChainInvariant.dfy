/** The invariant of the chain between the transactions of a block, and what it bounds. */
module ChainInvariant {
  import opened Base
  import opened Sums
  import opened Accounts
  import opened Stake
  import opened StakeInvariants
  import opened StakeOwners
  import Delegations
  import opened Chain
  import Supply
  import Limiter
  import Governance

  /** Parameters under which the arithmetic of the source stays in range. */
  predicate GoodParams(p: Params) {
    && |p| == Governance.FIELDS
    && 0 <= p[Governance.SLASH_RATE] <= 100 && 0 <= p[TX_FEE_REWARD_RATE] <= 100 && 0 <= p[VALIDATOR_REWARD_RATE] <= 100
    && p[LAZY_UNBONDING_BLOCKS] >= 0 && p[INFLATION_CYCLE_BLOCKS] > 0
    && p[MAX_UPDATABLE_POWER_RATE] >= 0 && p[MAX_VALIDATOR_CNT] >= 0
    && p[DEAD_ADDRESS] >= 0 && p[MIN_TRX_GAS] >= 0 && 0 <= p[GAS_PRICE] < TWO191 && 0 <= p[BLOCK_GAS_LIMIT] < TWO63
    && 0 <= p[MAX_TOTAL_SUPPLY] && 100 * p[MAX_TOTAL_SUPPLY] < PowerToAmount(TWO63)
  }

  /** Everything that is worth something. */
  ghost function Wealth(c: State): int {
    Money(c.accts) + PowerToAmount(Bonded(c.stakes) + FrozenPower(c.stakes)) + Supply.Cumulated(c.rewards) + c.feeSum
  }

  ghost predicate StakesOk(env: Env, c: State, h: int) {
    Consistent(c.stakes) && Recorded(c.stakes, c.accts.Keys, env.addrOf) && DueAfter(c.stakes, h - 1)
  }

  ghost predicate MoneyOk(c: State) {
    |c.gov.live| == Governance.FIELDS && Wealth(c) == c.supply <= Param(c, MAX_TOTAL_SUPPLY)
  }

  /** Everything but the proposals. */
  ghost predicate Core(env: Env, c: State, h: int) {
    && GoodParams(c.gov.live) && h >= 1
    && StakesOk(env, c, h)
    && MoneyOk(c)
    && Supply.UpTo(c.rewards, h)
    && Limiter.Bounded(c.limiter)
    && Governance.Electorate(Voters(env, c.validators))
    && 0 <= c.gasLeft <= Param(c, BLOCK_GAS_LIMIT)
  }

  ghost predicate Safe(env: Env, c: State, h: int) { Core(env, c, h) && Governance.During(env.parse, c.gov, h) }

  lemma SafeIsSized(env: Env, c: State, h: int)
    requires Safe(env, c, h)
    ensures Sized(c)
  {
    forall k <- c.gov.props ensures Governance.Shape(c.gov.props[k]) {
      assert Governance.OpenOk(env.parse, c.gov.props[k], h - 1);
    }
  }

  // ----- bounds

  lemma PowersNonNegative(s: Stakes)
    requires Consistent(s)
    ensures Bonded(s) >= 0 && FrozenPower(s) >= 0
  {
    ConsistentParts(s);
    forall l <- s.vpowers ensures Power(s.vpowers[l]) >= 0 {
      assert VPowerOk(s.vpowers[l]);
      ChunkSumNonNegative(s.vpowers[l].chunks);
    }
    forall k <- s.frozen ensures RefundOf(s.frozen[k]) >= 0 {
      assert FrozenOk(s.frozen[k]);
      ChunkSumNonNegative(s.frozen[k].chunks);
    }
    TotalAtLeastPart(s.vpowers, Power, Link(0, 0));
    TotalAtLeastPart(s.frozen, RefundOf, Due(0, 0));
  }

  /** Each part of the wealth is non-negative and far below the width of its type. */
  lemma Bounds(env: Env, c: State, h: int)
    requires Core(env, c, h)
    ensures 0 <= Money(c.accts) < TWO255 && 0 <= Supply.Cumulated(c.rewards) < TWO255
    ensures 0 <= Bonded(c.stakes) && 0 <= FrozenPower(c.stakes)
    ensures 100 * (Bonded(c.stakes) + FrozenPower(c.stakes)) < TWO63
    ensures Wealth(c) < TWO255 && PowerToAmount(Bonded(c.stakes)) >= 0 && PowerToAmount(FrozenPower(c.stakes)) >= 0
    ensures PowerToAmount(Bonded(c.stakes) + FrozenPower(c.stakes))
          == PowerToAmount(Bonded(c.stakes)) + PowerToAmount(FrozenPower(c.stakes))
  {
    PowersNonNegative(c.stakes);
    BalanceWithinMoney(c.accts, 0);
    Supply.CumulatedWithin(c.rewards, 0);
  }

  /** The share of its own power that a delegation would leave a delegatee is computed exactly. */
  lemma SelfRateExact(env: Env, c: State, h: int, a: Address, power: int)
    requires Core(env, c, h) && a in c.stakes.delegatees && PowerOk(power) && power > 0
    ensures var d := c.stakes.delegatees[a];
      Add64(d.sum, power) == d.sum + power > 0 && SelfRate(d, power) == d.self * 100 / (d.sum + power)
  {
    Bounds(env, c, h);
    Delegations.OneWithinBonded(c.stakes, a);
    hide Core;
  }

  lemma FeeExact(c: State, tx: Tx)
    requires GoodParams(c.gov.live) && c.gasLeft <= Param(c, BLOCK_GAS_LIMIT)
    requires tx.gasPrice == Param(c, GAS_PRICE) && tx.gas <= c.gasLeft
    ensures Fee(tx) == tx.gasPrice * tx.gas <= TWO255
  {
    Monotone(tx.gasPrice, tx.gas, TWO63);
    assert tx.gasPrice * TWO63 < TWO255;
  }

  lemma FeeSmall(c: State, tx: Tx)
    requires GoodParams(c.gov.live) && c.gasLeft <= Param(c, BLOCK_GAS_LIMIT)
    requires tx.gasPrice == Param(c, GAS_PRICE) && tx.gas <= c.gasLeft
    ensures Fee(tx) <= TWO255
  {
    FeeExact(c, tx);
  }

  lemma Monotone(p: nat, a: nat, b: nat)
    requires a <= b
    ensures p * a <= p * b
  {
    assert p * (b - a) >= 0;
    assert p * (b - a) == p * b - p * a;
  }
}
