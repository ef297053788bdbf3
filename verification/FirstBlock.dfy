/** The first block. The power limiter is reset at the end of a block, or at its beginning when the
    block carries votes of a last commit; the first block carries none, so it runs on an empty
    limiter. InitLedger leaves the genesis validators' objects shared between the ledger and the
    validator list until the first Commit; because nothing can change a stake before, nobody can
    tell. */
module FirstBlock {
  import opened Base
  import opened Stake
  import opened StakeInvariants
  import opened Chain
  import opened ChainInvariant
  import opened Conservation
  import opened Effects
  import opened Runs
  import Governance
  import Limiter
  import Supply
  import Validation

  /** A limiter with rate 0 accepts no addition, and no removal of all the power that is left. */
  lemma LockedLimiterRejects(l: Limiter.Counters, power: int, op: Limiter.PowerOp)
    requires Limiter.Bounded(l) && l.allowRate == 0 && Limiter.Sensible(Limiter.Request(power, op))
    requires op.SubPower? ==> power >= l.last - l.subbing
    ensures !WithinLimit(l, power, op)
  {
    Limiter.AcceptedIffWithinRate(l, Limiter.Request(power, op));
    hide Limiter.Check;
    assert l.allowRate * Limiter.NewTotal(l, power, op) == 0;
  }

  /** An empty limiter accepts no change at all. */
  lemma EmptyLimiterRejects(l: Limiter.Counters, power: int, op: Limiter.PowerOp)
    requires l == Limiter.ResetTo(0, 0) && power >= 0 && (op.AddPower? ==> power > 0)
    ensures !WithinLimit(l, power, op)
  {
    hide *;
    EmptyIsBounded(l);
    assert Limiter.Sensible(Limiter.Request(power, op)) by { AnyIsSensible(power, op); }
    LockedLimiterRejects(l, power, op);
  }

  lemma EmptyIsBounded(l: Limiter.Counters)
    requires l == Limiter.ResetTo(0, 0)
    ensures Limiter.Bounded(l) && l.allowRate == 0 && l.last == 0 && l.subbing == 0
  {
  }

  lemma AnyIsSensible(power: int, op: Limiter.PowerOp)
    requires power >= 0 && (op.AddPower? ==> power > 0)
    ensures Limiter.Sensible(Limiter.Request(power, op))
  {
  }

  /** The limiter stands at rate 0, and no chunk is smaller than all the power that is left in it. */
  ghost predicate Locked(c: State) {
    && Limiter.Bounded(c.limiter) && c.limiter.allowRate == 0
    && forall l <- c.stakes.vpowers :: forall ch <- c.stakes.vpowers[l].chunks ::
         ch.power >= c.limiter.last - c.limiter.subbing
  }

  lemma EmptyIsLocked(c: State)
    requires Consistent(c.stakes) && c.limiter == Limiter.ResetTo(0, 0)
    ensures Locked(c)
  {
    hide Limiter.ResetTo;
    hide Limiter.Bounded;
    hide Consistent;
    EmptyIsBounded(c.limiter);
    ChunksNonNegative(c.stakes);
  }

  lemma ChunksNonNegative(s: Stakes)
    requires Consistent(s)
    ensures forall l <- s.vpowers :: forall ch <- s.vpowers[l].chunks :: ch.power >= 0
  {
    ConsistentParts(s);
    forall l <- s.vpowers, ch <- s.vpowers[l].chunks ensures ch.power >= 0 { assert VPowerOk(s.vpowers[l]); }
  }

  lemma NoStakeChange(env: Env, begin: State, c: State, h: int, tx: Tx)
    requires Safe(env, c, h) && Sized(begin) && Sized(c)
    requires begin.gov.live == c.gov.live && begin.accts.Keys <= c.accts.Keys
    requires Governance.Whole(env.parse) && tx.amount < TWO256 && Locked(c)
    ensures var c' := Deliver(env, begin, c, h, tx); c'.stakes == c.stakes && c'.limiter == c.limiter
  {
    assert Supply.UpTo(c.rewards, h);
    hide Core;
    hide Governance.During;
    hide Validated;
    hide Locked;
    if Prepared(env, begin, tx) && Validated(env, c, h, tx) {
      NoPowerChange(env, c, h, tx);
      DeliverEffect(env, begin, c, h, tx);
      hide Deliver;
    }
  }

  lemma NoPowerChange(env: Env, c: State, h: int, tx: Tx)
    requires Safe(env, c, h) && Sized(c) && tx.from in c.accts && tx.payer in c.accts && Validated(env, c, h, tx)
    requires Locked(c)
    ensures !tx.kind.Staking? && !tx.kind.Unstaking?
  {
    hide Consistent;
    hide CommonOk;
    hide SelfRate;
    hide WithinLimit;
    hide StakingPower;
    hide Limiter.Bounded;
    match tx.kind
    case Staking =>
      LockedLimiterRejects(c.limiter, StakingPower(tx.amount), Limiter.AddPower);
    case Unstaking(target) =>
      var cs := c.stakes.vpowers[Link(tx.from, tx.to)].chunks;
      Validation.FoundPowerOk(c.stakes, Link(tx.from, tx.to), target);
      FoundIsListed(cs, target);
      LockedLimiterRejects(c.limiter, FirstChunk(cs, target).value.power, Limiter.SubPower);
    case _ =>
  }

  lemma FoundIsListed(cs: seq<Chunk>, target: Hash)
    ensures FirstChunk(cs, target).Some? ==> FirstChunk(cs, target).value in cs
  {
  }

  lemma {:induction false} NoStakeChanges(env: Env, begin: State, c: State, h: int, txs: seq<Tx>)
    requires Safe(env, c, h) && Sized(begin) && Sized(c)
    requires begin.gov.live == c.gov.live && begin.accts.Keys <= c.accts.Keys
    requires Governance.Whole(env.parse) && TxsFit(txs) && Locked(c)
    ensures DeliverAll(env, begin, c, h, txs).stakes == c.stakes
    decreases |txs|
  {
    assert Supply.UpTo(c.rewards, h);
    hide Deliver;
    hide Core;
    hide Governance.During;
    if txs != [] {
      assert txs[0] in txs;
      DeliverIsSafe(env, begin, c, h, txs[0]);
      NoStakeChange(env, begin, c, h, txs[0]);
      NoStakeChanges(env, begin, Deliver(env, begin, c, h, txs[0]), h, txs[1..]);
    }
  }

  lemma QuietBegin(env: Env, c: State, h: int, b: Block)
    requires Starts(env, c, h) && b.byzantine == [] && b.votes == []
    ensures Begun(env, c, h, b).stakes == c.stakes && Begun(env, c, h, b).limiter == c.limiter
  {
    var c0 := FreshBlock(env, c, h, b);
    assert c0.limiter == c.limiter && SlashEach(c0, []) == Success(c0) && CountBlockVotes(c0, h, []) == Success(c0);
    hide FreshBlock;
    hide Core;
  }

  lemma GenesisLimiter(g: GenesisDoc)
    requires InitialSupply(g) >= 0
    ensures InitChain(g).limiter == Limiter.ResetTo(0, 0) && InitChain(g).stakes == Genesis(EMPTY, g.vals)
  {
  }

  /** In the first block, without evidence or votes, every staking and unstaking transaction is
      rejected: the stakes at its end are the genesis stakes. */
  lemma FirstBlockKeepsStakes(env: Env, g: GenesisDoc, c: State, b: Block)
    requires InitialSupply(g) >= 0 && c == InitChain(g) && Starts(env, c, 1)
    requires TxsFit(b.txs) && b.byzantine == [] && b.votes == []
    ensures Executed(env, c, 1, b).stakes == Genesis(EMPTY, g.vals)
  {
    hide InitChain;
    hide InitialSupply;
    hide Genesis;
    hide Begun;
    hide Consistent;
    hide Locked;
    hide Limiter.ResetTo;
    hide Governance.During;
    GenesisLimiter(g);
    QuietBegin(env, c, 1, b);
    var begin := Begun(env, c, 1, b);
    assert Consistent(begin.stakes);
    hide Core;
    EmptyIsLocked(begin);
    NoStakeChanges(env, begin, begin, 1, b.txs);
  }
}
