/** Frozen stake over every run: it waits untouched until its refund height, is then paid to its
    owner in full, and never appears again. */
module RefundRuns {
  import opened Base
  import opened Accounts
  import opened Stake
  import opened StakeEffects
  import opened StakeInvariants
  import opened Chain
  import opened ChainInvariant
  import opened Validation
  import opened Conservation
  import opened Runs
  import Governance
  import Limiter
  import Supply

  /** The refunds of height `h`, made in state `x`, keep entry `k` or, at its refund height, credit
      its owner with the power of all its chunks and remove it. */
  ghost predicate Settles(x: State, h: int, k: Due, c': State)
    requires k in x.stakes.frozen
  {
    && k.height >= h
    && (k.height > h ==> k in c'.stakes.frozen && c'.stakes.frozen[k] == x.stakes.frozen[k])
    && (k.height == h ==>
          && k !in c'.stakes.frozen && k.owner in x.accts && k.owner in c'.accts
          && c'.accts[k.owner].balance == x.accts[k.owner].balance + PowerToAmount(ChunkSum(x.stakes.frozen[k].chunks)))
  }

  /** What one block does to an entry frozen before it or, with `chunks` empty, during it: the entry
      reaches the refunds of the block with all its chunks, and is kept or paid. */
  ghost predicate RefundStep(env: Env, c: State, h: int, b: Block, k: Due, chunks: seq<Chunk>, c': State) {
    && StepTo(env, c, h, b, c') && Answered(env, c, h, b)
    && var x := RefundState(env, c, h, b);
      k in x.stakes.frozen && chunks <= x.stakes.frozen[k].chunks && Settles(x, h, k, c')
  }

  lemma EntryFacts(env: Env, x: State, h: int, k: Due)
    requires Core(env, x, h) && k in x.stakes.frozen
    ensures k.height >= h && k.owner in x.accts && x.stakes.frozen[k].refund == ChunkSum(x.stakes.frozen[k].chunks)
  {
    ConsistentParts(x.stakes);
    assert FrozenOk(x.stakes.frozen[k]);
  }

  lemma FinishRefunds(env: Env, x: State, h: int, k: Due)
    requires Core(env, x, h) && x.feeSum == 0 && k in x.stakes.frozen
    ensures Finish(x, h).Success? && Settles(x, h, k, Finish(x, h).value)
  {
    EntryFacts(env, x, h, k);
    FinishIsSafe(env, x, h);
    hide Finish;
    hide Core;
    assert k == Due(k.height, k.owner);
  }

  /** A successful block finishes its refund state. */
  lemma StepFinishes(env: Env, c: State, h: int, b: Block, c': State)
    requires StepTo(env, c, h, b, c')
    ensures Answered(env, c, h, b)
    ensures var x := RefundState(env, c, h, b);
      && Core(env, x, h) && x.feeSum == 0 && |x.gov.live| == Governance.FIELDS && Param(x, MAX_VALIDATOR_CNT) >= 0
      && Finish(x, h) == Success(c')
  {
    hide RefundState;
    hide BlockOk;
    hide MintFails;
    hide Finish;
  }

  lemma BlockRefunds(env: Env, c: State, h: int, b: Block, k: Due, c': State)
    requires StepTo(env, c, h, b, c') && k in c.stakes.frozen
    ensures RefundStep(env, c, h, b, k, c.stakes.frozen[k].chunks, c')
  {
    StepFinishes(env, c, h, b, c');
    hide Answered;
    hide StepTo;
    hide Core;
    hide Settles;
    FinishRefunds(env, RefundState(env, c, h, b), h, k);
  }

  // ----- over runs

  /** Until its refund height is reached, frozen stake waits. */
  lemma {:induction false} StakeWaits(env: Env, c: State, h: int, bs: seq<Block>, k: Due)
    requires Completes(env, c, h, bs) && k in c.stakes.frozen && h + |bs| <= k.height
    ensures var t := Final(env, c, h, bs);
      k in t.stakes.frozen && c.stakes.frozen[k].chunks <= t.stakes.frozen[k].chunks
    decreases |bs|
  {
    hide Completes;
    hide StepTo;
    hide Starts;
    hide Adopts;
    if bs == [] {
      NoBlocks(env, c, h, bs);
    } else {
      hide Final;
      var c' := FirstStep(env, c, h, bs);
      BlockRefunds(env, c, h, bs[0], k, c');
      StakeWaits(env, c', h + 1, bs[1..], k);
    }
  }

  /** In the block at its refund height entry `k`, with at least `chunks`, is paid to its owner, and
      at the end of the run it is gone. */
  ghost predicate PaidOnce(env: Env, c: State, h: int, bs: seq<Block>, k: Due, chunks: seq<Chunk>) {
    && 0 <= k.height - h < |bs|
    && var n := k.height - h;
      && RefundStep(env, Final(env, c, h, bs[..n]), k.height, bs[n], k, chunks, Final(env, c, h, bs[..n + 1]))
      && k !in Final(env, c, h, bs).stakes.frozen
  }

  lemma FinalStep(env: Env, c: State, h: int, bs: seq<Block>, c': State)
    requires bs != [] && StepTo(env, c, h, bs[0], c')
    ensures Final(env, c, h, bs) == Final(env, c', h + 1, bs[1..])
  {
    hide Starts;
    hide RunBlock;
    hide BlockOk;
  }

  lemma NothingRun(env: Env, c: State, h: int) ensures Final(env, c, h, []) == c {}

  lemma PaidNow(env: Env, c: State, h: int, bs: seq<Block>, k: Due, chunks: seq<Chunk>, c': State)
    requires Completes(env, c, h, bs) && bs != [] && k.height == h && StepTo(env, c, h, bs[0], c')
    requires RefundStep(env, c, h, bs[0], k, chunks, c')
    ensures PaidOnce(env, c, h, bs, k, chunks)
  {
    hide Completes;
    hide Final;
    hide StepTo;
    hide Starts;
    hide RefundStep;
    assert bs[..0] == [] && bs[..1][1..] == [] && bs[..1][0] == bs[0];
    NothingRun(env, c, h);
    NothingRun(env, c', h + 1);
    FinalStep(env, c, h, bs[..1], c');
    TokensAreConserved(env, c, h, bs);
  }

  lemma PaidLater(env: Env, c: State, h: int, bs: seq<Block>, k: Due, chunks: seq<Chunk>, c': State)
    requires bs != [] && StepTo(env, c, h, bs[0], c') && PaidOnce(env, c', h + 1, bs[1..], k, chunks)
    ensures PaidOnce(env, c, h, bs, k, chunks)
  {
    hide Final;
    hide StepTo;
    hide RefundStep;
    var n := k.height - h;
    assert bs[1..][n - 1] == bs[n] && bs[..n][1..] == bs[1..][..n - 1] && bs[..n + 1][1..] == bs[1..][..n];
    assert bs[..n][0] == bs[0] && bs[..n + 1][0] == bs[0];
    FinalStep(env, c, h, bs[..n], c');
    FinalStep(env, c, h, bs[..n + 1], c');
    FinalStep(env, c, h, bs, c');
  }

  lemma SettledLater(env: Env, c: State, h: int, b: Block, k: Due, chunks: seq<Chunk>, c': State)
    requires RefundStep(env, c, h, b, k, chunks, c') && k.height != h
    ensures k.height > h && k in c'.stakes.frozen && chunks <= c'.stakes.frozen[k].chunks
  {
    hide Starts;
    hide RunBlock;
    hide BlockOk;
    hide RefundState;
  }

  lemma FewerChunks(env: Env, c: State, h: int, bs: seq<Block>, k: Due, short: seq<Chunk>, long: seq<Chunk>)
    requires PaidOnce(env, c, h, bs, k, long) && short <= long
    ensures PaidOnce(env, c, h, bs, k, short)
  {
    hide Final;
    hide StepTo;
    hide RefundState;
    hide Settles;
  }

  /** Stake that has reached the refunds of a block is paid in it, or later. */
  lemma {:induction false} ReachedIsPaid(env: Env, c: State, h: int, bs: seq<Block>, k: Due, chunks: seq<Chunk>,
          c': State)
    requires Completes(env, c, h, bs) && bs != [] && StepTo(env, c, h, bs[0], c') && k.height < h + |bs|
    requires RefundStep(env, c, h, bs[0], k, chunks, c') && Completes(env, c', h + 1, bs[1..])
    ensures PaidOnce(env, c, h, bs, k, chunks)
    decreases |bs|, 0
  {
    hide Completes;
    hide StepTo;
    hide RefundStep;
    hide PaidOnce;
    if k.height == h {
      PaidNow(env, c, h, bs, k, chunks, c');
    } else {
      SettledLater(env, c, h, bs[0], k, chunks, c');
      StakeIsRefundedOnce(env, c', h + 1, bs[1..], k);
      FewerChunks(env, c', h + 1, bs[1..], k, chunks, c'.stakes.frozen[k].chunks);
      PaidLater(env, c, h, bs, k, chunks, c');
    }
  }

  /** Frozen stake is refunded exactly once: in the block at its refund height its owner receives
      the power of all its chunks, and in no later state does it exist. */
  lemma {:induction false} StakeIsRefundedOnce(env: Env, c: State, h: int, bs: seq<Block>, k: Due)
    requires Completes(env, c, h, bs) && k in c.stakes.frozen && h <= k.height < h + |bs|
    ensures PaidOnce(env, c, h, bs, k, c.stakes.frozen[k].chunks)
    decreases |bs|, 1
  {
    hide Completes;
    hide StepTo;
    hide Starts;
    hide Adopts;
    hide RefundStep;
    hide PaidOnce;
    var c' := FirstStep(env, c, h, bs);
    BlockRefunds(env, c, h, bs[0], k, c');
    ReachedIsPaid(env, c, h, bs, k, c.stakes.frozen[k].chunks, c');
  }

  // ----- stake released in a block

  /** The state of a block after its first `i` transactions. */
  ghost function AfterTxs(env: Env, c: State, h: int, b: Block, i: nat): (r: State)
    requires Starts(env, c, h) && TxsFit(b.txs) && i <= |b.txs|
    ensures Safe(env, r, h) && Sized(r) && r.gov.live == Begun(env, c, h, b).gov.live
    ensures Begun(env, c, h, b).accts.Keys <= r.accts.Keys
  {
    assert forall tx <- b.txs[..i] :: tx in b.txs;
    DeliverAll(env, Begun(env, c, h, b), Begun(env, c, h, b), h, b.txs[..i])
  }

  lemma {:induction false} RestPersists(env: Env, begin: State, c: State, h: int, txs: seq<Tx>, i: nat)
    requires Safe(env, c, h) && Sized(begin) && Sized(c)
    requires begin.gov.live == c.gov.live && begin.accts.Keys <= c.accts.Keys
    requires Governance.Whole(env.parse) && TxsFit(txs) && i <= |txs|
    ensures TxsFit(txs[..i])
    ensures Persists(DeliverAll(env, begin, c, h, txs[..i]).stakes.frozen, DeliverAll(env, begin, c, h,
        txs).stakes.frozen)
    decreases i
  {
    assert forall tx <- txs[..i] :: tx in txs;
    if i == 0 {
      assert txs[..0] == [];
    } else {
      assert txs[0] in txs && txs[..i][0] == txs[0] && txs[..i][1..] == txs[1..][..i - 1];
      DeliverIsSafe(env, begin, c, h, txs[0]);
      RestPersists(env, begin, Deliver(env, begin, c, h, txs[0]), h, txs[1..], i - 1);
    }
  }

  /** Stake that is frozen at any moment of a block, by jailing at its beginning or by an unstaking
      transaction, reaches its refund like any other: in the same block when the unbonding period is
      0, and otherwise in the block at its refund height. */
  lemma ReleasedStakeIsRefunded(env: Env, c: State, h: int, bs: seq<Block>, i: nat, k: Due)
    requires Completes(env, c, h, bs) && bs != [] && Starts(env, c, h) && TxsFit(bs[0].txs) && i <= |bs[0].txs|
    requires k in AfterTxs(env, c, h, bs[0], i).stakes.frozen && k.height < h + |bs|
    ensures PaidOnce(env, c, h, bs, k, AfterTxs(env, c, h, bs[0], i).stakes.frozen[k].chunks)
  {
    hide Completes;
    hide StepTo;
    hide Starts;
    hide Adopts;
    hide AfterTxs;
    hide RefundStep;
    hide PaidOnce;
    var c' := FirstStep(env, c, h, bs);
    ReachesRefunds(env, c, h, bs[0], i, k, c');
    ReachedIsPaid(env, c, h, bs, k, AfterTxs(env, c, h, bs[0], i).stakes.frozen[k].chunks, c');
  }

  lemma ReachesRefunds(env: Env, c: State, h: int, b: Block, i: nat, k: Due, c': State)
    requires StepTo(env, c, h, b, c') && TxsFit(b.txs) && i <= |b.txs|
    requires Starts(env, c, h) && k in AfterTxs(env, c, h, b, i).stakes.frozen
    ensures RefundStep(env, c, h, b, k, AfterTxs(env, c, h, b, i).stakes.frozen[k].chunks, c') && k.height >= h
  {
    StepFinishes(env, c, h, b, c');
    hide MintFails;
    var begin := Begun(env, c, h, b);
    RestPersists(env, begin, begin, h, b.txs, i);
    var x := RefundState(env, c, h, b);
    assert x.stakes == DeliverAll(env, begin, begin, h, b.txs).stakes;
    hide RefundState;
    hide BlockOk;
    hide Core;
    hide Begun;
    FinishRefunds(env, x, h, k);
  }

  // ----- an unstaking transaction, from end to end

  lemma {:induction false} DeliverOneMore(env: Env, begin: State, c: State, h: int, txs: seq<Tx>, i: nat)
    requires Safe(env, c, h) && Sized(begin) && Sized(c)
    requires begin.gov.live == c.gov.live && begin.accts.Keys <= c.accts.Keys
    requires Governance.Whole(env.parse) && TxsFit(txs) && i < |txs|
    ensures TxsFit(txs[..i]) && TxsFit(txs[..i + 1])
    ensures var e := DeliverAll(env, begin, c, h, txs[..i]);
      Supply.UpTo(e.rewards, h) && DeliverAll(env, begin, c, h, txs[..i + 1]) == Deliver(env, begin, e, h, txs[i])
    decreases i
  {
    hide Deliver;
    hide Core;
    hide Consistent;
    hide Persists;
    hide Governance.During;
    assert forall tx <- txs[..i] :: tx in txs;
    assert forall tx <- txs[..i + 1] :: tx in txs;
    assert txs[0] in txs && txs[..i + 1][0] == txs[0] && txs[..i + 1][1..] == txs[1..][..i];
    DeliverIsSafe(env, begin, c, h, txs[0]);
    SafeParts(env, c, h);
    if i == 0 {
      assert txs[..0] == [];
    } else {
      assert txs[..i][0] == txs[0] && txs[..i][1..] == txs[1..][..i - 1] && txs[1..][i - 1] == txs[i];
      DeliverOneMore(env, begin, Deliver(env, begin, c, h, txs[0]), h, txs[1..], i - 1);
    }
  }

  lemma SafeParts(env: Env, c: State, h: int)
    requires Safe(env, c, h)
    ensures Supply.UpTo(c.rewards, h) && Consistent(c.stakes)
  {
    hide Consistent;
  }

  /** The chunk that an unstaking transaction takes out: the last one with its hash. */
  function Target(s: Stakes, tx: Tx): Option<Chunk>
    requires tx.kind.Unstaking?
  {
    var cs := Chunks(s, Link(tx.from, tx.to));
    if LastChunk(cs, tx.kind.target) < 0 then None else Some(cs[LastChunk(cs, tx.kind.target)])
  }

  lemma UnbondFreezes(s: Stakes, tx: Tx, height: int)
    requires tx.kind.Unstaking? && Consistent(s) && Unbondable(s, tx.from, tx.to, tx.kind.target)
    ensures var r := Unbond(s, tx.from, tx.to, tx.kind.target, height);
      && Target(s, tx).Some? && r.Success? && Due(height, tx.from) in r.value.frozen
      && Target(s, tx).value in r.value.frozen[Due(height, tx.from)].chunks
  {
    UnbondEffect(s, tx.from, tx.to, tx.kind.target, height);
    hide Consistent;
    hide Unbond;
    hide LastChunk;
    hide Remaining;
    var s' := Unbond(s, tx.from, tx.to, tx.kind.target, height).value;
    assert Target(s, tx).value in DueChunks(s'.frozen, height, tx.from);
  }

  lemma UnstakingFreezes(env: Env, begin: State, c: State, h: int, tx: Tx)
    requires Safe(env, c, h) && Sized(begin) && Sized(c)
    requires begin.gov.live == c.gov.live && begin.accts.Keys <= c.accts.Keys
    requires Governance.Whole(env.parse) && tx.amount < TWO256 && tx.kind.Unstaking?
    requires Prepared(env, begin, tx) && Validated(env, c, h, tx)
    ensures Target(c.stakes, tx).Some?
    ensures var k := Due(h + Param(c, LAZY_UNBONDING_BLOCKS), tx.from);
      var fz := Deliver(env, begin, c, h, tx).stakes.frozen;
      k in fz && Target(c.stakes, tx).value in fz[k].chunks
  {
    hide Core;
    hide Consistent;
    hide Governance.During;
    hide Unbond;
    hide Deliver;
    hide Target;
    hide CommonOk;
    hide WithinLimit;
    hide FirstChunk;
    hide Unbondable;
    SafeParts(env, c, h);
    FoundIsUnbondable(c.stakes, tx.from, tx.to, tx.kind.target);
    UnbondFreezes(c.stakes, tx, h + Param(c, LAZY_UNBONDING_BLOCKS));
    UnstakingRan(env, begin, c, h, tx);
  }

  lemma UnstakingRan(env: Env, begin: State, c: State, h: int, tx: Tx)
    requires Sized(begin) && Sized(c) && Supply.UpTo(c.rewards, h)
    requires begin.accts.Keys <= c.accts.Keys && tx.kind.Unstaking?
    requires Prepared(env, begin, tx) && Validated(env, c, h, tx)
    requires Unbond(c.stakes, tx.from, tx.to, tx.kind.target, h + Param(c, LAZY_UNBONDING_BLOCKS)).Success?
    ensures Deliver(env, begin, c, h, tx).stakes
         == Unbond(c.stakes, tx.from, tx.to, tx.kind.target, h + Param(c, LAZY_UNBONDING_BLOCKS)).value
  {
    hide Unbond;
    hide FirstChunk;
    hide WithinLimit;
    hide Limiter.Apply;
    hide CommonOk;
    hide SubBalance;
  }

  /** What an unstaking transaction takes out in block `h` is credited to its sender, exactly once, in
      the block at `h` plus the unbonding period. */
  lemma UnstakedStakeIsRefunded(env: Env, c: State, h: int, bs: seq<Block>, i: nat, tx: Tx)
    requires Completes(env, c, h, bs) && bs != [] && Starts(env, c, h) && TxsFit(bs[0].txs)
    requires i < |bs[0].txs| && bs[0].txs[i] == tx && tx.kind.Unstaking?
    requires var e := AfterTxs(env, c, h, bs[0], i);
      && Prepared(env, Begun(env, c, h, bs[0]), tx) && Validated(env, e, h, tx)
      && Param(e, LAZY_UNBONDING_BLOCKS) < |bs|
    ensures var e := AfterTxs(env, c, h, bs[0], i);
      && Target(e.stakes, tx).Some?
      && exists chunks :: Target(e.stakes, tx).value in chunks
           && PaidOnce(env, c, h, bs, Due(h + Param(e, LAZY_UNBONDING_BLOCKS), tx.from), chunks)
  {
    hide Completes;
    hide Core;
    hide Governance.During;
    hide PaidOnce;
    hide Target;
    hide Prepared;
    hide Validated;
    hide Begun;
    hide AfterTxs;
    hide Deliver;
    var e, e' := AfterTxs(env, c, h, bs[0], i), AfterTxs(env, c, h, bs[0], i + 1);
    AfterOneMore(env, c, h, bs[0], i);
    assert tx in bs[0].txs;
    UnstakingFreezes(env, Begun(env, c, h, bs[0]), e, h, tx);
    var k := Due(h + Param(e, LAZY_UNBONDING_BLOCKS), tx.from);
    ReleasedStakeIsRefunded(env, c, h, bs, i + 1, k);
    assert Target(e.stakes, tx).value in e'.stakes.frozen[k].chunks;
  }

  lemma AfterOneMore(env: Env, c: State, h: int, b: Block, i: nat)
    requires Starts(env, c, h) && TxsFit(b.txs) && i < |b.txs|
    ensures var begin, e := Begun(env, c, h, b), AfterTxs(env, c, h, b, i);
      Supply.UpTo(e.rewards, h) && AfterTxs(env, c, h, b, i + 1) == Deliver(env, begin, e, h, b.txs[i])
  {
    hide Core;
    hide Governance.During;
    hide Deliver;
    hide Begun;
    var begin := Begun(env, c, h, b);
    DeliverOneMore(env, begin, begin, h, b.txs, i);
  }
}
