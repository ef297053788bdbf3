/** Governance inside the chain: the proposals of a run of the chain live exactly as the proposals of
    a run of the governance controller, and every open ballot is tallied correctly in every state. */
module GovernanceRuns {
  import opened Base
  import opened Chain
  import opened ChainInvariant
  import opened Conservation
  import opened Runs
  import Governance
  import Supply
  import Validation

  predicate IsGov(tx: Tx) { tx.kind.Proposal? || tx.kind.Voting? }

  /** The governance transactions among `txs` that are delivered. */
  ghost function GovTxs(env: Env, begin: State, c: State, h: int, txs: seq<Tx>): seq<Governance.Tx>
    requires Safe(env, c, h) && Sized(begin) && Sized(c)
    requires begin.gov.live == c.gov.live && begin.accts.Keys <= c.accts.Keys
    requires Governance.Whole(env.parse) && TxsFit(txs)
    decreases |txs|
  {
    if txs == [] then []
    else
      assert txs[0] in txs;
      DeliverIsSafe(env, begin, c, h, txs[0]);
      (if IsGov(txs[0]) && Prepared(env, begin, txs[0]) && Validated(env, c, h, txs[0]) then [GovTx(txs[0])] else [])
      + GovTxs(env, begin, Deliver(env, begin, c, h, txs[0]), h, txs[1..])
  }

  /** A delivered governance transaction acts on the proposals; any other leaves them alone. */
  lemma DeliverActs(env: Env, begin: State, c: State, h: int, tx: Tx)
    requires Safe(env, c, h) && Sized(begin) && Sized(c)
    requires begin.gov.live == c.gov.live && begin.accts.Keys <= c.accts.Keys
    requires Governance.Whole(env.parse) && tx.amount < TWO256
    ensures var c' := Deliver(env, begin, c, h, tx);
      c'.gov == if IsGov(tx) && Prepared(env, begin, tx) && Validated(env, c, h, tx)
                then Governance.Execute(env.parse, c.gov, h, Voters(env, c.validators), GovTx(tx)) else c.gov
  {
    assert Supply.UpTo(c.rewards, h);
    hide Run;
    hide Core;
    hide Governance.During;
    hide Governance.Execute;
    hide Validated;
    hide Prepared;
    hide Counted;
    hide Charge;
    if Prepared(env, begin, tx) && Validated(env, c, h, tx) {
      Validation.ValidationSuffices(env, begin, c, h, tx);
      CountingActs(env, c, h, tx);
      RunActs(env, Counted(c, tx), h, tx);
      ChargeActs(Run(env, Counted(c, tx), h, tx).value, tx);
    }
  }

  lemma CountingActs(env: Env, c: State, h: int, tx: Tx)
    requires Sized(c) && Supply.UpTo(c.rewards, h) && tx.from in c.accts && tx.payer in c.accts
    requires Validated(env, c, h, tx)
    ensures var v := Counted(c, tx);
      v.gov == c.gov && v.validators == c.validators && v.rewards == c.rewards && v.accts == c.accts
  {
    hide CommonOk;
  }

  lemma ChargeActs(c: State, tx: Tx)
    requires tx.from in c.accts && tx.payer in c.accts && Charge(c, tx).Some?
    ensures Charge(c, tx).value.gov == c.gov
  {
  }

  lemma RunActs(env: Env, c: State, h: int, tx: Tx)
    requires Sized(c) && tx.from in c.accts && Supply.UpTo(c.rewards, h) && Run(env, c, h, tx).Some?
    ensures Run(env, c, h, tx).value.gov
         == if IsGov(tx) then Governance.Execute(env.parse, c.gov, h, Voters(env, c.validators), GovTx(tx)) else c.gov
  {
    hide Governance.Execute;
  }

  lemma {:induction false} DeliverAllActs(env: Env, begin: State, c: State, h: int, txs: seq<Tx>)
    requires Safe(env, c, h) && Sized(begin) && Sized(c)
    requires begin.gov.live == c.gov.live && begin.accts.Keys <= c.accts.Keys
    requires Governance.Whole(env.parse) && TxsFit(txs)
    ensures DeliverAll(env, begin, c, h, txs).gov
         == Governance.ExecuteAll(env.parse, c.gov, h, Voters(env, c.validators), GovTxs(env, begin, c, h, txs))
    decreases |txs|
  {
    if txs != [] {
      assert txs[0] in txs;
      assert Supply.UpTo(c.rewards, h) && Governance.Electorate(Voters(env, c.validators));
      DeliverIsSafe(env, begin, c, h, txs[0]);
      DeliverActs(env, begin, c, h, txs[0]);
      hide Deliver;
      hide Core;
      hide Governance.During;
      hide Governance.Execute;
      hide Voters;
      var c1 := Deliver(env, begin, c, h, txs[0]);
      DeliverAllActs(env, begin, c1, h, txs[1..]);
      var rest := GovTxs(env, begin, c1, h, txs[1..]);
      if IsGov(txs[0]) && Prepared(env, begin, txs[0]) && Validated(env, c, h, txs[0]) {
        assert ([GovTx(txs[0])] + rest)[1..] == rest;
      } else {
        assert [] + rest == rest;
      }
    }
  }

  /** The block as the governance controller sees it. */
  ghost function GovBlock(env: Env, c: State, h: int, b: Block): Governance.Block
    requires Starts(env, c, h) && TxsFit(b.txs)
  {
    var begin := Begun(env, c, h, b);
    Governance.Block(b.byzantine, Voters(env, c.validators), GovTxs(env, begin, begin, h, b.txs), b.settled)
  }

  lemma BeginPunishes(env: Env, c: State, h: int, b: Block)
    requires Starts(env, c, h)
    ensures Begun(env, c, h, b).gov == Governance.PunishAll(env.parse, c.gov, h, b.byzantine)
    ensures Begun(env, c, h, b).validators == c.validators
  {
    var c0 := FreshBlock(env, c, h, b);
    SlashEachIsSafe(env, c0, h, b.byzantine);
    CountBlockVotesIsSafe(env, SlashEach(c0, b.byzantine).value, h, b.votes);
    hide SlashEach;
    hide CountBlockVotes;
    hide Core;
  }

  lemma ExecutedActs(env: Env, c: State, h: int, b: Block)
    requires Starts(env, c, h) && TxsFit(b.txs)
    ensures Governance.Electorate(Voters(env, c.validators))
    ensures Executed(env, c, h, b).gov == Governance.BeforeEnd(env.parse, c.gov, h, GovBlock(env, c, h, b))
  {
    BeginPunishes(env, c, h, b);
    assert Governance.Electorate(Voters(env, c.validators));
    var begin := Begun(env, c, h, b);
    hide Begun;
    hide Core;
    hide Governance.During;
    hide Voters;
    DeliverAllActs(env, begin, begin, h, b.txs);
  }

  /** One block of the chain moves the proposals as one block of the governance controller. */
  lemma BlockActs(env: Env, c: State, h: int, b: Block, c': State)
    requires StepTo(env, c, h, b, c')
    ensures Starts(env, c, h) && TxsFit(b.txs) && Governance.During(env.parse, c.gov, h)
    ensures Governance.BlockOk(env.parse, c.gov, h, GovBlock(env, c, h, b))
    ensures c'.gov == Governance.RunBlock(env.parse, c.gov, h, GovBlock(env, c, h, b))
  {
    assert Answered(env, c, h, b);
    hide MintFails;
    ExecutedActs(env, c, h, b);
    var x := RefundState(env, c, h, b);
    Governance.EndBlockKeeps(env.parse, Executed(env, c, h, b).gov, h, b.settled);
    FinishIsSafe(env, x, h);
    hide Executed;
    hide RefundState;
    hide Finish;
    hide Core;
    hide Governance.During;
    hide Governance.BeforeEnd;
    hide Governance.Ended;
  }

  // ----- over runs

  /** The blocks of a run as the governance controller sees them. */
  ghost function GovBlocks(env: Env, c: State, h: int, bs: seq<Block>): seq<Governance.Block>
    decreases |bs|
  {
    if bs == [] || !Starts(env, c, h) || !TxsFit(bs[0].txs) then []
    else [GovBlock(env, c, h, bs[0])] + GovBlocks(env, Next(env, c, h, bs[0]), h + 1, bs[1..])
  }

  lemma {:induction false} ChainActs(env: Env, c: State, h: int, bs: seq<Block>)
    requires Completes(env, c, h, bs)
    ensures Governance.During(env.parse, c.gov, h)
    ensures Governance.RunOk(env.parse, c.gov, h, GovBlocks(env, c, h, bs)) && |GovBlocks(env, c, h, bs)| == |bs|
    decreases |bs|
  {
    hide Completes;
    hide StepTo;
    hide Adopts;
    hide Next;
    hide Core;
    hide GovBlock;
    hide Governance.During;
    hide Governance.BlockOk;
    hide Governance.RunBlock;
    if bs == [] {
      NoBlocks(env, c, h, bs);
    } else {
      var c' := FirstStep(env, c, h, bs);
      StepIsGood(env, c, h, bs[0], c');
      BlockActs(env, c, h, bs[0], c');
      ChainActs(env, c', h + 1, bs[1..]);
      var rest := GovBlocks(env, c', h + 1, bs[1..]);
      assert ([GovBlock(env, c, h, bs[0])] + rest)[1..] == rest;
    }
  }

  /** On every run of the chain a proposal is decided once, in the block after its last voting block,
      and a winner is applied once, at the later of that block and its apply height. */
  lemma ProposalsOnTheChain(env: Env, c: State, h: int, bs: seq<Block>, k: Hash)
    requires Completes(env, c, h, bs) && Governance.Whole(env.parse)
    requires k in c.gov.props && k !in c.gov.frozen && Governance.NeverProposed(GovBlocks(env, c, h, bs), k)
    ensures Governance.During(env.parse, c.gov, h) && Governance.RunOk(env.parse, c.gov, h, GovBlocks(env, c, h, bs))
    ensures Governance.Lives(c.gov.props[k], h + |bs|, Governance.History(env.parse, c.gov, h, GovBlocks(env, c, h,
        bs), k))
  {
    hide *;
    ChainActs(env, c, h, bs);
    Governance.ProposalLifecycle(env.parse, c.gov, h, GovBlocks(env, c, h, bs), k);
  }

  /** In every state of every run each open ballot's votes, total and majority match its voters. */
  lemma {:induction false} TalliesOnTheChain(env: Env, c: State, h: int, bs: seq<Block>)
    requires Completes(env, c, h, bs) && Governance.Tallied(c.gov)
    ensures Governance.Tallied(Final(env, c, h, bs).gov)
    decreases |bs|
  {
    hide Completes;
    hide Final;
    hide StepTo;
    hide Starts;
    hide Adopts;
    hide GovBlock;
    hide Governance.Tallied;
    hide Governance.BlockOk;
    hide Governance.RunBlock;
    hide Governance.During;
    if bs == [] {
      NoBlocks(env, c, h, bs);
    } else {
      var c' := FirstStep(env, c, h, bs);
      BlockActs(env, c, h, bs[0], c');
      RateIsGood(env, c, h);
      Governance.BlockTallies(env.parse, c.gov, h, GovBlock(env, c, h, bs[0]));
      TalliesOnTheChain(env, c', h + 1, bs[1..]);
    }
  }

  lemma RateIsGood(env: Env, c: State, h: int)
    requires Starts(env, c, h)
    ensures |c.gov.live| == Governance.FIELDS
    ensures 0 <= c.gov.live[Governance.SLASH_RATE] <= 100 && Governance.Whole(env.parse)
  {
    hide StakesOk;
  }
}
