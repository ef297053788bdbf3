/** Stake of an owner without an account. Nothing outside genesis creates it, but a genesis document
    may: then jailing the validator strands its stake, and the block that should refund it halts
    the chain. */
module StrandedStake {
  import opened Base
  import opened Sums
  import opened Accounts
  import opened Stake
  import opened StakeEffects
  import opened StakeInvariants
  import opened Refunds
  import opened Chain
  import opened ChainInvariant
  import opened Conservation
  import opened Runs
  import opened SignRates
  import Governance
  import Mint
  import Supply
  import Keys

  lemma RefundsInRange(s: Stakes, k: Due)
    requires FrozensOk(s.frozen) && FrozenPower(s) < TWO63 && k in s.frozen
    ensures 0 <= s.frozen[k].refund < TWO63
  {
    forall x <- s.frozen ensures RefundOf(s.frozen[x]) >= 0 {
      assert FrozenOk(s.frozen[x]);
      ChunkSumNonNegative(s.frozen[x].chunks);
    }
    TotalAtLeastPart(s.frozen, RefundOf, k);
  }

  /** The refunds of a block fail exactly when an owner of stake that falls due has no account. */
  lemma UnfreezeFailsIff(m: Accts, s: Stakes, h: int)
    requires FrozensOk(s.frozen) && FrozenPower(s) < TWO63
    ensures Unfreeze(m, s, h).Failure? <==> exists a :: Due(h, a) in s.frozen && a !in m
  {
    var owners := Keys.Ordered(DueOwners(s.frozen, h));
    Keys.OrderedIsAscending(DueOwners(s.frozen, h));
    forall o <- owners ensures Due(h, o) in s.frozen && 0 <= s.frozen[Due(h, o)].refund < TWO63 {
      RefundsInRange(s, Due(h, o));
    }
    RefundFailsIff(m, s.frozen, h, owners);
    forall a | Due(h, a) in s.frozen ensures a in owners { assert Due(h, a).owner in DueOwners(s.frozen, h); }
  }

  /** EndBlock halts the chain exactly when an owner of stake that falls due has no account. */
  lemma EndBlockFailsIff(x: State, h: int)
    requires |x.gov.live| == Governance.FIELDS && Param(x, MAX_VALIDATOR_CNT) >= 0
    requires FrozensOk(x.stakes.frozen) && FrozenPower(x.stakes) < TWO63
    ensures Finish(x, h) == Failure(RefundFailed) <==> exists a :: Due(h, a) in x.stakes.frozen && a !in x.accts
  {
    UnfreezeFailsIff(x.accts, x.stakes, h);
    hide Unfreeze;
    hide Listing;
  }

  ghost predicate InRange(s: Stakes) { Consistent(s) && Bonded(s) + FrozenPower(s) < TWO63 }

  // ----- blocks that carry votes only

  predicate Tuned(c: State) {
    && Weighable(c) && Param(c, MAX_VALIDATOR_CNT) >= 0 && Param(c, LAZY_UNBONDING_BLOCKS) >= 0
    && Param(c, MAX_TOTAL_SUPPLY) >= 0 && Param(c, DEAD_ADDRESS) >= 0 && Param(c, TX_FEE_REWARD_RATE) >= 0
  }

  predicate VotesOnly(b: Block) { b.byzantine == [] && b.txs == [] }

  /** What the block adds to the rewards and the supply, if it ends a cycle and the mint routine answers. */
  ghost function Minted(env: Env, c: State, h: int, d: State): (r: Result<State, Halt>)
    requires Tuned(c) && d.gov.live == c.gov.live && Supply.UpTo(d.rewards, h)
    ensures r.Failure? ==> r.error == MintFailed
    ensures r.Success? ==>
      r.value == d.(rewards := r.value.rewards, supply := r.value.supply) && Supply.UpTo(r.value.rewards, h)
  {
    if MintFails(env, c, h) then Failure(MintFailed)
    else Success(MintRewards(d, h, CycleWeights(env, c, h), MintIssue(env, c, h)))
  }

  /** The steps of all controllers on such a block, whoever owns the stakes. */
  ghost function Steps(env: Env, c: State, h: int, b: Block): Result<State, Halt>
    requires Tuned(c) && Supply.UpTo(c.rewards, h) && Governance.During(env.parse, c.gov, h)
    requires VotesOnly(b) && Governance.Settlement(c.gov, h, b.settled)
  {
    var c0 := c.(gov := Governance.PunishAll(env.parse, c.gov, h, []), gasLeft := Param(c, BLOCK_GAS_LIMIT));
    var r := CountBlockVotes(c0, h, b.votes);
    if r.Failure? then r
    else
      Governance.EndBlockKeeps(env.parse, c.gov, h, b.settled);
      var f := SplitFees(r.value.(gov := Governance.Ended(env.parse, r.value.gov, h, b.settled)), b.proposer);
      if f.Failure? then f
      else
        var m := Minted(env, c, h, f.value);
        if m.Failure? then m else Finish(m.value, h)
  }

  /** On a chain without proposals and fees: the votes are counted, rewards are minted, and what falls due
      is refunded. */
  ghost function EmptyBlock(env: Env, c: State, h: int, votes: seq<Vote>): (r: Result<State, Halt>)
    requires Tuned(c) && Supply.UpTo(c.rewards, h)
    ensures r.Success? ==> r.value.gov == c.gov && Supply.UpTo(r.value.rewards, h + 1)
  {
    var d := CountBlockVotes(c, h, votes);
    if d.Failure? then d
    else
      var m := Minted(env, c, h, d.value);
      if m.Failure? then m
      else
        var s := SettleStakes(m.value, h);
        if s.Failure? then s else Success(s.value.(gasLeft := 0))
  }

  ghost function EmptyBlocks(env: Env, c: State, h: int, vss: seq<seq<Vote>>): Result<State, Halt>
    requires Tuned(c) && Supply.UpTo(c.rewards, h)
    decreases |vss|
  {
    if vss == [] then Success(c)
    else
      var r := EmptyBlock(env, c, h, vss[0]);
      if r.Failure? then r else EmptyBlocks(env, r.value, h + 1, vss[1..])
  }

  /** That is what the controllers do with such a block, in any state. */
  lemma EmptyBlockIsBlock(env: Env, c: State, h: int, b: Block)
    requires Tuned(c) && Supply.UpTo(c.rewards, h) && Governance.During(env.parse, c.gov, h) && c.feeSum == 0
    requires VotesOnly(b) && Governance.Settlement(c.gov, h, b.settled)
    requires c.gov.props == map[] && c.gov.frozen == map[]
    ensures Steps(env, c, h, b) == EmptyBlock(env, c, h, b.votes)
  {
    hide CountBlockVotes;
    hide SettleStakes;
    hide MintRewards;
    hide MintFails;
    hide CycleWeights;
    hide MintIssue;
    hide Governance.During;
    hide Governance.Settlement;
    hide Governance.Ended;
    NothingToEnd(env.parse, c.gov, h, b.settled);
    var gas := Param(c, BLOCK_GAS_LIMIT);
    SameVotes(c, h, b.votes, gas);
    var d := CountBlockVotes(c, h, b.votes);
    if d.Success? && !MintFails(env, c, h) {
      AnswerDivides(env, c, h);
      SameMint(d.value, h, CycleWeights(env, c, h), MintIssue(env, c, h), gas);
      SameRefunds(Minted(env, c, h, d.value).value, h, gas);
    }
  }

  lemma AnswerDivides(env: Env, c: State, h: int)
    requires Tuned(c) && !MintFails(env, c, h)
    ensures var w := CycleWeights(env, c, h); MintDue(c, h) ==> Mint.Divides(w.bs, w.allWeight, w.valWeight)
  {
    hide CycleWeights;
  }

  lemma SameMint(d: State, h: int, w: Mint.Weighing, issue: real, gas: int)
    requires Weighable(d) && Supply.UpTo(d.rewards, h)
    requires MintDue(d, h) ==> Mint.Divides(w.bs, w.allWeight, w.valWeight)
    ensures MintRewards(d.(gasLeft := gas), h, w, issue) == MintRewards(d, h, w, issue).(gasLeft := gas)
  {
    hide Mint.Divides;
    hide Mint.Shares;
    hide Mint.Amounts;
    hide Supply.Distribute;
  }

  /** Where every owner has an account, and the other hypotheses of the run theorems hold, it is what the
      chain does. */
  lemma StepsAreRunBlock(env: Env, c: State, h: int, b: Block)
    requires Starts(env, c, h) && BlockOk(env, c, h, b) && VotesOnly(b)
    ensures Tuned(c) && Governance.Settlement(c.gov, h, b.settled) && RunBlock(env, c, h, b) == Steps(env, c, h, b)
  {
    BeginIsVotes(env, c, h, b);
    var begin := Begun(env, c, h, b);
    assert Executed(env, c, h, b) == begin;
    hide Begun;
    hide Core;
    hide MintFails;
    hide CycleWeights;
    hide MintIssue;
    hide CountBlockVotes;
    hide Finish;
    hide Governance.During;
  }

  lemma BeginIsVotes(env: Env, c: State, h: int, b: Block)
    requires Starts(env, c, h) && VotesOnly(b)
    ensures Tuned(c) && Begun(env, c, h, b).gov == c.gov
    ensures CountBlockVotes(c.(gasLeft := Param(c, BLOCK_GAS_LIMIT)), h, b.votes) == Success(Begun(env, c, h, b))
  {
    var c0 := FreshBlock(env, c, h, b);
    assert c0 == c.(gasLeft := Param(c, BLOCK_GAS_LIMIT)) && SlashEach(c0, []) == Success(c0);
    hide FreshBlock;
    hide Core;
  }

  lemma NothingToEnd(parse: Governance.Parse, g: Governance.Gov, h: int, settled: map<Hash, Governance.Prop>)
    requires Governance.During(parse, g, h) && g.props == map[] && g.frozen == map[]
    requires Governance.Settlement(g, h, settled)
    ensures Governance.Ended(parse, g, h, settled) == g && Governance.Committed(g) == g
  {
    assert settled == map[];
    assert Governance.Freeze(g, map[]) == g;
    assert Governance.DueKeys(g, h) == {};
    Governance.EndBlockKeeps(parse, g, h, map[]);
  }

  lemma SameVotes(c: State, h: int, votes: seq<Vote>, gas: int)
    requires Tuned(c)
    ensures var r, r' := CountBlockVotes(c, h, votes), CountBlockVotes(c.(gasLeft := gas), h, votes);
      && r.Success? == r'.Success? && (r.Failure? ==> r' == r)
      && (r.Success? ==>
            && r'.value == r.value.(gasLeft := gas) && r.value.gov == c.gov && r.value.rewards == c.rewards
            && r.value.feeSum == c.feeSum)
  {
  }

  lemma SameRefunds(c: State, h: int, gas: int)
    requires Tuned(c)
    ensures var r, r' := SettleStakes(c, h), SettleStakes(c.(gasLeft := gas), h);
      && r.Success? == r'.Success? && (r.Failure? ==> r' == r)
      && (r.Success? ==> r'.value == r.value.(gasLeft := gas) && r.value.gov == c.gov)
  {
    hide Unfreeze;
    hide Listing;
  }

  // ----- what an empty block keeps

  lemma {:induction false} RefundKeepsAccounts(m: Accts, fz: map<Due, Frozen>, h: int, owners: seq<Address>)
    requires forall o <- owners :: Due(h, o) in fz
    ensures Refund(m, fz, h, owners).Success? ==> Refund(m, fz, h, owners).value.Keys == m.Keys
    decreases |owners|
  {
    if owners != [] {
      var r := Reward(m, owners[0], RefundAmount(fz[Due(h, owners[0])].refund));
      if r.Success? { RefundKeepsAccounts(r.value, fz, h, owners[1..]); }
    }
  }

  lemma RefundStaysInRange(s: Stakes, h: int)
    requires InRange(s)
    ensures InRange(AfterRefund(s, h))
  {
    var owners := Keys.Ordered(DueOwners(s.frozen, h));
    Keys.OrderedIsAscending(DueOwners(s.frozen, h));
    PowersInRange(s);
    ConsistentParts(s);
    forall k <- s.frozen ensures s.frozen[k].refund >= 0 { RefundsInRange(s, k); }
    DueSumLeavesRest(s, h);
    DueSumNonNegative(s.frozen, h, owners);
    assert Consistent(AfterRefund(s, h)) && Bonded(AfterRefund(s, h)) == Bonded(s);
  }

  lemma SettledStakes(c: State, h: int)
    requires Tuned(c) && InRange(c.stakes)
    ensures var r := SettleStakes(c, h);
      && (r.Failure? ==> r.error == RefundFailed)
      && (r.Success? ==> r.value.accts.Keys == c.accts.Keys && r.value.stakes == AfterRefund(c.stakes, h))
      && (r.Failure? <==> exists a :: Due(h, a) in c.stakes.frozen && a !in c.accts)
  {
    hide InRange;
    hide Listing;
    PowersInRange(c.stakes);
    UnfreezeFailsIff(c.accts, c.stakes, h);
    Keys.OrderedIsAscending(DueOwners(c.stakes.frozen, h));
    RefundKeepsAccounts(c.accts, c.stakes.frozen, h, Keys.Ordered(DueOwners(c.stakes.frozen, h)));
  }

  predicate EndsCycle(h: int, cycle: int)
    requires cycle > 0
  {
    h % cycle == 0
  }

  lemma VotesResult(c: State, h: int, votes: seq<Vote>)
    requires Tuned(c)
    ensures
      var down := Param(c, INFLATION_CYCLE_BLOCKS) - Param(c, MIN_SIGNED_BLOCKS);
      var r := CountVotes(c.stakes, votes, down, h + Param(c, LAZY_UNBONDING_BLOCKS));
      var t := CountBlockVotes(c, h, votes);
      && (votes == [] ==> t == Success(c))
      && (r.Success? ==>
            t.Success? && t.value.accts == c.accts && t.value.gov == c.gov && t.value.rewards == c.rewards)
      && (votes != [] && r.Success? ==> t.value.stakes == r.value || t.value.stakes == r.value.(missed := map[]))
      && (votes != [] && r.Success? && !EndsCycle(h, Param(c, INFLATION_CYCLE_BLOCKS)) ==> t.value.stakes == r.value)
  {
    hide CountVotes;
  }

  lemma CountedStakes(c: State, h: int, votes: seq<Vote>)
    requires Tuned(c) && InRange(c.stakes)
    ensures var r := CountBlockVotes(c, h, votes);
      && r.Success? && InRange(r.value.stakes) && Persists(c.stakes.frozen, r.value.stakes.frozen)
      && r.value.accts == c.accts && r.value.gov == c.gov && r.value.rewards == c.rewards
  {
    hide CountBlockVotes;
    hide CountVotes;
    hide InRange;
    hide Persists;
    hide EndsCycle;
    VotesResult(c, h, votes);
    VotesInRange(c.stakes, votes, Param(c, INFLATION_CYCLE_BLOCKS) - Param(c, MIN_SIGNED_BLOCKS),
        h + Param(c, LAZY_UNBONDING_BLOCKS));
  }

  lemma VotesInRange(s: Stakes, votes: seq<Vote>, down: int, height: int)
    requires InRange(s)
    ensures var r := CountVotes(s, votes, down, height);
      && r.Success? && InRange(r.value) && InRange(r.value.(missed := map[]))
      && Persists(s.frozen, s.frozen) && Persists(s.frozen, r.value.frozen)
  {
    hide CountVotes;
    hide Consistent;
    CountVotesKeepsBooks(s, votes, down, height);
    ForgetMissed(CountVotes(s, votes, down, height).value);
  }

  lemma ForgetMissed(s: Stakes)
    requires Consistent(s)
    ensures Consistent(s.(missed := map[])) && Bonded(s.(missed := map[])) == Bonded(s)
    ensures FrozenPower(s.(missed := map[])) == FrozenPower(s)
  {
    ConsistentParts(s);
  }

  ghost predicate Halted(r: Result<State, Halt>) { r == Failure(RefundFailed) || r == Failure(MintFailed) }

  /** An empty block can only fail in its refunds or its mint, and keeps what is due later. */
  lemma AfterEmptyBlock(env: Env, c: State, h: int, votes: seq<Vote>)
    requires Tuned(c) && InRange(c.stakes) && Supply.UpTo(c.rewards, h)
    ensures CountBlockVotes(c, h, votes).Success?
    ensures var r := EmptyBlock(env, c, h, votes); var d := CountBlockVotes(c, h, votes).value;
      && (r.Failure? ==> Halted(r))
      && (r.Success? ==>
            && Tuned(r.value) && InRange(r.value.stakes) && r.value.accts.Keys == c.accts.Keys
            && r.value.stakes == AfterRefund(d.stakes, h)
            && (forall k <- c.stakes.frozen :: k.height != h ==> k in r.value.stakes.frozen)
            && (forall k <- d.stakes.frozen :: k.height == h ==> k.owner in c.accts))
  {
    hide InRange;
    hide CountBlockVotes;
    hide SettleStakes;
    hide MintFails;
    hide MintRewards;
    CountedStakes(c, h, votes);
    var d := CountBlockVotes(c, h, votes).value;
    var m := Minted(env, c, h, d);
    if m.Success? {
      SettledStakes(m.value, h);
      RefundStaysInRange(d.stakes, h);
      forall k <- d.stakes.frozen | k.height == h && SettleStakes(m.value, h).Success? ensures k.owner in c.accts {
        assert k == Due(h, k.owner);
      }
    }
  }

  // ----- the way to the halt

  /** Stake that falls due to nobody's account waits for its block, whatever the votes. */
  lemma {:induction false} WaitingHalts(env: Env, c: State, h: int, vss: seq<seq<Vote>>, k: Due)
    requires Tuned(c) && InRange(c.stakes) && Supply.UpTo(c.rewards, h) && k in c.stakes.frozen && k.owner !in c.accts
    requires h <= k.height && |vss| == k.height - h + 1
    ensures Halted(EmptyBlocks(env, c, h, vss))
    decreases |vss|
  {
    hide InRange;
    hide EmptyBlock;
    hide CountBlockVotes;
    CountedStakes(c, h, vss[0]);
    AfterEmptyBlock(env, c, h, vss[0]);
    var r := EmptyBlock(env, c, h, vss[0]);
    if r.Success? && k.height > h { WaitingHalts(env, r.value, h + 1, vss[1..], k); }
  }

  ghost predicate Bonds(s: Stakes, a: Address) { Chunks(s, Link(a, a)) != [] }

  /** One vote on `a`, or on somebody else. */
  lemma VoteOn(s: Stakes, v: Vote, down: int, height: int, a: Address)
    requires Consistent(s) && Bonds(s, a)
    ensures var r := CountVote(s, v, down, height);
      && r.Success? && Consistent(r.value)
      && (if v == Vote(a, false) then
            && (Missed(s, a) + 1 >= down ==> Due(height, a) in r.value.frozen)
            && (Missed(s, a) + 1 < down ==> Bonds(r.value, a) && Missed(r.value, a) == Missed(s, a) + 1)
          else Bonds(r.value, a) && Missed(r.value, a) == Missed(s, a))
  {
    LinkedIffListed(s, a, a);
    VoteEffect(s, v, down, height);
    CountVoteKeepsBooks(s, v, down, height);
    hide Consistent;
    hide CountVote;
    hide Queued;
    var s' := CountVote(s, v, down, height).value;
    if v == Vote(a, false) && Missed(s, a) + 1 >= down {
      ReleasedIsDue(s, s', a, a, height);
    } else {
      assert Chunks(s', Link(a, a)) == Chunks(s, Link(a, a));
    }
  }

  /** The votes of a block: the validator is jailed once it has missed as many blocks as are allowed; until
      then its counter moves if it is missing, and else nothing of its own does. */
  lemma {:induction false} VotesOn(s: Stakes, vs: seq<Vote>, down: int, height: int, a: Address)
    requires Consistent(s) && Bonds(s, a) && OneVoteEach(vs)
    ensures var r := CountVotes(s, vs, down, height);
      && r.Success?
      && (if Vote(a, false) in vs then
            && (Missed(s, a) + 1 >= down ==> Due(height, a) in r.value.frozen)
            && (Missed(s, a) + 1 < down ==> Bonds(r.value, a) && Missed(r.value, a) == Missed(s, a) + 1)
          else Bonds(r.value, a) && Missed(r.value, a) == Missed(s, a))
    decreases |vs|
  {
    hide Consistent;
    hide CountVote;
    hide Bonds;
    if vs != [] {
      VoteOn(s, vs[0], down, height, a);
      var s' := CountVote(s, vs[0], down, height).value;
      assert OneVoteEach(vs[1..]);
      if vs[0] == Vote(a, false) {
        CountVotesKeepsBooks(s', vs[1..], down, height);
        assert Vote(a, false) !in vs[1..] by { VotesOnce(vs); }
      }
      if !(vs[0] == Vote(a, false) && Missed(s, a) + 1 >= down) { VotesOn(s', vs[1..], down, height, a); }
    }
  }

  lemma VotesOnce(vs: seq<Vote>)
    requires vs != [] && OneVoteEach(vs)
    ensures vs[0] !in vs[1..]
  {
    forall v <- vs[1..] ensures v != vs[0] {
      var i :| 0 <= i < |vs[1..]| && vs[1..][i] == v;
      assert vs[0].validator != vs[i + 1].validator;
    }
  }

  /** A block for one validator: missing, it is jailed once it has missed as many as are allowed, and until
      then only its counter moves; the end of a cycle clears the counter. */
  lemma MissedBlock(c: State, h: int, votes: seq<Vote>, a: Address)
    requires Tuned(c) && Consistent(c.stakes) && Bonds(c.stakes, a) && OneVoteEach(votes) && Missed(c.stakes, a) >= 0
    ensures var r := CountBlockVotes(c, h, votes); var s, missed := c.stakes, Missed(c.stakes, a);
      var down := Param(c, INFLATION_CYCLE_BLOCKS) - Param(c, MIN_SIGNED_BLOCKS);
      && r.Success?
      && (Vote(a, false) in votes && missed + 1 >= down ==>
            Due(h + Param(c, LAZY_UNBONDING_BLOCKS), a) in r.value.stakes.frozen)
      && (Vote(a, false) in votes && missed + 1 < down ==>
            && Bonds(r.value.stakes, a)
            && (!EndsCycle(h, Param(c, INFLATION_CYCLE_BLOCKS)) ==> Missed(r.value.stakes, a) == missed + 1))
      && (Vote(a, false) !in votes ==> Bonds(r.value.stakes, a) && 0 <= Missed(r.value.stakes, a) <= missed)
  {
    hide CountBlockVotes;
    hide CountVotes;
    hide EndsCycle;
    hide Consistent;
    VotesResult(c, h, votes);
    VotesOn(c.stakes, votes, Param(c, INFLATION_CYCLE_BLOCKS) - Param(c, MIN_SIGNED_BLOCKS),
        h + Param(c, LAZY_UNBONDING_BLOCKS), a);
  }

  ghost predicate Absent(votes: seq<Vote>, a: Address) { OneVoteEach(votes) && Vote(a, false) in votes }

  /** A validator without an account that misses as many blocks within a cycle as are allowed is jailed,
      and the chain halts at the latest in the block at the refund height of its stake. */
  lemma {:induction false} AbsenceHalts(env: Env, c: State, h: int, vss: seq<seq<Vote>>, a: Address, n: nat)
    requires Tuned(c) && InRange(c.stakes) && Supply.UpTo(c.rewards, h) && Bonds(c.stakes, a) && a !in c.accts
    requires Missed(c.stakes, a) >= 0
    requires n == Param(c, INFLATION_CYCLE_BLOCKS) - Param(c, MIN_SIGNED_BLOCKS) - Missed(c.stakes, a) > 0
    requires |vss| == n + Param(c, LAZY_UNBONDING_BLOCKS)
    requires forall k :: 0 <= k < n ==> Absent(vss[k], a)
    requires forall j :: h <= j < h + n - 1 ==> !EndsCycle(j, Param(c, INFLATION_CYCLE_BLOCKS))
    ensures Halted(EmptyBlocks(env, c, h, vss))
    decreases n
  {
    hide InRange;
    hide CountBlockVotes;
    hide EmptyBlock;
    hide EndsCycle;
    hide OneVoteEach;
    hide Bonds;
    assert Absent(vss[0], a);
    PowersInRange(c.stakes);
    MissedBlock(c, h, vss[0], a);
    AfterEmptyBlock(env, c, h, vss[0]);
    var r := EmptyBlock(env, c, h, vss[0]);
    if r.Success? {
      var k := Due(h + Param(c, LAZY_UNBONDING_BLOCKS), a);
      if n > 1 {
        SameBonds(CountBlockVotes(c, h, vss[0]).value.stakes, h, a);
        assert forall k :: 0 <= k < n - 1 ==> Absent(vss[1..][k], a);
        AbsenceHalts(env, r.value, h + 1, vss[1..], a, n - 1);
      } else if k.height > h {
        WaitingHalts(env, r.value, h + 1, vss[1..], k);
      }
    }
  }

  lemma SameBonds(s: Stakes, h: int, a: Address)
    ensures Bonds(AfterRefund(s, h), a) == Bonds(s, a) && Missed(AfterRefund(s, h), a) == Missed(s, a)
  {
  }

  /** The same after blocks in which it was not missing. */
  lemma {:induction false} LateAbsenceHalts(env: Env, c: State, h: int, vss: seq<seq<Vote>>, a: Address, n: nat,
          start: int)
    requires Tuned(c) && InRange(c.stakes) && Supply.UpTo(c.rewards, h) && Bonds(c.stakes, a) && a !in c.accts
    requires Missed(c.stakes, a) == 0 && h <= start
    requires n == Param(c, INFLATION_CYCLE_BLOCKS) - Param(c, MIN_SIGNED_BLOCKS) > 0
    requires |vss| == start - h + n + Param(c, LAZY_UNBONDING_BLOCKS)
    requires forall k :: 0 <= k < start - h ==> OneVoteEach(vss[k]) && Vote(a, false) !in vss[k]
    requires forall k :: start - h <= k < start - h + n ==> Absent(vss[k], a)
    requires forall j :: start <= j < start + n - 1 ==> !EndsCycle(j, Param(c, INFLATION_CYCLE_BLOCKS))
    ensures Halted(EmptyBlocks(env, c, h, vss))
    decreases start - h
  {
    hide InRange;
    hide CountBlockVotes;
    hide EmptyBlock;
    hide EndsCycle;
    hide OneVoteEach;
    hide Bonds;
    hide Absent;
    if h == start {
      AbsenceHalts(env, c, h, vss, a, n);
    } else {
      PowersInRange(c.stakes);
      MissedBlock(c, h, vss[0], a);
      AfterEmptyBlock(env, c, h, vss[0]);
      SameBonds(CountBlockVotes(c, h, vss[0]).value.stakes, h, a);
      var r := EmptyBlock(env, c, h, vss[0]);
      if r.Success? { LateAbsenceHalts(env, r.value, h + 1, vss[1..], a, n, start); }
    }
  }

  lemma ReleasedIsDue(s: Stakes, s': Stakes, a: Address, d: Address, height: int)
    requires Released(s, s', a, height) && Chunks(s, Link(d, a)) != []
    ensures Due(height, d) in s'.frozen
  {
    assert DueChunks(s'.frozen, height, d) != [];
  }

  lemma BondedIsNotEmpty(s: Stakes, l: Link)
    requires Consistent(s) && l in s.vpowers
    ensures Chunks(s, l) != []
  {
    ConsistentParts(s);
    assert VPowerOk(s.vpowers[l]);
  }

  /** A genesis validator that holds no account and, from block `start` on, misses as many blocks within a
      cycle as are allowed, halts the chain at the latest at the refund height of its stake, whatever else
      is voted. The first block carries no votes. */
  lemma UnaccountedValidatorHalts(env: Env, g: GenesisDoc, i: nat, start: int, vss: seq<seq<Vote>>)
    requires GoodParams(g.params) && DistinctAddresses(g.vals) && i < |g.vals| && InitialSupply(g) >= 0
    requires GenesisPower(g.vals) < TWO63 && forall j :: 0 <= j < |g.vals| ==> PowerOk(g.vals[j].power)
    requires forall j :: 0 <= j < |g.holders| ==> g.holders[j].0 != g.vals[i].addr
    requires 0 <= g.params[MIN_SIGNED_BLOCKS] < g.params[INFLATION_CYCLE_BLOCKS]
    requires
      var cycle, lazy, a := g.params[INFLATION_CYCLE_BLOCKS], g.params[LAZY_UNBONDING_BLOCKS], g.vals[i].addr;
      var down := cycle - g.params[MIN_SIGNED_BLOCKS];
      && start >= 2 && |vss| == start - 1 + down + lazy && vss[0] == []
      && (forall k :: 0 <= k < start - 1 ==> OneVoteEach(vss[k]) && Vote(a, false) !in vss[k])
      && (forall k :: start - 1 <= k < start - 1 + down ==> Absent(vss[k], a))
      && (forall j :: start <= j < start + down - 1 ==> !EndsCycle(j, cycle))
    ensures Tuned(InitChain(g)) && Halted(EmptyBlocks(env, InitChain(g), 1, vss))
  {
    hide Genesis;
    hide InRange;
    hide Consistent;
    hide EndsCycle;
    hide EmptyBlocks;
    hide Absent;
    hide OneVoteEach;
    hide Bonds;
    var c, a, cycle := InitChain(g), g.vals[i].addr, g.params[INFLATION_CYCLE_BLOCKS];
    GenesisInRange(g.vals, i);
    HoldersAreListed(g.holders, a);
    assert Tuned(c) && Supply.UpTo(c.rewards, 1);
    LateAbsenceHalts(env, c, 1, vss, a, cycle - g.params[MIN_SIGNED_BLOCKS], start);
  }

  /** There is always such a block to start from: the second one, or the first of the second cycle. */
  lemma SomeStartWorks(cycle: int, minSigned: int)
    requires 0 <= minSigned < cycle
    ensures minSigned > 0 ==> forall j :: 2 <= j < 2 + cycle - minSigned - 1 ==> !EndsCycle(j, cycle)
    ensures forall j :: cycle + 1 <= j < cycle + 1 + cycle - minSigned - 1 ==> !EndsCycle(j, cycle)
  {
    hide EndsCycle;
    forall j | 0 < j < cycle ensures !EndsCycle(j, cycle) { InsideCycle(0, j, cycle); }
    forall j | cycle < j < cycle + cycle ensures !EndsCycle(j, cycle) { InsideCycle(1, j - cycle, cycle); }
  }

  lemma InsideCycle(q: int, j: int, cycle: int)
    requires 0 < j < cycle
    ensures !EndsCycle(q * cycle + j, cycle)
  {
    Multiple(q, cycle, j);
  }

  lemma GenesisInRange(vals: seq<GenesisValidator>, i: nat)
    requires DistinctAddresses(vals) && i < |vals| && (forall j :: 0 <= j < |vals| ==> PowerOk(vals[j].power))
    requires GenesisPower(vals) < TWO63
    ensures var s, a := Genesis(EMPTY, vals), vals[i].addr; InRange(s) && Bonds(s, a) && Missed(s, a) == 0
  {
    GenesisIsConsistent(vals);
    GenesisDelegatees(vals);
    GenesisBonds(vals, i);
    BondedIsNotEmpty(Genesis(EMPTY, vals), Link(vals[i].addr, vals[i].addr));
    hide Consistent;
  }

  lemma PowersInRange(s: Stakes)
    requires InRange(s)
    ensures Consistent(s) && FrozensOk(s.frozen) && FrozenPower(s) < TWO63
  {
    ConsistentParts(s);
    PowersNonNegative(s);
  }

  lemma {:induction false} GenesisBonds(vals: seq<GenesisValidator>, i: nat)
    requires i < |vals|
    ensures Link(vals[i].addr, vals[i].addr) in Genesis(EMPTY, vals).vpowers
  {
    if i < |vals| - 1 { GenesisBonds(vals[..|vals| - 1], i); }
  }
}
