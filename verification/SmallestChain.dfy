/** The hypotheses of the theorems about runs can be met. On a genesis document with one validator, blocks
    with any prepared transactions outside governance follow one another for as long as one likes, and
    rewards are minted at the end of each cycle, as long as the stake is not rounded away against the
    supply. Where it is, the first cycle halts the chain; with a cycle of one block the first block does;
    and so does a transaction from a stranger. */
module SmallestChain {
  import opened Base
  import Accounts
  import opened Stake
  import opened StakeInvariants
  import opened Chain
  import opened ChainInvariant
  import opened Conservation
  import opened FirstBlock
  import opened GovernanceRuns
  import opened Runs
  import opened SignRates
  import opened Refunds
  import opened VotingWeights
  import opened WeightBounds
  import Governance
  import Keys
  import Limiter
  import ValidatorSet
  import Mint
  import Supply

  const A: Address := 7

  /** A factor with the signs of the real one. */
  function Growth(permil: int, weight: real): real {
    if weight <= 0.0 then 0.0 else if permil < 0 then -1.0 else 0.5
  }

  function SmallEnv(): Env { Env(_ => None, _ => A, Mint.Round7, Growth) }

  /** The cycle, the stake of the only validator in coins, its balance, and the cap. */
  datatype Small = Small(cycle: nat, stake: nat, held: nat, cap: nat)

  predicate SmallOk(s: Small) {
    && s.cycle > 0 && s.stake > 0 && PowerToAmount(s.stake) + s.held <= s.cap && 100 * s.cap < PowerToAmount(TWO63)
  }

  /** Every parameter zero except the cycle, the gas limit, one validator and the cap. */
  function SmallParams(s: Small): Params {
    seq(Governance.FIELDS, i =>
      if i == INFLATION_CYCLE_BLOCKS then s.cycle
      else if i == BLOCK_GAS_LIMIT then 1000
      else if i == MAX_VALIDATOR_CNT then 1
      else if i == MAX_TOTAL_SUPPLY then s.cap
      else 0)
  }

  function SmallGenesis(s: Small): GenesisDoc {
    GenesisDoc([(A, s.held)], [GenesisValidator([], A, s.stake)], SmallParams(s))
  }

  lemma SmallParamsAreGood(s: Small)
    requires SmallOk(s)
    ensures GoodParams(SmallParams(s))
  {
  }

  lemma SmallSupply(s: Small)
    ensures var g := SmallGenesis(s); InitialSupply(g) == PowerToAmount(s.stake) + s.held
  {
    var g := SmallGenesis(s);
    assert g.holders[..0] == [] && HeldBy(g.holders) == HeldBy(g.holders[..0]) + s.held;
    assert g.vals[..0] == [] && GenesisPower(g.vals) == GenesisPower(g.vals[..0]) + s.stake;
  }

  lemma SmallEnvIsOk()
    ensures EnvOk(SmallEnv())
  {
    Mint.Round7Rounds();
    hide Mint.Round7;
  }

  lemma SmallGenesisIsOk(s: Small)
    requires SmallOk(s)
    ensures GenesisOk(SmallEnv(), SmallGenesis(s))
  {
    var g := SmallGenesis(s);
    SmallParamsAreGood(s);
    SmallSupply(s);
    assert g.holders[0].0 == A && g.vals[0].addr == A;
    hide InitialSupply;
    hide GoodParams;
    hide Mint.Round7;
  }

  // ----- the only stake

  function OnlyDelegatee(stake: nat): Delegatee { Delegatee([], stake, stake, [A]) }

  function OnlyStake(stake: nat): Stakes {
    Stakes(map[A := OnlyDelegatee(stake)], map[Link(A, A) := VPower(stake, [Chunk(stake, 1, 0)])], map[], map[])
  }

  lemma GenesisStake(s: Small)
    ensures Genesis(EMPTY, SmallGenesis(s).vals) == OnlyStake(s.stake)
  {
    var vals := SmallGenesis(s).vals;
    assert vals[..0] == [] && Genesis(EMPTY, []) == EMPTY;
    assert [] + [Chunk(s.stake, 1, 0)] == [Chunk(s.stake, 1, 0)] && [] + [A] == [A];
  }

  lemma OnlyOneOrdered(a: Address)
    ensures Keys.Ordered({a}) == [a]
  {
    assert Keys.Least({a}) in {a};
    assert {a} - {a} == {};
  }

  lemma OnlyOneListed(stake: nat)
    ensures var ds := Listing(OnlyStake(stake)); var d := OnlyDelegatee(stake);
      ValidatorSet.RunningValidators(ds, 1) == [d] && ValidatorSet.Select(ds, 1) == [d]
  {
    var d := OnlyDelegatee(stake);
    OnlyOneOrdered(A);
    assert OnlyStake(stake).delegatees.Keys == {A};
    assert Listing(OnlyStake(stake)) == [d];
    assert [d][1..] == [] && [d][..1] == [d] && ValidatorSet.Sort(ValidatorSet.PowerLess, [d]) == [d];
    assert ValidatorSet.Sort(ValidatorSet.PubLess, [d]) == [d];
  }

  // ----- calm states

  /** A chain without proposals whose only validator stakes all there is at stake, and whose limiter
      lets nothing through. */
  ghost predicate Calm(env: Env, c: State, h: int, stake: nat) {
    && Starts(env, c, h) && c.gov.props == map[] && c.gov.frozen == map[]
    && env.round == Mint.Round7 && env.inflate == Growth && (forall k :: env.addrOf(k) == A)
    && Param(c, MAX_VALIDATOR_CNT) == 1 && Param(c, MAX_UPDATABLE_POWER_RATE) == 0
    && Param(c, RIPENING_BLOCKS) == 0 && Param(c, BONDING_BLOCKS_WEIGHT_PERMIL) == 0
    && Param(c, INFLATION_WEIGHT_PERMIL) == 0
    && c.stakes == OnlyStake(stake) && c.validators == [OnlyDelegatee(stake)]
    && c.limiter.allowRate == 0 && c.limiter.last - c.limiter.subbing <= stake
  }

  predicate NoGovernance(txs: seq<Tx>) { forall tx <- txs :: !IsGov(tx) }

  /** A block that the validator signed, with these transactions and nothing else. The first block has
      no commit to carry. */
  function Plain(h: int, txs: seq<Tx>): Block { Block([], if h == 1 then [] else [Vote(A, true)], A, txs, map[]) }

  lemma SignedVoteOnly(c: State, h: int)
    requires Weighable(c) && c.stakes.missed == map[]
    ensures var r := CountBlockVotes(c, h, [Vote(A, true)]);
      && r.Success? && r.value.gov == c.gov && r.value.accts == c.accts && r.value.stakes == c.stakes
      && r.value.limiter == Limiter.ResetTo(PowerOfValidators(c.validators), Param(c, MAX_UPDATABLE_POWER_RATE))
  {
    var down := Param(c, INFLATION_CYCLE_BLOCKS) - Param(c, MIN_SIGNED_BLOCKS);
    var height := h + Param(c, LAZY_UNBONDING_BLOCKS);
    var vs := [Vote(A, true)];
    assert vs[1..] == [] && CountVotes(c.stakes, vs, down, height) == Success(c.stakes);
    hide Limiter.ResetTo;
  }

  lemma PowerOfOne(d: Delegatee)
    ensures PowerOfValidators([d]) == d.sum
  {
    assert [d][1..] == [];
  }

  lemma PlainBegins(env: Env, c: State, h: int, stake: nat, txs: seq<Tx>)
    requires Calm(env, c, h, stake)
    ensures var begin := Begun(env, c, h, Plain(h, txs));
      begin.gov == c.gov && begin.accts == c.accts && begin.stakes == c.stakes && Locked(begin)
  {
    var b := Plain(h, txs);
    var c0 := FreshBlock(env, c, h, b);
    assert c0.gov == c.gov && c0.accts == c.accts && c0.limiter == c.limiter && SlashEach(c0, []) == Success(c0);
    VotesOfPlain(c0, h, stake);
    var begin := Begun(env, c, h, b);
    hide FreshBlock;
    hide CountBlockVotes;
    hide Consistent;
    hide OnlyStake;
    hide Limiter.Bounded;
    OnlyIsLocked(begin, stake);
  }

  lemma VotesOfPlain(c: State, h: int, stake: nat)
    requires Weighable(c) && c.stakes == OnlyStake(stake) && c.validators == [OnlyDelegatee(stake)]
    requires Param(c, MAX_UPDATABLE_POWER_RATE) == 0
    requires c.limiter.allowRate == 0 && c.limiter.last - c.limiter.subbing <= stake
    ensures var r := CountBlockVotes(c, h, Plain(h, []).votes);
      && r.Success? && r.value.gov == c.gov && r.value.accts == c.accts && r.value.stakes == c.stakes
      && r.value.limiter.allowRate == 0 && r.value.limiter.last - r.value.limiter.subbing <= stake
  {
    SignedVoteOnly(c, h);
    PowerOfOne(OnlyDelegatee(stake));
  }

  lemma OnlyIsLocked(c: State, stake: nat)
    requires c.stakes == OnlyStake(stake) && Limiter.Bounded(c.limiter)
    requires c.limiter.allowRate == 0 && c.limiter.last - c.limiter.subbing <= stake
    ensures Locked(c)
  {
    hide Limiter.Bounded;
  }

  // ----- what plain blocks leave alone

  lemma {:induction false} NoGovTxs(env: Env, begin: State, c: State, h: int, txs: seq<Tx>)
    requires Safe(env, c, h) && Sized(begin) && Sized(c)
    requires begin.gov.live == c.gov.live && begin.accts.Keys <= c.accts.Keys
    requires Governance.Whole(env.parse) && TxsFit(txs) && NoGovernance(txs)
    ensures GovTxs(env, begin, c, h, txs) == []
    decreases |txs|
  {
    assert Supply.UpTo(c.rewards, h);
    hide Core;
    hide Governance.During;
    hide Deliver;
    if txs != [] {
      assert txs[0] in txs;
      DeliverIsSafe(env, begin, c, h, txs[0]);
      DeliverActs(env, begin, c, h, txs[0]);
      NoGovTxs(env, begin, Deliver(env, begin, c, h, txs[0]), h, txs[1..]);
    }
  }

  lemma PlainExecutes(env: Env, c: State, h: int, stake: nat, txs: seq<Tx>)
    requires Calm(env, c, h, stake) && TxsFit(txs) && NoGovernance(txs)
    ensures var e := Executed(env, c, h, Plain(h, txs)); e.gov == c.gov && e.stakes == c.stakes
  {
    var b := Plain(h, txs);
    PlainBegins(env, c, h, stake, txs);
    ExecutedActs(env, c, h, b);
    BeginPunishes(env, c, h, b);
    var begin := Begun(env, c, h, b);
    NoGovTxs(env, begin, begin, h, txs);
    NoStakeChanges(env, begin, begin, h, txs);
    hide Core;
    hide Locked;
    hide Begun;
  }

  lemma NothingEnds(parse: Governance.Parse, g: Governance.Gov, h: int)
    requires Governance.During(parse, g, h) && g.props == map[] && g.frozen == map[]
    ensures Governance.Settlement(g, h, map[]) && Governance.Committed(Governance.Ended(parse, g, h, map[])) == g
  {
    assert Governance.Freeze(g, map[]) == g;
    assert Governance.DueKeys(g, h) == {};
    Governance.EndBlockKeeps(parse, g, h, map[]);
  }

  // ----- minting

  lemma OnlyStaker(env: Env, stake: nat)
    requires forall k :: env.addrOf(k) == A
    ensures var s, vs := OnlyStake(stake), [OnlyDelegatee(stake)];
      && Stakers(s, env.addrOf, vs) == [Staker(A, A, [Chunk(stake, 1, 0)])]
      && AllChunks(s, env.addrOf, vs) == [Chunk(stake, 1, 0)]
  {
    var s, d, ch := OnlyStake(stake), OnlyDelegatee(stake), Chunk(stake, 1, 0);
    assert Chunks(s, Link(A, A)) == [ch] && [] + [ch] == [ch];
    assert [A][..0] == [] && Collected(s, A, [A]) == map[A := [ch]] && ChunksOf(s, A, [A]) == [ch];
    assert Collected(s, A, d.delegators).Keys == {A};
    OnlyOneOrdered(A);
    assert StakersOf(s, d, A) == [Staker(A, A, [ch])];
    assert [d][..0] == [];
  }

  lemma RipeChunk(sc: Scale, stake: nat)
    requires sc.ripening == 0 && sc.height >= 1
    ensures Scaled(sc, [Chunk(stake, 1, 0)]) == stake as real
  {
    var cs := [Chunk(stake, 1, 0)];
    assert cs[..0] == [];
  }

  /** The only staker has all the weight. */
  lemma OnlyWeight(env: Env, c: State, h: int, stake: nat)
    requires Calm(env, c, h, stake)
    ensures var w := CycleWeights(env, c, h);
      && w.allWeight == w.valWeight == Mint.Quot(Mint.Round7, stake as real, SupplyPower(c.supply) as real)
      && |w.bs| == 1 && w.bs[0].isValidator && w.bs[0].weight == w.allWeight
  {
    hide Starts;
    hide Stakers;
    hide AllChunks;
    hide Scaled;
    hide Mint.SignRate;
    hide Mint.Quot;
    hide Mint.Round7;
    hide Mint.WeighAll;
    PartsOfStart(env, c, h);
    OnlyStaker(env, stake);
    RipeChunk(ScaleAt(env, c, h), stake);
    WeighedAt(env, c, h);
    OneHolder(HoldersAt(env, c, h), stake as real, SupplyPower(c.supply) as real, env.round);
  }

  lemma OneHolder(hs: seq<Mint.Stakeholder>, allScaled: real, supplyPower: real, round: real -> real)
    requires |hs| == 1 && hs[0].isValidator
    ensures var w := Mint.WeighAll(hs, allScaled, supplyPower, round);
      && w.allWeight == w.valWeight == Mint.Quot(round, allScaled, supplyPower)
      && |w.bs| == 1 && w.bs[0].isValidator && w.bs[0].weight == w.allWeight
  {
    hide Mint.Quot;
    hide Mint.ShareOfWeight;
    var w := Mint.WeighAll(hs, allScaled, supplyPower, round);
    assert Mint.FirstWeights(hs, w.allWeight, allScaled, round) == [];
    assert Mint.ValidatorWeights(w.bs) == [w.allWeight] && [w.allWeight][1..] == [];
  }

  lemma CoinsStaked(env: Env, c: State, h: int, stake: nat)
    requires Calm(env, c, h, stake)
    ensures SupplyPower(c.supply) == c.supply / AMOUNT_PER_POWER >= stake
  {
    StartIsBalanced(env, c, h);
    PowersNonNegative(c.stakes);
    Bounds(env, c, h);
    SupplyPowerExact(c.supply);
    hide Consistent;
    hide Governance.During;
    hide SupplyPower;
    BondedStake(stake);
  }

  lemma BondedStake(stake: nat)
    requires Consistent(OnlyStake(stake))
    ensures Bonded(OnlyStake(stake)) == stake && FrozenPower(OnlyStake(stake)) == 0
  {
    hide Consistent;
    StakeInRange(stake);
    GenesisStake(Small(1, stake, 0, 0));
    var vals := SmallGenesis(Small(1, stake, 0, 0)).vals;
    assert vals[..0] == [] && GenesisPower(vals) == GenesisPower(vals[..0]) + stake;
    GenesisIsConsistent(vals);
  }

  lemma StakeInRange(stake: nat)
    requires Consistent(OnlyStake(stake))
    ensures PowerOk(stake)
  {
    var s := OnlyStake(stake);
    ConsistentParts(s);
    assert VPowerOk(s.vpowers[Link(A, A)]) && Chunk(stake, 1, 0) in s.vpowers[Link(A, A)].chunks;
  }

  /** Whether the stake weighs nothing against the supply. */
  predicate RoundedAway(stake: nat, supply: nat) { 20000000 * stake < supply / AMOUNT_PER_POWER }

  /** A mint is in order, and fails if and only if it is asked for in the first block or the only stake is
      rounded away. */
  lemma OnlyMint(env: Env, c: State, h: int, stake: nat)
    requires Calm(env, c, h, stake) && stake > 0
    ensures WeightsOk(env, c, h)
    ensures MintFails(env, c, h) <==> MintDue(c, h) && (h == 1 || RoundedAway(stake, c.supply))
  {
    hide Starts;
    hide CycleWeights;
    hide MintFails;
    hide MintDue;
    hide Mint.Quot;
    hide Mint.Round7;
    hide OnlyStake;
    hide SupplyPower;
    PartsOfStart(env, c, h);
    OnlyWeight(env, c, h, stake);
    CoinsStaked(env, c, h, stake);
    MintFailsIff(env, c, h);
    var sp := SupplyPower(c.supply);
    Mint.Round7Rounds();
    QuotNonNegative(Mint.Round7, stake as real, sp as real);
    RoundedAwayIff(stake as real, sp as real);
    assert 20000000.0 * stake as real == (20000000 * stake) as real;
    var w := CycleWeights(env, c, h);
    assert w.bs[0] in w.bs;
    assert Factor(env, c, h) >= 0.0;
  }

  // ----- runs of plain blocks

  lemma PlainBlockIsOk(env: Env, c: State, h: int, stake: nat, txs: seq<Tx>)
    requires Calm(env, c, h, stake) && stake > 0 && TxsFit(txs) && NoGovernance(txs)
    ensures BlockOk(env, c, h, Plain(h, txs))
  {
    PlainExecutes(env, c, h, stake, txs);
    NothingEnds(env.parse, c.gov, h);
    OnlyMint(env, c, h, stake);
    hide WeightsOk;
    hide Core;
    hide Executed;
    hide OnlyStake;
    hide Governance.Settlement;
  }

  /** Preparation only looks at the accounts and the parameters. */
  lemma SamePreparation(env: Env, c: State, h: int, c': State)
    requires Starts(env, c, h) && c'.gov == c.gov && c.accts.Keys <= c'.accts.Keys
    ensures Sized(c) && Sized(c') && forall tx :: Prepared(env, c, tx) ==> Prepared(env, c', tx)
  {
    SafeIsSized(env, c, h);
    hide Core;
    hide Governance.During;
  }

  lemma FinishStays(env: Env, x: State, h: int, stake: nat)
    requires Core(env, x, h) && x.feeSum == 0 && x.stakes == OnlyStake(stake)
    requires x.validators == [OnlyDelegatee(stake)]
    requires Param(x, MAX_VALIDATOR_CNT) == 1 && Param(x, MAX_UPDATABLE_POWER_RATE) == 0
    ensures Finish(x, h).Success?
    ensures var c' := Finish(x, h).value;
      && c'.stakes == x.stakes && c'.validators == x.validators && c'.limiter == Limiter.ResetTo(stake, 0)
  {
    FinishIsSafe(env, x, h);
    OnlyOneListed(stake);
    PowerOfOne(OnlyDelegatee(stake));
    assert AfterRefund(x.stakes, h) == x.stakes;
    hide Core;
    hide Unfreeze;
    hide Listing;
    hide ValidatorSet.RunningValidators;
  }

  lemma PlainStays(env: Env, c: State, h: int, stake: nat, txs: seq<Tx>, c': State)
    requires Calm(env, c, h, stake) && TxsFit(txs) && NoGovernance(txs) && StepTo(env, c, h, Plain(h, txs), c')
    ensures c'.gov == c.gov && c'.stakes == c.stakes && c'.validators == c.validators
    ensures c'.limiter == Limiter.ResetTo(stake, 0)
  {
    var b := Plain(h, txs);
    PlainExecutes(env, c, h, stake, txs);
    NothingEnds(env.parse, c.gov, h);
    assert Answered(env, c, h, b);
    hide MintFails;
    var x := RefundState(env, c, h, b);
    assert x.stakes == c.stakes && x.validators == c.validators && x.gov.live == c.gov.live;
    hide Starts;
    hide BlockOk;
    hide Executed;
    hide RefundState;
    hide Governance.During;
    hide Governance.Settlement;
    FinishIsSafe(env, x, h);
    FinishStays(env, x, h, stake);
    hide Finish;
  }

  /** A plain block of prepared transactions runs if and only if no mint fails in it, and leaves the
      chain calm. */
  lemma PlainStep(env: Env, c: State, h: int, stake: nat, txs: seq<Tx>)
    requires Calm(env, c, h, stake) && stake > 0 && TxsFit(txs) && NoGovernance(txs)
    requires forall tx <- txs :: Prepared(env, c, tx)
    ensures var b, c' := Plain(h, txs), Next(env, c, h, Plain(h, txs));
      if MintDue(c, h) && (h == 1 || RoundedAway(stake, c.supply)) then Panics(env, c, h, b, MintFailed)
      else
        && StepTo(env, c, h, b, c') && Adopts(c, c', h) && Calm(env, c', h + 1, stake)
        && c'.gov == c.gov && c.accts.Keys <= c'.accts.Keys && c'.supply <= Param(c, MAX_TOTAL_SUPPLY)
  {
    hide Starts;
    hide BlockOk;
    hide RunBlock;
    hide Begun;
    hide Balanced;
    hide Prepared;
    hide GoodParams;
    hide MintFails;
    hide MintDue;
    hide CountersOk;
    hide OnlyStake;
    hide Locked;
    hide RoundedAway;
    var b := Plain(h, txs);
    PlainBlockIsOk(env, c, h, stake, txs);
    PlainBegins(env, c, h, stake, txs);
    SamePreparation(env, c, h, Begun(env, c, h, b));
    OnlyMint(env, c, h, stake);
    BlockConserves(env, c, h, b);
    if StepTo(env, c, h, b, Next(env, c, h, b)) { PlainStays(env, c, h, stake, txs, Next(env, c, h, b)); }
  }

  lemma StaysThere(env: Env, c: State, h: int)
    requires Starts(env, c, h)
    ensures Completes(env, c, h, [])
  {
  }

  /** So plain blocks can follow one another for ever. */
  lemma {:induction false} PlainRun(env: Env, c: State, h: int, stake: nat, n: nat, txs: seq<Tx>)
    returns (bs: seq<Block>)
    requires Calm(env, c, h, stake) && stake > 0 && TxsFit(txs) && NoGovernance(txs)
    requires forall tx <- txs :: Prepared(env, c, tx)
    requires h > 1 || Param(c, INFLATION_CYCLE_BLOCKS) > 1
    requires !RoundedAway(stake, Param(c, MAX_TOTAL_SUPPLY))
    ensures |bs| == n && (forall i :: 0 <= i < n ==> bs[i] == Plain(h + i, txs)) && Completes(env, c, h, bs)
    decreases n
  {
    hide StepTo;
    hide Adopts;
    hide Next;
    hide Completes;
    hide Panics;
    hide OnlyStake;
    hide Starts;
    hide Balanced;
    StartIsBalanced(env, c, h);
    if n == 0 {
      bs := [];
      StaysThere(env, c, h);
    } else {
      var b := Plain(h, txs);
      FirstIsInside(h, Param(c, INFLATION_CYCLE_BLOCKS));
      LessIsKept(stake, c.supply, Param(c, MAX_TOTAL_SUPPLY));
      hide RoundedAway;
      PlainStep(env, c, h, stake, txs);
      var c' := Next(env, c, h, b);
      SamePreparation(env, c, h, c');
      var rest := PlainRun(env, c', h + 1, stake, n - 1, txs);
      bs := [b] + rest;
      assert bs[1..] == rest;
      OneMoreBlock(env, c, h, bs, c');
    }
  }

  lemma FirstIsInside(h: int, cycle: int)
    requires h > 1 || cycle > 1
    ensures h == 1 ==> h % cycle != 0
  {
  }

  lemma LessIsKept(stake: nat, supply: nat, cap: int)
    requires supply <= cap && !RoundedAway(stake, cap)
    ensures !RoundedAway(stake, supply)
  {
  }

  // ----- the small chain

  lemma GenesisParts(g: GenesisDoc)
    requires InitialSupply(g) >= 0
    ensures InitChain(g).gov == Governance.Gov(map[], map[], g.params, g.params, None)
    ensures InitChain(g).accts == Accounts.Holders(g.holders) && InitChain(g).stakes == Genesis(EMPTY, g.vals)
    ensures InitChain(g).validators == ValidatorSet.Select(Listing(Genesis(EMPTY, g.vals)), |g.vals|)
    ensures InitChain(g).limiter == Limiter.ResetTo(0, 0)
  {
  }

  /** The parameters that make a chain calm. */
  predicate CalmParams(p: Params) {
    && |p| == Governance.FIELDS && p[MAX_VALIDATOR_CNT] == 1 && p[MAX_UPDATABLE_POWER_RATE] == 0
    && p[RIPENING_BLOCKS] == 0 && p[BONDING_BLOCKS_WEIGHT_PERMIL] == 0 && p[INFLATION_WEIGHT_PERMIL] == 0
  }

  lemma GenesisIsCalm(env: Env, g: GenesisDoc, stake: nat)
    requires GenesisOk(env, g) && EnvOk(env) && InitialSupply(g) >= 0 && CalmParams(g.params)
    requires env.round == Mint.Round7 && env.inflate == Growth && (forall k :: env.addrOf(k) == A)
    requires |g.vals| == 1 && Genesis(EMPTY, g.vals) == OnlyStake(stake)
    ensures Calm(env, InitChain(g), 1, stake) && InitChain(g).supply == InitialSupply(g)
    ensures InitChain(g).gov.live == g.params && InitChain(g).accts == Accounts.Holders(g.holders)
  {
    hide GenesisOk;
    hide Genesis;
    hide OnlyStake;
    hide Listing;
    hide ValidatorSet.Select;
    hide EnvOk;
    hide Mint.Round7;
    hide Growth;
    hide Limiter.ResetTo;
    hide Limiter.Bounded;
    hide InitChain;
    hide InitialSupply;
    hide Core;
    hide Balanced;
    hide CountersOk;
    hide Governance.During;
    OnlyOneListed(stake);
    GenesisIsSafe(env, g);
    GenesisParts(g);
    EmptyIsBounded(InitChain(g).limiter);
  }

  lemma SmallFacts(s: Small)
    ensures var g := SmallGenesis(s);
      && CalmParams(g.params) && g.params[INFLATION_CYCLE_BLOCKS] == s.cycle && g.params[MAX_TOTAL_SUPPLY] == s.cap
      && |g.vals| == 1 && Accounts.Holders(g.holders).Keys == {A}
  {
    var g := SmallGenesis(s);
    assert g.holders == [(A, s.held)] && g.holders[..0] == [];
  }

  ghost predicate Opens(c: State, s: Small) {
    && Calm(SmallEnv(), c, 1, s.stake) && c.supply == PowerToAmount(s.stake) + s.held && s.stake > 0
    && Weighable(c) && Param(c, INFLATION_CYCLE_BLOCKS) == s.cycle && Param(c, MAX_TOTAL_SUPPLY) == s.cap
    && c.accts.Keys == {A}
  }

  lemma SmallGenesisIsCalm(s: Small)
    requires SmallOk(s)
    ensures GenesisOk(SmallEnv(), SmallGenesis(s)) && InitialSupply(SmallGenesis(s)) >= 0
    ensures Opens(InitChain(SmallGenesis(s)), s)
  {
    hide SmallGenesis;
    hide GenesisOk;
    hide EnvOk;
    hide Genesis;
    hide OnlyStake;
    hide InitialSupply;
    hide InitChain;
    hide Mint.Round7;
    hide Growth;
    hide CalmParams;
    hide Starts;
    SmallGenesisIsOk(s);
    SmallEnvIsOk();
    SmallSupply(s);
    GenesisStake(s);
    SmallFacts(s);
    GenesisIsCalm(SmallEnv(), SmallGenesis(s), s.stake);
  }

  /** From every such genesis with a cycle of more than one block and a cap against which the stake is not
      rounded away, for every length and for all transactions outside governance that are prepared, the
      run of plain blocks with these transactions satisfies all hypotheses. */
  lemma RunsExist(s: Small, n: nat, txs: seq<Tx>) returns (bs: seq<Block>)
    requires SmallOk(s) && s.cycle > 1 && !RoundedAway(s.stake, s.cap) && TxsFit(txs) && NoGovernance(txs)
    requires InitialSupply(SmallGenesis(s)) >= 0 && Sized(InitChain(SmallGenesis(s)))
    requires forall tx <- txs :: Prepared(SmallEnv(), InitChain(SmallGenesis(s)), tx)
    ensures GenesisOk(SmallEnv(), SmallGenesis(s))
    ensures |bs| == n && forall i :: 0 <= i < n ==> bs[i] == Plain(1 + i, txs)
    ensures Completes(SmallEnv(), InitChain(SmallGenesis(s)), 1, bs)
  {
    hide *;
    SmallGenesisIsCalm(s);
    bs := OpenRun(InitChain(SmallGenesis(s)), s, n, txs);
  }

  lemma OpenRun(c: State, s: Small, n: nat, txs: seq<Tx>) returns (bs: seq<Block>)
    requires Opens(c, s) && s.cycle > 1 && !RoundedAway(s.stake, s.cap) && TxsFit(txs) && NoGovernance(txs) && Sized(c)
    requires forall tx <- txs :: Prepared(SmallEnv(), c, tx)
    ensures |bs| == n && forall i :: 0 <= i < n ==> bs[i] == Plain(1 + i, txs)
    ensures Completes(SmallEnv(), c, 1, bs)
  {
    hide Calm;
    hide Completes;
    hide Prepared;
    hide SmallEnv;
    hide RoundedAway;
    bs := PlainRun(SmallEnv(), c, 1, s.stake, n, txs);
  }

  lemma CalmChainHalts(env: Env, c: State, h: int, stake: nat, tx: Tx)
    requires Calm(env, c, h, stake) && stake > 0 && tx.from !in c.accts && tx.amount < TWO256 && !IsGov(tx)
    ensures Panics(env, c, h, Plain(h, [tx]), CountMismatch)
  {
    hide Starts;
    hide BlockOk;
    hide Begun;
    hide Panics;
    hide OnlyStake;
    hide Locked;
    PlainBlockIsOk(env, c, h, stake, [tx]);
    PlainBegins(env, c, h, stake, [tx]);
    UnknownSenderHalts(env, c, h, Plain(h, [tx]), tx);
  }

  /** A block with one transaction, from an address without an account, halts the chain at once. */
  lemma StrangerHalts(s: Small, tx: Tx)
    requires SmallOk(s) && tx.from != A && tx.amount < TWO256 && !IsGov(tx)
    ensures InitialSupply(SmallGenesis(s)) >= 0
    ensures Panics(SmallEnv(), InitChain(SmallGenesis(s)), 1, Plain(1, [tx]), CountMismatch)
  {
    hide InitChain;
    hide Calm;
    hide Panics;
    hide SmallEnv;
    hide SmallGenesis;
    SmallGenesisIsCalm(s);
    CalmChainHalts(SmallEnv(), InitChain(SmallGenesis(s)), 1, s.stake, tx);
  }

  /** With a cycle of one block the first block halts it, although it is empty and carries no votes. */
  lemma ShortestCycleHalts(s: Small)
    requires SmallOk(s) && s.cycle == 1
    ensures InitialSupply(SmallGenesis(s)) >= 0 && Plain(1, []).votes == []
    ensures Panics(SmallEnv(), InitChain(SmallGenesis(s)), 1, Plain(1, []), MintFailed)
  {
    hide InitChain;
    hide Calm;
    hide Panics;
    hide SmallEnv;
    hide SmallGenesis;
    hide StepTo;
    hide Next;
    hide MintDue;
    hide Adopts;
    SmallGenesisIsCalm(s);
    DueAtOnce(InitChain(SmallGenesis(s)));
    PlainStep(SmallEnv(), InitChain(SmallGenesis(s)), 1, s.stake, []);
  }

  lemma DueAtOnce(c: State)
    requires Weighable(c) && Param(c, INFLATION_CYCLE_BLOCKS) == 1
    ensures MintDue(c, 1)
  {
  }

  /** With a cycle of two blocks, one coin at stake and a hundred million coins beside it: the first block
      runs, and the second halts the chain because the weight of the stake comes out as zero. */
  lemma RoundedAwayHalts() returns (c: State)
    ensures var s := Small(2, 1, PowerToAmount(100000000), PowerToAmount(1000000000)); var g := SmallGenesis(s);
      && SmallOk(s) && InitialSupply(g) >= 0
      && StepTo(SmallEnv(), InitChain(g), 1, Plain(1, []), c)
      && Panics(SmallEnv(), c, 2, Plain(2, []), MintFailed)
  {
    var s := Small(2, 1, PowerToAmount(100000000), PowerToAmount(1000000000));
    assert SmallOk(s);
    c := HaltsAfterOne(s);
  }

  /** In general: with a cycle of two blocks and a stake that is rounded away against the first supply. */
  lemma HaltsAfterOne(s: Small) returns (c: State)
    requires SmallOk(s) && s.cycle == 2 && RoundedAway(s.stake, PowerToAmount(s.stake) + s.held)
    ensures InitialSupply(SmallGenesis(s)) >= 0
    ensures StepTo(SmallEnv(), InitChain(SmallGenesis(s)), 1, Plain(1, []), c)
    ensures Panics(SmallEnv(), c, 2, Plain(2, []), MintFailed)
  {
    hide *;
    SmallGenesisIsCalm(s);
    OpenSupply(InitChain(SmallGenesis(s)), s);
    c := SecondHalts(InitChain(SmallGenesis(s)), s);
  }

  lemma OpenSupply(c: State, s: Small)
    requires Opens(c, s)
    ensures c.supply == PowerToAmount(s.stake) + s.held
  {
    hide Calm;
  }

  lemma SecondHalts(c0: State, s: Small) returns (c: State)
    requires Opens(c0, s) && s.cycle == 2 && RoundedAway(s.stake, c0.supply)
    ensures StepTo(SmallEnv(), c0, 1, Plain(1, []), c) && Panics(SmallEnv(), c, 2, Plain(2, []), MintFailed)
  {
    hide Calm;
    hide Panics;
    hide SmallEnv;
    hide StepTo;
    hide Next;
    hide MintDue;
    hide Adopts;
    hide RoundedAway;
    hide Balanced;
    hide Starts;
    NotDueAtOnce(c0);
    PlainStep(SmallEnv(), c0, 1, s.stake, []);
    c := Next(SmallEnv(), c0, 1, Plain(1, []));
    StepConserves(SmallEnv(), c0, 1, Plain(1, []), c);
    NotDueAtOnce(c);
    MoreIsRoundedAway(s.stake, c0.supply, c.supply);
    PlainStep(SmallEnv(), c, 2, s.stake, []);
  }

  lemma NotDueAtOnce(c: State)
    requires Weighable(c) && Param(c, INFLATION_CYCLE_BLOCKS) == 2
    ensures !MintDue(c, 1) && MintDue(c, 2)
  {
  }

  lemma MoreIsRoundedAway(stake: nat, supply: nat, more: nat)
    requires RoundedAway(stake, supply) && supply <= more
    ensures RoundedAway(stake, more)
  {
  }
}
