/** node/app.go, node/trx_executor.go and the block handlers of the controllers: one block after
    another, transactions executed in order, for every transaction type that the EVM does not
    handle. */
module Chain {
  import opened Base
  import opened Accounts
  import opened Stake
  import opened Refunds
  import Supply
  import Keys
  import Limiter
  import ValidatorSet
  import Ballot
  import Governance
  import Mint
  import VotingWeights

  // ----- governance parameters, by protobuf field

  type Params = Governance.Params

  const MAX_VALIDATOR_CNT := 2
  const MIN_VALIDATOR_POWER := 3
  const MIN_DELEGATOR_POWER := 4
  const MIN_SELF_POWER_RATE := 7
  const MAX_UPDATABLE_POWER_RATE := 8
  const MIN_SIGNED_BLOCKS := 11
  const LAZY_UNBONDING_BLOCKS := 12
  const MAX_TOTAL_SUPPLY := 13
  const INFLATION_WEIGHT_PERMIL := 14
  const INFLATION_CYCLE_BLOCKS := 15
  const BONDING_BLOCKS_WEIGHT_PERMIL := 16
  const RIPENING_BLOCKS := 17
  const DEAD_ADDRESS := 19
  const VALIDATOR_REWARD_RATE := 20
  const TX_FEE_REWARD_RATE := 21
  const GAS_PRICE := 23
  const MIN_TRX_GAS := 24
  const BLOCK_GAS_LIMIT := 26

  const MAX_ACCT_NAME := 2048
  const MAX_ACCT_DOCURL := 2048
  const ZERO_ADDRESS: Address := 0

  /** What the node computes outside this model: the JSON decoder of parameter proposals, the address
      of a public key, the rounding of fixed-point products and quotients, and the factor of the
      issuance for an inflation weight and a total weight. */
  datatype Env = Env(parse: Governance.Parse, addrOf: PubKey -> Address, round: real -> real,
                     inflate: (int, real) -> real)

  // ----- state

  datatype State = State(
    accts: Accts,
    stakes: Stakes,
    limiter: Limiter.Counters,
    validators: seq<Delegatee>,
    rewards: Supply.Rewards,
    supply: nat,
    gov: Governance.Gov,
    feeSum: nat,
    gasLeft: int)

  datatype Kind =
    | Transfer
    | SetDoc(name: string, url: string)
    | Staking
    | Unstaking(target: Hash)
    | Withdraw(req: nat)
    | Proposal(payload: Governance.Payload)
    | Voting(proposal: Hash, choice: int)

  /** A decoded transaction whose signatures verify; `payer` is the sender when nobody else signed
      for the fee. */
  datatype Tx = Tx(kind: Kind, from: Address, to: Address, payer: Address, amount: nat, gas: nat, gasPrice: nat,
                   nonce: int, hash: Hash, pubKey: PubKey)

  /** Where the node panics. */
  datatype Halt = SlashFailed | VotesFailed | CountMismatch | FeeFailed | MintFailed | RefundFailed

  function Param(c: State, i: nat): int
    requires |c.gov.live| == Governance.FIELDS && i < Governance.FIELDS
  {
    c.gov.live[i]
  }

  predicate Sized(c: State) {
    |c.gov.live| == Governance.FIELDS && forall k <- c.gov.props :: Governance.Shape(c.gov.props[k])
  }

  // ----- preparing a transaction (ctrlers/types/trx_ctx.go)

  /** Checked against the state at the beginning of the block. */
  predicate Prepared(env: Env, c: State, tx: Tx)
    requires Sized(c)
  {
    && !Negative(tx.amount) && !Negative(tx.gasPrice)
    && tx.gas >= Param(c, MIN_TRX_GAS) && tx.gasPrice == Param(c, GAS_PRICE)
    && env.addrOf(tx.pubKey) == tx.from
    && tx.from in c.accts && tx.payer in c.accts
  }

  // ----- validating

  function Fee(tx: Tx): nat { Mul256(tx.gasPrice, tx.gas) }

  predicate CommonOk(c: State, tx: Tx)
    requires tx.from in c.accts && tx.payer in c.accts
  {
    && c.gasLeft > 0 && c.gasLeft >= tx.gas
    && (if tx.from != tx.payer then Fee(tx) <= c.accts[tx.payer].balance && tx.amount <= c.accts[tx.from].balance
        else Add256(Fee(tx), tx.amount) <= c.accts[tx.from].balance)
    && c.accts[tx.from].nonce == tx.nonce
  }

  function StakingPower(amount: nat): int { ToInt64(amount / AMOUNT_PER_POWER % TWO64) }

  /** Does the limiter accept the change? A division by zero would panic in the source. */
  predicate WithinLimit(l: Limiter.Counters, power: int, op: Limiter.PowerOp) {
    Limiter.Divides(l, power, op) && Limiter.Check(l, power, op).Accepted?
  }

  /** The percentage of its own power that a delegatee would keep, computed in int64. */
  function SelfRate(d: Delegatee, power: int): int
    requires Add64(d.sum, power) != 0
  {
    GoDiv(Wrap64(d.self * 100), Add64(d.sum, power))
  }

  predicate StakingOk(c: State, tx: Tx)
    requires Sized(c)
  {
    var power := StakingPower(tx.amount);
    && tx.amount / AMOUNT_PER_POWER > 0 && tx.amount % AMOUNT_PER_POWER == 0 && power > 0
    && (if tx.from == tx.to then
          var self := if tx.to in c.stakes.delegatees then c.stakes.delegatees[tx.to].self else 0;
          var sum := if tx.to in c.stakes.delegatees then c.stakes.delegatees[tx.to].sum else 0;
          Add64(power, self) >= Param(c, MIN_VALIDATOR_POWER) && sum <= TWO63 - 1 - power
        else
          && tx.to in c.stakes.delegatees
          && Param(c, MIN_DELEGATOR_POWER) <= power
          && var d := c.stakes.delegatees[tx.to];
            && Add64(d.sum, power) != 0 && SelfRate(d, power) >= Param(c, MIN_SELF_POWER_RATE)
            && d.sum <= TWO63 - 1 - power)
    && WithinLimit(c.limiter, power, Limiter.AddPower)
  }

  predicate UnstakingOk(c: State, tx: Tx)
    requires tx.kind.Unstaking?
  {
    && tx.to in c.stakes.delegatees && Link(tx.from, tx.to) in c.stakes.vpowers
    && var pc := FirstChunk(c.stakes.vpowers[Link(tx.from, tx.to)].chunks, tx.kind.target);
      pc.Some? && WithinLimit(c.limiter, pc.value.power, Limiter.SubPower)
  }

  predicate WithdrawOk(c: State, tx: Tx)
    requires tx.kind.Withdraw?
  {
    tx.amount == 0 && tx.from in c.rewards && tx.kind.req <= c.rewards[tx.from].cumulated
  }

  function GovTx(tx: Tx): Governance.Tx
    requires tx.kind.Proposal? || tx.kind.Voting?
  {
    if tx.kind.Proposal? then Governance.Propose(tx.hash, tx.from, tx.to == ZERO_ADDRESS, tx.kind.payload)
    else Governance.CastVote(tx.kind.proposal, tx.from, tx.to == ZERO_ADDRESS, tx.kind.choice)
  }

  /** The validators as the electorate of a new proposal. */
  function Voters(env: Env, vs: seq<Delegatee>): seq<Ballot.Voter> {
    seq(|vs|, i requires 0 <= i < |vs| => Ballot.Voter(env.addrOf(vs[i].pubKey), vs[i].sum, Ballot.NOT_CHOICE))
  }

  predicate Validated(env: Env, c: State, h: int, tx: Tx)
    requires Sized(c) && tx.from in c.accts && tx.payer in c.accts
  {
    && CommonOk(c, tx)
    && match tx.kind
      case Transfer => true
      case SetDoc(name, url) => |name| <= MAX_ACCT_NAME && |url| <= MAX_ACCT_DOCURL
      case Staking => StakingOk(c, tx)
      case Unstaking(_) => UnstakingOk(c, tx)
      case Withdraw(_) => WithdrawOk(c, tx)
      case Proposal(_) => Governance.CanPropose(env.parse, c.gov, h, Voters(env, c.validators), GovTx(tx))
      case Voting(_, _) => Governance.CanVote(c.gov, h, GovTx(tx))
  }

  /** The limiter counts a staking or unstaking transaction when it is validated. */
  function Counted(c: State, tx: Tx): State
    requires tx.kind.Staking? ==> Limiter.Divides(c.limiter, StakingPower(tx.amount), Limiter.AddPower)
    requires tx.kind.Unstaking? ==> UnstakingOk(c, tx)
  {
    match tx.kind
    case Staking => c.(limiter := Limiter.Apply(c.limiter, StakingPower(tx.amount), Limiter.AddPower))
    case Unstaking(target) =>
      var pc := FirstChunk(c.stakes.vpowers[Link(tx.from, tx.to)].chunks, target).value;
      c.(limiter := Limiter.Apply(c.limiter, pc.power, Limiter.SubPower))
    case _ => c
  }

  // ----- running

  /** runTrx: None is an error. */
  function Run(env: Env, c: State, h: int, tx: Tx): Option<State>
    requires Sized(c) && tx.from in c.accts && Supply.UpTo(c.rewards, h)
  {
    match tx.kind
    case Transfer =>
      var r := Accounts.Transfer(c.accts, tx.from, tx.to, tx.amount);
      if r.Success? then Some(c.(accts := r.value)) else None
    case SetDoc(name, url) =>
      var m := c.accts[tx.from := c.accts[tx.from].(name := name, url := url)];
      Some(c.(accts := m[tx.to := Get(m, tx.to)]))
    case Staking =>
      var r := Bond(c.stakes, tx.pubKey, tx.from, tx.to, Chunk(StakingPower(tx.amount), h, tx.hash));
      var m := SubBalance(c.accts, tx.from, tx.amount);
      if r.Success? && m.Success? then Some(c.(stakes := r.value, accts := m.value)) else None
    case Unstaking(target) =>
      var r := Unbond(c.stakes, tx.from, tx.to, target, h + Param(c, LAZY_UNBONDING_BLOCKS));
      if r.Success? then Some(c.(stakes := r.value)) else None
    case Withdraw(req) =>
      if tx.from !in c.rewards then None
      else
        var m := Accounts.Reward(c.accts, tx.from, req);
        if m.Success? then Some(c.(rewards := Supply.WithdrawFrom(c.rewards, tx.from, req, h),
            accts := m.value)) else None
    case Proposal(_) => Some(c.(gov := Governance.Execute(env.parse, c.gov, h, Voters(env, c.validators), GovTx(tx))))
    case Voting(_, _) =>
      if Governance.CanVote(c.gov, h, GovTx(tx)) && Ballot.IndexOf(c.gov.props[tx.kind.proposal].ballot.voters,
          tx.from) < |c.gov.props[tx.kind.proposal].ballot.voters|
      then Some(c.(gov := Governance.Execute(env.parse, c.gov, h, Voters(env, c.validators), GovTx(tx)))) else None
  }

  /** postRunTrx: the gas is used, the payer pays, the sender's nonce moves on. */
  function Charge(c: State, tx: Tx): Option<State>
    requires tx.from in c.accts && tx.payer in c.accts
  {
    var m := SubBalance(c.accts, tx.payer, Fee(tx));
    if m.Failure? then None
    else
      var x := m.value[tx.from];
      Some(c.(gasLeft := c.gasLeft - tx.gas, accts := m.value[tx.from := x.(nonce := x.nonce + 1)]))
  }

  /** One transaction of block `h`. One that fails preparation or validation changes nothing; one
      that fails while running is charged, but its fee is not recorded. When the charge itself
      fails, the gas is used all the same, and the error is lost. */
  function Deliver(env: Env, begin: State, c: State, h: int, tx: Tx): State
    requires Sized(begin) && Sized(c) && Supply.UpTo(c.rewards, h) && begin.accts.Keys <= c.accts.Keys
  {
    if !Prepared(env, begin, tx) || !Validated(env, c, h, tx) then c
    else
      var v := Counted(c, tx);
      var r := Run(env, v, h, tx);
      var ran := if r.Some? && tx.from in r.value.accts && tx.payer in r.value.accts then r.value else v;
      var paid := Charge(ran, tx);
      var after := if paid.Some? then paid.value else ran.(gasLeft := ran.gasLeft - tx.gas);
      if r.None? then after else after.(feeSum := Add256(after.feeSum, Fee(tx)))
  }

  /** The number of transactions that have been prepared, which DeliverTx counts. */
  function TxsCnt(env: Env, begin: State, txs: seq<Tx>): nat
    requires Sized(begin)
  {
    if txs == [] then 0 else (if Prepared(env, begin, txs[0]) then 1 else 0) + TxsCnt(env, begin, txs[1..])
  }

  /** EndBlock compares the slots with the count and panics when they differ: exactly when some
      transaction could not be prepared. */
  lemma {:induction false} AllCountedIff(env: Env, begin: State, txs: seq<Tx>)
    requires Sized(begin)
    ensures TxsCnt(env, begin, txs) <= |txs|
    ensures TxsCnt(env, begin, txs) == |txs| <==> forall tx <- txs :: Prepared(env, begin, tx)
  {
    hide Prepared;
    if txs != [] {
      AllCountedIff(env, begin, txs[1..]);
      assert forall tx :: tx in txs <==> tx == txs[0] || tx in txs[1..];
    }
  }

  // ----- the beginning of a block

  datatype Block = Block(byzantine: seq<Address>, votes: seq<Vote>, proposer: Address, txs: seq<Tx>,
                         settled: map<Hash, Governance.Prop>)

  /** Slash one misbehaving validator's stake to the dead address; an unknown one is only logged. */
  function SlashOne(c: State, a: Address): Result<State, Halt>
    requires |c.gov.live| == Governance.FIELDS && Param(c, DEAD_ADDRESS) >= 0
  {
    var r := Stake.Slash(c.stakes, a, Param(c, Governance.SLASH_RATE));
    if r.Failure? then Success(c)
    else
      var m := AddBalance(c.accts, Param(c, DEAD_ADDRESS), RefundAmount(r.value.1));
      if m.Success? then Success(c.(stakes := r.value.0, accts := m.value)) else Failure(SlashFailed)
  }

  function SlashEach(c: State, bad: seq<Address>): Result<State, Halt>
    requires |c.gov.live| == Governance.FIELDS && Param(c, DEAD_ADDRESS) >= 0
    decreases |bad|
  {
    if bad == [] then Success(c)
    else
      var r := SlashOne(c, bad[0]);
      if r.Failure? then r else SlashEach(r.value, bad[1..])
  }

  function PowerOfValidators(vs: seq<Delegatee>): int { if vs == [] then 0 else vs[0].sum + PowerOfValidators(vs[1..]) }

  /** Count the last commit's votes, jail for missed blocks, and reset the limiter. */
  function CountBlockVotes(c: State, h: int, votes: seq<Vote>): Result<State, Halt>
    requires |c.gov.live| == Governance.FIELDS && Param(c, INFLATION_CYCLE_BLOCKS) > 0
  {
    if votes == [] then Success(c)
    else
      var r := CountVotes(c.stakes, votes, Param(c, INFLATION_CYCLE_BLOCKS) - Param(c, MIN_SIGNED_BLOCKS),
          h + Param(c, LAZY_UNBONDING_BLOCKS));
      if r.Failure? then Failure(VotesFailed)
      else
        var s := if h > 0 && h % Param(c, INFLATION_CYCLE_BLOCKS) == 0 then r.value.(missed := map[]) else r.value;
        Success(c.(stakes := s, limiter := Limiter.ResetTo(PowerOfValidators(c.validators), Param(c,
            MAX_UPDATABLE_POWER_RATE))))
  }

  // ----- the end of a block

  function ProposerPart(fees: nat, rate: nat): nat { Mul256(fees, rate) / 100 }

  /** The proposer's part of the fees, and the rest to the dead address; the fees are then spent. */
  function SplitFees(c: State, proposer: Address): Result<State, Halt>
    requires |c.gov.live| == Governance.FIELDS && Param(c, DEAD_ADDRESS) >= 0 && Param(c, TX_FEE_REWARD_RATE) >= 0
  {
    if c.feeSum == 0 || Negative(c.feeSum) then Success(c)
    else
      var rwd := ProposerPart(c.feeSum, Param(c, TX_FEE_REWARD_RATE));
      var m := AddBalance(c.accts, proposer, rwd);
      if m.Failure? then Failure(FeeFailed)
      else
        var m' := AddBalance(m.value, Param(c, DEAD_ADDRESS), Sub256(c.feeSum, rwd));
        if m'.Failure? then Failure(FeeFailed) else Success(c.(accts := m'.value, feeSum := 0))
  }

  // ----- minting

  predicate MintDue(c: State, h: int)
    requires |c.gov.live| == Governance.FIELDS && Param(c, INFLATION_CYCLE_BLOCKS) > 0
  {
    h > 0 && h % Param(c, INFLATION_CYCLE_BLOCKS) == 0
  }

  predicate Weighable(c: State) { |c.gov.live| == Governance.FIELDS && Param(c, INFLATION_CYCLE_BLOCKS) > 0 }

  /** The power of an amount, as int64; a negative one is an error whose value is used all the same. */
  function SupplyPower(supply: nat): int {
    var p := Wrap64(supply / AMOUNT_PER_POWER);
    if p < 0 then -1 else p
  }

  /** How the chunks are weighed in block `h`. */
  function ScaleAt(env: Env, c: State, h: int): VotingWeights.Scale
    requires Weighable(c)
  {
    VotingWeights.Scale(h, Param(c, RIPENING_BLOCKS), Param(c, BONDING_BLOCKS_WEIGHT_PERMIL), env.round)
  }

  /** The weights that the routine asked in block `h` gets: from the state before the block. */
  ghost function CycleWeights(env: Env, c: State, h: int): Mint.Weighing
    requires Weighable(c)
  {
    VotingWeights.WeighStakers(c.stakes, env.addrOf, c.validators, Param(c, INFLATION_CYCLE_BLOCKS),
        ScaleAt(env, c, h), SupplyPower(c.supply))
  }

  /** ComputeWeight reads the ledger of the block before, which the first block does not have, and the
      entry of every staker. */
  ghost predicate NoWeights(env: Env, c: State, h: int) {
    h == 1 || VotingWeights.LookupFails(c.stakes, env.addrOf, c.validators)
  }

  ghost function MintIssue(env: Env, c: State, h: int): real
    requires Weighable(c) && Param(c, MAX_TOTAL_SUPPLY) >= 0
  {
    Mint.Issuance(Param(c, MAX_TOTAL_SUPPLY), c.supply,
        env.inflate(Param(c, INFLATION_WEIGHT_PERMIL), CycleWeights(env, c, h).allWeight))
  }

  /** The mint routine, asked in a block that starts in `c`, panics or answers with an error. */
  ghost predicate MintFails(env: Env, c: State, h: int)
    requires Weighable(c) && Param(c, MAX_TOTAL_SUPPLY) >= 0
  {
    && MintDue(c, h)
    && var w := CycleWeights(env, c, h);
      Mint.RewardsFail(NoWeights(env, c, h), w.bs, MintIssue(env, c, h), w.allWeight, w.valWeight)
  }

  function MintAmounts(c: State, w: Mint.Weighing, issue: real): (amts: seq<nat>)
    requires |c.gov.live| == Governance.FIELDS && Mint.Divides(w.bs, w.allWeight, w.valWeight)
    ensures |amts| == |w.bs|
  {
    Mint.Amounts(Mint.Shares(Mint.Split(issue, Param(c, VALIDATOR_REWARD_RATE), w.allWeight, w.valWeight), w.bs), 0.0)
  }

  function Pays(bs: seq<Mint.Beneficiary>, amts: seq<nat>): seq<(Address, nat)>
    requires |amts| == |bs|
    decreases |bs|
  {
    if bs == [] then [] else [(bs[0].addr, amts[0])] + Pays(bs[1..], amts[1..])
  }

  /** At the end of each inflation cycle. */
  function MintRewards(c: State, h: int, w: Mint.Weighing, issue: real): State
    requires Weighable(c) && Supply.UpTo(c.rewards, h)
    requires MintDue(c, h) ==> Mint.Divides(w.bs, w.allWeight, w.valWeight)
  {
    if MintDue(c, h) then
      var pays := Pays(w.bs, MintAmounts(c, w, issue));
      c.(rewards := Supply.Distribute(c.rewards, pays, h), supply := Add256(c.supply, Supply.PaySum(pays)))
    else c
  }

  ghost function Listing(s: Stakes): seq<Delegatee> {
    Keys.OrderedIsAscending(s.delegatees.Keys);
    var ks := Keys.Ordered(s.delegatees.Keys);
    seq(|ks|, i requires 0 <= i < |ks| => assert ks[i] in ks; s.delegatees[ks[i]])
  }

  /** Refund what falls due, then choose the validators again. */
  ghost function SettleStakes(c: State, h: int): Result<State, Halt>
    requires |c.gov.live| == Governance.FIELDS && Param(c, MAX_VALIDATOR_CNT) >= 0
  {
    var r := Unfreeze(c.accts, c.stakes, h);
    if r.Failure? then Failure(RefundFailed)
    else Success(c.(accts := r.value.0, stakes := r.value.1,
                    limiter := Limiter.ResetTo(PowerOfValidators(c.validators), Param(c, MAX_UPDATABLE_POWER_RATE)),
                    validators := ValidatorSet.RunningValidators(Listing(r.value.1), Param(c, MAX_VALIDATOR_CNT))))
  }
}
