/** node/trx_executor.go and node/app.go: the node object that validates, runs and charges
    transactions on its controllers, proved against the value-level chain of `Chain`. */
module Node {
  import opened Base
  import opened Accounts
  import opened Stake
  import opened StakeInvariants
  import opened Chain
  import opened ChainInvariant
  import opened Validation
  import opened Conservation
  import opened Refunds
  import Delegations
  import StakeCtrler
  import Supply
  import Limiter
  import Governance

  /** The power of every delegatee is an int64 that is not negative. */
  predicate SumsOk(dm: map<Address, Delegatee>) { forall a <- dm :: 0 <= dm[a].sum < TWO63 }

  class BeatozApp {
    const acct: AcctCtrler
    const vpow: StakeCtrler.VPowerCtrler
    const limiter: Limiter.VPowerLimiter
    const supply: Supply.SupplyCtrler
    const gov: Governance.GovCtrler
    var validators: seq<Delegatee>
    var feeSum: nat
    var gasLeft: int

    ghost function View(): State
      reads this, acct, vpow, limiter, supply, gov
    {
      State(acct.accts, vpow.View(), limiter.View(), validators, supply.rewards, supply.totalSupply, gov.View(),
          feeSum, gasLeft)
    }

    constructor (a: AcctCtrler, v: StakeCtrler.VPowerCtrler, l: Limiter.VPowerLimiter, s: Supply.SupplyCtrler,
            g: Governance.GovCtrler,
                 vals: seq<Delegatee>)
      ensures acct == a && vpow == v && limiter == l && supply == s
      ensures gov == g && validators == vals && feeSum == 0 && gasLeft == 0
    {
      acct, vpow, limiter, supply, gov, validators, feeSum, gasLeft := a, v, l, s, g, vals, 0, 0;
    }

    // ----- validation

    method CommonValidation(tx: Tx) returns (ok: bool)
      requires tx.from in acct.accts && tx.payer in acct.accts
      ensures ok == CommonOk(View(), tx)
    {
      if gasLeft <= 0 || gasLeft < tx.gas { return false; }
      var fee := Mul256(tx.gasPrice, tx.gas);
      if tx.from != tx.payer {
        if fee > acct.accts[tx.payer].balance || tx.amount > acct.accts[tx.from].balance { return false; }
      } else {
        var need := Add256(fee, tx.amount);
        if need > acct.accts[tx.from].balance { return false; }
      }
      return acct.accts[tx.from].nonce == tx.nonce;
    }

    method ValidateStaking(tx: Tx) returns (ok: bool)
      requires Sized(View()) && Limiter.Bounded(limiter.View()) && tx.kind.Staking? && SumsOk(vpow.delegatees)
      modifies limiter
      ensures ok == StakingOk(old(View()), tx)
      ensures ok ==> Limiter.Divides(old(limiter.View()), StakingPower(tx.amount), Limiter.AddPower)
      ensures ok ==> View() == Counted(old(View()), tx)
      ensures !ok ==> View() == old(View())
    {
      var q, r := tx.amount / AMOUNT_PER_POWER, tx.amount % AMOUNT_PER_POWER;
      if q <= 0 || r != 0 { return false; }
      var power := ToInt64(q % TWO64);
      if power <= 0 { return false; }
      assert power == StakingPower(tx.amount);
      var total := 0;
      if tx.from == tx.to {
        var self := power;
        if tx.to in vpow.delegatees {
          self := Add64(self, vpow.delegatees[tx.to].self);
          total := vpow.delegatees[tx.to].sum;
        }
        if self < gov.govParams[MIN_VALIDATOR_POWER] { return false; }
      } else {
        if tx.to !in vpow.delegatees { return false; }
        if gov.govParams[MIN_DELEGATOR_POWER] > power { return false; }
        var d := vpow.delegatees[tx.to];
        if SelfRate(d, power) < gov.govParams[MIN_SELF_POWER_RATE] { return false; }
        total := d.sum;
      }
      if total > TWO63 - 1 - power { return false; }
      var verdict := limiter.CheckLimit(power, Limiter.AddPower);
      return verdict.Accepted?;
    }

    method ValidateUnstaking(tx: Tx) returns (ok: bool)
      requires Limiter.Bounded(limiter.View()) && tx.kind.Unstaking? && VPowersOk(vpow.vpowers)
      modifies limiter
      ensures ok == UnstakingOk(old(View()), tx)
      ensures View() == if ok then Counted(old(View()), tx) else old(View())
    {
      if tx.to !in vpow.delegatees || Link(tx.from, tx.to) !in vpow.vpowers { return false; }
      var pc := FirstChunk(vpow.vpowers[Link(tx.from, tx.to)].chunks, tx.kind.target);
      if pc.None? { return false; }
      assert VPowerOk(vpow.vpowers[Link(tx.from, tx.to)]);
      var verdict := limiter.CheckLimit(pc.value.power, Limiter.SubPower);
      return verdict.Accepted?;
    }

    /** validateTrx: the limiter counts what it lets through. */
    method ValidateTrx(env: Env, h: int, tx: Tx) returns (ok: bool)
      requires Sized(View()) && tx.from in acct.accts && tx.payer in acct.accts
      requires Limiter.Bounded(limiter.View()) && VPowersOk(vpow.vpowers) && SumsOk(vpow.delegatees)
      modifies limiter
      ensures ok == Validated(env, old(View()), h, tx)
      ensures ok && tx.kind.Staking? ==> Limiter.Divides(old(limiter.View()), StakingPower(tx.amount), Limiter.AddPower)
      ensures View() == if ok then Counted(old(View()), tx) else old(View())
    {
      ok := CommonValidation(tx);
      if !ok { return; }
      match tx.kind
      case Transfer =>
      case SetDoc(name, url) => ok := |name| <= MAX_ACCT_NAME && |url| <= MAX_ACCT_DOCURL;
      case Staking => ok := ValidateStaking(tx);
      case Unstaking(_) => ok := ValidateUnstaking(tx);
      case Withdraw(req) => ok := tx.amount == 0 && tx.from in supply.rewards
          && req <= supply.rewards[tx.from].cumulated;
      case Proposal(_) => ok := Governance.CanPropose(env.parse, gov.View(), h, Voters(env, validators), GovTx(tx));
      case Voting(_, _) => ok := Governance.CanVote(gov.View(), h, GovTx(tx));
    }

    // ----- running

    /** The staking transaction bonds first and pays afterwards. */
    method RunStaking(env: Env, h: int, tx: Tx) returns (ok: bool)
      requires Sized(View()) && tx.from in acct.accts && Supply.UpTo(supply.rewards, h) && tx.kind.Staking?
      modifies vpow, acct
      ensures Run(env, old(View()), h, tx).Some? ==> ok && View() == Run(env, old(View()), h, tx).value
    {
      var err := vpow.ExecBonding(tx.pubKey, tx.from, tx.to, Chunk(ToInt64(tx.amount / AMOUNT_PER_POWER % TWO64), h,
          tx.hash));
      if err != None { return false; }
      var sender := new Account.Load(tx.from, acct.accts[tx.from]);
      var e := sender.Sub(tx.amount);
      if e != None { return false; }
      acct.accts := acct.accts[tx.from := sender.Value()];
      return true;
    }

    method RunSetDoc(tx: Tx)
      requires tx.from in acct.accts && tx.kind.SetDoc?
      modifies acct
      ensures var m := old(acct.accts)[tx.from := old(acct.accts)[tx.from].(name := tx.kind.name, url := tx.kind.url)];
        acct.accts == m[tx.to := Get(m, tx.to)]
    {
      var sender := new Account.Load(tx.from, acct.accts[tx.from]);
      sender.SetDoc(tx.kind.name, tx.kind.url);
      acct.accts := acct.accts[tx.from := sender.Value()];
      acct.accts := acct.accts[tx.to := Get(acct.accts, tx.to)];
    }

    /** runTrx, for a transaction that runs without error. */
    method RunTrx(env: Env, h: int, tx: Tx) returns (ok: bool)
      requires Sized(View()) && tx.from in acct.accts && Supply.UpTo(supply.rewards, h)
      requires Governance.Electorate(Voters(env, validators)) && Run(env, View(), h, tx).Some?
      modifies vpow, acct, supply, gov
      ensures ok && View() == Run(env, old(View()), h, tx).value
    {
      hide Bond;
      hide Unbond;
      hide Accounts.Transfer;
      hide Accounts.Reward;
      hide Supply.WithdrawFrom;
      hide Governance.Execute;
      match tx.kind
      case Transfer =>
        var err := acct.TransferBetween(tx.from, tx.to, tx.amount);
        ok := err == None;
      case SetDoc(_, _) =>
        RunSetDoc(tx);
        ok := true;
      case Staking => ok := RunStaking(env, h, tx);
      case Unstaking(target) =>
        var err := vpow.ExeUnbonding(tx.from, tx.to, target, h + gov.govParams[LAZY_UNBONDING_BLOCKS]);
        ok := err == None;
      case Withdraw(req) =>
        var err := supply.WithdrawReward(tx.from, req, h, acct);
        ok := err == None;
      case Proposal(_) =>
        gov.Deliver(env.parse, h, Voters(env, validators), GovTx(tx));
        ok := true;
      case Voting(_, _) =>
        gov.Deliver(env.parse, h, Voters(env, validators), GovTx(tx));
        ok := true;
    }

    /** postRunTrx. */
    method PostRun(tx: Tx) returns (ok: bool)
      requires tx.from in acct.accts && tx.payer in acct.accts
      modifies this`gasLeft, acct
      ensures match Charge(old(View()), tx)
        case Some(c) => ok && View() == c
        case None => !ok && View() == old(View()).(gasLeft := old(gasLeft) - tx.gas)
    {
      hide Mul256;
      hide TakeFrom;
      gasLeft := gasLeft - tx.gas;
      var fee := Mul256(tx.gasPrice, tx.gas);
      var payer := new Account.Load(tx.payer, acct.accts[tx.payer]);
      var e := payer.Sub(fee);
      if e != None { return false; }
      acct.accts := acct.accts[tx.payer := payer.Value()];
      var sender := payer;
      if tx.from != tx.payer { sender := new Account.Load(tx.from, acct.accts[tx.from]); }
      sender.AddNonce();
      acct.accts := acct.accts[tx.from := sender.Value()];
      return true;
    }

    // ----- whole transactions and blocks

    /** asyncExecTrxContext: one prepared transaction. */
    method DeliverTx(env: Env, ghost begin: State, prepared: bool, h: int, tx: Tx)
      requires Safe(env, View(), h) && Sized(begin) && Sized(View())
      requires begin.gov.live == gov.govParams && begin.accts.Keys <= acct.accts.Keys
      requires Governance.Whole(env.parse) && tx.amount < TWO256 && prepared == Prepared(env, begin, tx)
      modifies this`gasLeft, this`feeSum, acct, vpow, limiter, supply, gov
      ensures View() == Deliver(env, begin, old(View()), h, tx)
    {
      if !prepared { return; }
      ghost var c := View();
      SafeForTheNode(env, c, h);
      hide Core;
      hide Governance.During;
      hide Counted;
      hide Run;
      hide Charge;
      hide Validated;
      var ok := ValidateTrx(env, h, tx);
      if !ok { return; }
      ValidationSuffices(env, begin, c, h, tx);
      ok := RunTrx(env, h, tx);
      ok := PostRun(tx);
      feeSum := Add256(feeSum, Mul256(tx.gasPrice, tx.gas));
    }

    /** The execution part of EndBlock. DeliverTx has counted the transactions that were prepared;
        when that is not all of them the node panics. Otherwise they run in the order in which they
        were added. */
    method ExecuteTxs(env: Env, ghost begin: State, prepared: seq<bool>, h: int, txs: seq<Tx>) returns (panics: bool)
      requires begin == View() && Safe(env, begin, h) && Sized(begin) && Governance.Whole(env.parse) && TxsFit(txs)
      requires |prepared| == |txs| && forall i :: 0 <= i < |txs| ==> prepared[i] == Prepared(env, begin, txs[i])
      modifies this`gasLeft, this`feeSum, acct, vpow, limiter, supply, gov
      ensures panics <==> exists tx <- txs :: !Prepared(env, begin, tx)
      ensures View() == if panics then begin else DeliverAll(env, begin, begin, h, txs)
    {
      hide Core;
      hide Governance.During;
      hide Deliver;
      hide Prepared;
      var txsCnt := CountPrepared(env, begin, prepared, txs);
      AllCountedIff(env, begin, txs);
      if |txs| != txsCnt { return true; }
      for i := 0 to |txs|
        invariant Safe(env, View(), h) && Sized(View()) && begin.gov.live == View().gov.live
        invariant begin.accts.Keys <= View().accts.Keys
        invariant DeliverAll(env, begin, View(), h, txs[i..]) == DeliverAll(env, begin, begin, h, txs)
      {
        assert txs[i] in txs;
        DeliverAllStep(env, begin, View(), h, txs, i);
        DeliverTx(env, begin, prepared[i], h, txs[i]);
      }
      assert txs[|txs|..] == [];
      return false;
    }

    /** Slash one misbehaving validator's stake to the dead address. */
    method SlashValidator(a: Address)
      requires |gov.govParams| == Governance.FIELDS && gov.govParams[DEAD_ADDRESS] >= 0 && SlashOne(View(), a).Success?
      requires Stake.Slash(vpow.View(), a, gov.govParams[Governance.SLASH_RATE]).Failure? ==> a !in vpow.delegatees
      modifies acct, vpow
      ensures SlashOne(old(View()), a) == Success(View())
    {
      hide Stake.Slash;
      hide AddBalance;
      hide RefundAmount;
      if a !in vpow.delegatees {
        SlashUnknown(vpow.View(), a, gov.govParams[Governance.SLASH_RATE]);
        return;
      }
      var r := vpow.DoSlash(a, gov.govParams[Governance.SLASH_RATE]);
      if r.Success? {
        var e := acct.AddToBalance(gov.govParams[DEAD_ADDRESS], RefundAmount(r.value));
      }
    }

    /** The part of BeginBlock that slashes misbehaving validators; it cannot fail. */
    method PunishByzantine(ghost env: Env, h: int, bad: seq<Address>)
      requires Core(env, View(), h)
      modifies acct, vpow
      ensures SlashEach(old(View()), bad) == Success(View())
    {
      SlashEachIsSafe(env, View(), h, bad);
      ghost var start := View();
      hide SlashOne;
      for i := 0 to |bad|
        invariant Core(env, View(), h)
        invariant SlashEach(View(), bad[i..]) == SlashEach(start, bad)
      {
        ghost var c := View();
        SlashReady(env, c, h, bad[i]);
        assert bad[i..][0] == bad[i] && bad[i..][1..] == bad[i + 1..];
        SlashValidator(bad[i]);
        hide Core;
      }
      assert bad[|bad|..] == [];
    }

    /** The account controller's EndBlock. */
    method DistributeFees(ghost env: Env, h: int, proposer: Address)
      requires Core(env, View(), h)
      modifies this`feeSum, acct
      ensures SplitFees(old(View()), proposer) == Success(View())
    {
      SplitFeesIsSafe(env, View(), h, proposer);
      FeeBound(env, View(), h);
      hide AddBalance;
      hide Negative;
      if feeSum > 0 {
        var rwd := Mul256(feeSum, gov.govParams[TX_FEE_REWARD_RATE]) / 100;
        var e := acct.AddToBalance(proposer, rwd);
        e := acct.AddToBalance(gov.govParams[DEAD_ADDRESS], Sub256(feeSum, rwd));
        feeSum := 0;
      }
    }
  }

  /** The counter of the block context after all transactions have been delivered. */
  method CountPrepared(ghost env: Env, ghost begin: State, prepared: seq<bool>, ghost txs: seq<Tx>) returns (n: nat)
    requires Sized(begin) && |prepared| == |txs|
    requires forall i :: 0 <= i < |txs| ==> prepared[i] == Prepared(env, begin, txs[i])
    ensures n == TxsCnt(env, begin, txs)
  {
    hide Prepared;
    n := 0;
    for i := 0 to |prepared|
      invariant n + TxsCnt(env, begin, txs[i..]) == TxsCnt(env, begin, txs)
    {
      assert txs[i..][0] == txs[i] && txs[i..][1..] == txs[i + 1..];
      if prepared[i] { n := n + 1; }
    }
    assert txs[|txs|..] == [];
  }

  lemma SlashUnknown(s: Stakes, a: Address, rate: int)
    requires a !in s.delegatees
    ensures Stake.Slash(s, a, rate).Failure?
  {
  }

  lemma SlashReady(env: Env, c: State, h: int, a: Address)
    requires Core(env, c, h)
    ensures SlashOne(c, a).Success? && Core(env, SlashOne(c, a).value, h)
    ensures Stake.Slash(c.stakes, a, Param(c, Governance.SLASH_RATE)).Failure? ==> a !in c.stakes.delegatees
    ensures |c.gov.live| == Governance.FIELDS && Param(c, DEAD_ADDRESS) >= 0
  {
    SlashOneIsSafe(env, c, h, a);
    SlashKeepsBooks(c.stakes, a, Param(c, Governance.SLASH_RATE));
  }

  lemma DeliverAllStep(env: Env, begin: State, c: State, h: int, txs: seq<Tx>, i: nat)
    requires i < |txs| && Safe(env, c, h) && Sized(begin) && Sized(c)
    requires begin.gov.live == c.gov.live && begin.accts.Keys <= c.accts.Keys
    requires Governance.Whole(env.parse) && TxsFit(txs)
    ensures var c' := Deliver(env, begin, c, h, txs[i]);
      && Safe(env, c', h) && Sized(c') && begin.gov.live == c'.gov.live && begin.accts.Keys <= c'.accts.Keys
      && DeliverAll(env, begin, c', h, txs[i + 1..]) == DeliverAll(env, begin, c, h, txs[i..])
  {
    assert txs[i] in txs;
    DeliverIsSafe(env, begin, c, h, txs[i]);
    assert txs[i..][0] == txs[i] && txs[i..][1..] == txs[i + 1..];
    hide Deliver;
    hide Core;
    hide Governance.During;
  }

  lemma SafeForTheNode(env: Env, c: State, h: int)
    requires Safe(env, c, h)
    ensures Limiter.Bounded(c.limiter) && VPowersOk(c.stakes.vpowers) && Supply.UpTo(c.rewards, h)
    ensures Governance.Electorate(Voters(env, c.validators)) && SumsOk(c.stakes.delegatees)
  {
    Bounds(env, c, h);
    ConsistentParts(c.stakes);
    forall a <- c.stakes.delegatees ensures 0 <= c.stakes.delegatees[a].sum < TWO63 {
      Delegations.OneWithinBonded(c.stakes, a);
    }
  }
}
