/** Whole blocks and whole runs: the chain does not halt, no token is created or lost except by
    minting, and the supply stays within its cap. */
module Conservation {
  import opened Base
  import opened Accounts
  import opened Stake
  import opened StakeInvariants
  import opened StakeOwners
  import opened Refunds
  import Delegations
  import opened Chain
  import opened ChainInvariant
  import opened Validation
  import Supply
  import Keys
  import Limiter
  import ValidatorSet
  import Ballot
  import Governance
  import Mint

  /** What one step of a block keeps besides the invariant. */
  ghost predicate Follows(env: Env, c: State, c': State, h: int) {
    && Core(env, c', h) && c.accts.Keys <= c'.accts.Keys && c'.gov == c.gov && c'.supply == c.supply
    && c'.gasLeft == c.gasLeft && c'.validators == c.validators && Persists(c.stakes.frozen, c'.stakes.frozen)
  }

  // ----- the beginning of a block

  lemma SlashWell(env: Env, c: State, h: int, a: Address)
    requires StakesOk(env, c, h) && GoodParams(c.gov.live) && a in c.stakes.delegatees
    ensures var r := Stake.Slash(c.stakes, a, Param(c, Governance.SLASH_RATE));
      && r.Success? && StakesOk(env, c.(stakes := r.value.0), h)
      && r.value.1 >= 0 && Bonded(r.value.0) == Bonded(c.stakes) - r.value.1 && Bonded(r.value.0) >= 0
      && r.value.0.frozen == c.stakes.frozen && r.value.0.missed == c.stakes.missed
  {
    hide Consistent;
    var rate := Param(c, Governance.SLASH_RATE);
    SlashKeepsBooks(c.stakes, a, rate);
    SlashAllKeepsRecords(c.stakes, a, c.stakes.delegatees[a].delegators, rate, c.accts.Keys, env.addrOf);
    PowersNonNegative(Stake.Slash(c.stakes, a, rate).value.0);
  }

  /** Slashed stake goes to the dead address. */
  lemma SlashOneIsSafe(env: Env, c: State, h: int, a: Address)
    requires Core(env, c, h)
    ensures SlashOne(c, a).Success? && Follows(env, c, SlashOne(c, a).value, h)
    ensures SlashOne(c, a).value.feeSum == c.feeSum && SlashOne(c, a).value.stakes.missed == c.stakes.missed
  {
    hide Consistent;
    SlashKeepsBooks(c.stakes, a, Param(c, Governance.SLASH_RATE));
    if a in c.stakes.delegatees {
      SlashWell(env, c, h, a);
      Bounds(env, c, h);
      hide Stake.Slash;
      var (s, cut) := Stake.Slash(c.stakes, a, Param(c, Governance.SLASH_RATE)).value;
      RefundAmountExact(cut);
      CreditAdds(c.accts, Param(c, DEAD_ADDRESS), PowerToAmount(cut));
      var c' := SlashOne(c, a).value;
      AccountsGrow(env, c.(stakes := s), c'.accts, h);
      Rebuild(env, c, c', h);
    }
  }

  lemma {:induction false} SlashEachIsSafe(env: Env, c: State, h: int, bad: seq<Address>)
    requires Core(env, c, h)
    ensures SlashEach(c, bad).Success? && Follows(env, c, SlashEach(c, bad).value, h)
    ensures SlashEach(c, bad).value.feeSum == c.feeSum && SlashEach(c, bad).value.stakes.missed == c.stakes.missed
    decreases |bad|
  {
    hide Consistent;
    hide SlashOne;
    if bad != [] {
      SlashOneIsSafe(env, c, h, bad[0]);
      var c1 := SlashOne(c, bad[0]).value;
      SlashEachIsSafe(env, c1, h, bad[1..]);
      PersistsTransitive(c.stakes.frozen, c1.stakes.frozen, SlashEach(c, bad).value.stakes.frozen);
    }
  }

  lemma {:induction false} ValidatorsAreVoters(env: Env, vs: seq<Delegatee>)
    ensures PowerOfValidators(vs) == Ballot.PowerSum(Voters(env, vs))
  {
    if vs != [] {
      ValidatorsAreVoters(env, vs[1..]);
      assert Voters(env, vs)[1..] == Voters(env, vs[1..]);
    }
  }

  lemma ResetIsBounded(env: Env, c: State)
    requires Governance.Electorate(Voters(env, c.validators))
    requires |c.gov.live| == Governance.FIELDS
    ensures Limiter.Bounded(Limiter.ResetTo(PowerOfValidators(c.validators), Param(c, MAX_UPDATABLE_POWER_RATE)))
  {
    ValidatorsAreVoters(env, c.validators);
    Ballot.TalliesWithinPower(Voters(env, c.validators), 0, 1);
  }

  lemma VotesWell(env: Env, c: State, h: int, votes: seq<Vote>, allowedDown: int, refundHeight: int)
    requires StakesOk(env, c, h) && refundHeight >= h
    ensures var r := CountVotes(c.stakes, votes, allowedDown, refundHeight);
      && r.Success? && StakesOk(env, c.(stakes := r.value), h)
      && StakesOk(env, c.(stakes := r.value.(missed := map[])), h)
      && Bonded(r.value) + FrozenPower(r.value) == Bonded(c.stakes) + FrozenPower(c.stakes)
      && Persists(c.stakes.frozen, r.value.frozen)
  {
    CountVotesKeepsBooks(c.stakes, votes, allowedDown, refundHeight);
    CountVotesKeepsRecords(c.stakes, votes, allowedDown, refundHeight, c.accts.Keys, env.addrOf);
    hide CountVotes;
    hide Linked; hide VPowersOk; hide DelegateesOk; hide FrozensOk;
  }

  /** Jailing moves stake to the frozen books and cannot fail. */
  lemma CountBlockVotesIsSafe(env: Env, c: State, h: int, votes: seq<Vote>)
    requires Core(env, c, h)
    ensures CountBlockVotes(c, h, votes).Success? && Follows(env, c, CountBlockVotes(c, h, votes).value, h)
    ensures CountBlockVotes(c, h, votes).value.feeSum == c.feeSum
  {
    hide Consistent;
    hide CountVotes;
    if votes != [] {
      VotesWell(env, c, h, votes, Param(c, INFLATION_CYCLE_BLOCKS) - Param(c, MIN_SIGNED_BLOCKS), h + Param(c,
          LAZY_UNBONDING_BLOCKS));
      ResetIsBounded(env, c);
      Rebuild(env, c, CountBlockVotes(c, h, votes).value, h);
    }
  }

  /** The state at the start of a block: open ballots punished and a fresh gas pool. */
  ghost function FreshBlock(env: Env, c: State, h: int, b: Block): (r: State)
    requires Safe(env, c, h)
    ensures Safe(env, r, h) && r.stakes == c.stakes && r.accts == c.accts
    ensures r.feeSum == c.feeSum && r.supply == c.supply
    ensures r.gov.live == c.gov.live && r.validators == c.validators
  {
    Governance.PunishAllKeepsLive(env.parse, c.gov, h, b.byzantine);
    var r := c.(gov := Governance.PunishAll(env.parse, c.gov, h, b.byzantine), gasLeft := Param(c, BLOCK_GAS_LIMIT));
    assert Wealth(r) == Wealth(c);
    r
  }

  /** BeginBlock of all controllers: a fresh fee sum and gas pool, then punishments. */
  ghost function BeginBlock(env: Env, c: State, h: int, b: Block): (r: Result<State, Halt>)
    requires Safe(env, c, h) && c.feeSum == 0
    ensures r.Success? && Safe(env, r.value, h) && r.value.supply == c.supply
    ensures r.value.gov.live == c.gov.live && Sized(r.value)
    ensures r.value.feeSum == 0 && c.accts.Keys <= r.value.accts.Keys
    ensures r.value.validators == c.validators && Persists(c.stakes.frozen, r.value.stakes.frozen)
  {
    var c0 := FreshBlock(env, c, h, b);
    SlashEachIsSafe(env, c0, h, b.byzantine);
    var c1 := SlashEach(c0, b.byzantine).value;
    CountBlockVotesIsSafe(env, c1, h, b.votes);
    SafeIsSized(env, CountBlockVotes(c1, h, b.votes).value, h);
    PersistsTransitive(c.stakes.frozen, c1.stakes.frozen, CountBlockVotes(c1, h, b.votes).value.stakes.frozen);
    CountBlockVotes(c1, h, b.votes)
  }

  // ----- transactions

  lemma DeliverIsSafe(env: Env, begin: State, c: State, h: int, tx: Tx)
    requires Safe(env, c, h) && Sized(begin) && Sized(c)
    requires begin.gov.live == c.gov.live && begin.accts.Keys <= c.accts.Keys
    requires Governance.Whole(env.parse) && tx.amount < TWO256
    ensures var c' := Deliver(env, begin, c, h, tx);
      && Safe(env, c', h) && c.accts.Keys <= c'.accts.Keys
      && c'.gov.live == c.gov.live && c'.supply == c.supply && Sized(c')
      && c'.validators == c.validators && Persists(c.stakes.frozen, c'.stakes.frozen)
      && c'.stakes.missed == c.stakes.missed
  {
    assert Supply.UpTo(c.rewards, h);
    hide Consistent;
    hide Core;
    hide Governance.During;
    if Prepared(env, begin, tx) && Validated(env, c, h, tx) { ValidationSuffices(env, begin, c, h, tx); }
    SafeIsSized(env, Deliver(env, begin, c, h, tx), h);
  }

  predicate TxsFit(txs: seq<Tx>) { forall tx <- txs :: tx.amount < TWO256 }

  /** The transactions of a block, one after another, each prepared against the state `begin`. */
  ghost function DeliverAll(env: Env, begin: State, c: State, h: int, txs: seq<Tx>): (r: State)
    requires Safe(env, c, h) && Sized(begin) && Sized(c)
    requires begin.gov.live == c.gov.live && begin.accts.Keys <= c.accts.Keys
    requires Governance.Whole(env.parse) && TxsFit(txs)
    ensures Safe(env, r, h) && Sized(r) && r.gov.live == c.gov.live
    ensures r.supply == c.supply && c.accts.Keys <= r.accts.Keys && r.stakes.missed == c.stakes.missed
    ensures r.validators == c.validators && Persists(c.stakes.frozen, r.stakes.frozen)
    decreases |txs|
  {
    if txs == [] then c
    else
      assert txs[0] in txs;
      DeliverIsSafe(env, begin, c, h, txs[0]);
      var c1 := Deliver(env, begin, c, h, txs[0]);
      var r := DeliverAll(env, begin, c1, h, txs[1..]);
      PersistsTransitive(c.stakes.frozen, c1.stakes.frozen, r.stakes.frozen);
      r
  }

  // ----- the end of a block

  lemma FeeParts(fee: nat, rate: nat)
    requires 0 < fee < TWO255 / 100 && rate <= 100
    ensures var rwd := ProposerPart(fee, rate); rwd <= fee && rwd < TWO255 && Sub256(fee, rwd) == fee - rwd < TWO255
  {
    assert fee * rate <= fee * 100 by { Monotone(fee, rate, 100); }
  }

  lemma FeesCredited(m: Accts, proposer: Address, dead: Address, fee: nat, rate: nat)
    requires 0 < fee < TWO255 / 100 && rate <= 100 && Money(m) + fee < TWO255
    ensures var rwd := ProposerPart(fee, rate); var r := AddBalance(m, proposer, rwd);
      && r.Success? && AddBalance(r.value, dead, Sub256(fee, rwd)).Success?
      && var m' := AddBalance(r.value, dead, Sub256(fee, rwd)).value;
        Money(m') == Money(m) + fee && m.Keys <= m'.Keys
  {
    FeeParts(fee, rate);
    var rwd := ProposerPart(fee, rate);
    CreditAdds(m, proposer, rwd);
    CreditAdds(AddBalance(m, proposer, rwd).value, dead, fee - rwd);
  }

  /** The fees of the block go to the proposer and the dead address, and are no longer owed. */
  lemma SplitFeesIsSafe(env: Env, c: State, h: int, proposer: Address)
    requires Core(env, c, h)
    ensures SplitFees(c, proposer).Success? && Follows(env, c, SplitFees(c, proposer).value, h)
    ensures SplitFees(c, proposer).value.feeSum == 0
  {
    hide StakesOk;
    hide Limiter.Bounded;
    hide Governance.Electorate;
    hide Wealth;
    hide PowerToAmount;
    hide ProposerPart;
    hide Sub256;
    hide AddBalance;
    FeeBound(env, c, h);
    if c.feeSum > 0 {
      FeesCredited(c.accts, proposer, Param(c, DEAD_ADDRESS), c.feeSum, Param(c, TX_FEE_REWARD_RATE));
      var c' := SplitFees(c, proposer).value;
      FeesMoved(c, c'.accts);
      AccountsGrow(env, c, c'.accts, h);
      SameStakes(env, c.(accts := c'.accts), c', h);
      Rebuild(env, c, c', h);
    }
  }

  lemma FeeBound(env: Env, c: State, h: int)
    requires Core(env, c, h)
    ensures c.feeSum < TWO255 / 100 && Money(c.accts) + c.feeSum < TWO255 && !Negative(c.feeSum)
  {
    Bounds(env, c, h);
  }

  lemma FeesMoved(c: State, m: Accts)
    requires Money(m) == Money(c.accts) + c.feeSum
    ensures Wealth(c.(accts := m, feeSum := 0)) == Wealth(c)
  {
  }

  lemma {:induction false} PaySumIsCount(bs: seq<Mint.Beneficiary>, amts: seq<nat>)
    requires |amts| == |bs|
    ensures Supply.PaySum(Pays(bs, amts)) == Mint.Count(amts)
    decreases |bs|
  {
    if bs != [] { PaySumIsCount(bs[1..], amts[1..]); }
  }

  /** The routine answers, and shares out at most what the cap leaves among beneficiaries whose weights
      and rates are in order. */
  ghost predicate MintReady(c: State, w: Mint.Weighing, issue: real)
    requires |c.gov.live| == Governance.FIELDS
  {
    && Mint.Weighed(w.bs, w.allWeight, w.valWeight) && issue <= (Param(c, MAX_TOTAL_SUPPLY) - c.supply) as real
    && !Mint.RewardsFail(false, w.bs, issue, w.allWeight, w.valWeight)
  }

  /** The payments are not negative and stay below the cap. */
  lemma MintWithinCap(env: Env, c: State, h: int, w: Mint.Weighing, issue: real)
    requires Core(env, c, h) && MintReady(c, w, issue)
    ensures Supply.PaySum(Pays(w.bs, MintAmounts(c, w, issue))) <= Param(c, MAX_TOTAL_SUPPLY) - c.supply
    ensures
      var pot := Mint.Split(issue, Param(c, VALIDATOR_REWARD_RATE), w.allWeight, w.valWeight);
      MintAmounts(c, w, issue) == Mint.Payout(Mint.Shares(pot, w.bs), 0.0)
  {
    Mint.RewardsWithinIssue(w.bs, issue, Param(c, VALIDATOR_REWARD_RATE), w.allWeight, w.valWeight);
    PaySumIsCount(w.bs, MintAmounts(c, w, issue));
  }

  ghost predicate MintFollows(env: Env, c: State, c': State, h: int) {
    && Core(env, c', h) && c'.accts == c.accts && c'.gov == c.gov && c'.feeSum == c.feeSum && c'.stakes == c.stakes
    && c.supply <= c'.supply && c'.validators == c.validators
  }

  /** Minting adds the same amount to the rewards and to the recorded supply. */
  lemma MintAddsBoth(env: Env, c: State, h: int, pays: seq<(Address, nat)>)
    requires Core(env, c, h) && Supply.PaySum(pays) <= Param(c, MAX_TOTAL_SUPPLY) - c.supply
    ensures MintFollows(env, c, c.(rewards := Supply.Distribute(c.rewards, pays, h), supply := Add256(c.supply,
        Supply.PaySum(pays))), h)
  {
    Bounds(env, c, h);
    Supply.DistributionAdds(c.rewards, pays, h);
    Supply.NoWrap(c.supply, Supply.PaySum(pays));
    hide Add256;
    hide Supply.Distribute;
    hide StakesOk;
    hide Limiter.Bounded;
    hide Governance.Electorate;
    var c' := c.(rewards := Supply.Distribute(c.rewards, pays, h), supply := Add256(c.supply, Supply.PaySum(pays)));
    SameStakes(env, c, c', h);
  }

  lemma SameStakes(env: Env, c: State, c': State, h: int)
    requires StakesOk(env, c, h) && c'.stakes == c.stakes && c'.accts == c.accts
    ensures StakesOk(env, c', h)
  {
    hide Consistent;
  }

  lemma MintIsSafe(env: Env, c: State, h: int, w: Mint.Weighing, issue: real)
    requires Core(env, c, h) && (MintDue(c, h) ==> MintReady(c, w, issue))
    ensures MintFollows(env, c, MintRewards(c, h, w, issue), h)
  {
    if MintDue(c, h) {
      MintWithinCap(env, c, h, w, issue);
      hide Core;
      hide MintAmounts;
      hide Mint.Weighed;
      MintAddsBoth(env, c, h, Pays(w.bs, MintAmounts(c, w, issue)));
    }
  }

  /** Otherwise they may: a payment that is due as minus one unit or less goes beyond every cap. */
  lemma NegativeDueBreaksCap(env: Env, c: State, h: int, w: Mint.Weighing, issue: real, i: nat)
    requires Core(env, c, h) && Mint.Divides(w.bs, w.allWeight, w.valWeight) && i < |w.bs|
    requires
      var pot := Mint.Split(issue, Param(c, VALIDATOR_REWARD_RATE), w.allWeight, w.valWeight);
      -(TWO255 as real) < Mint.DueAt(Mint.Shares(pot, w.bs), 0.0, i) <= -1.0
    ensures Supply.PaySum(Pays(w.bs, MintAmounts(c, w, issue))) > Param(c, MAX_TOTAL_SUPPLY) - c.supply
  {
    Bounds(env, c, h);
    hide Core;
    var sh := Mint.Shares(Mint.Split(issue, Param(c, VALIDATOR_REWARD_RATE), w.allWeight, w.valWeight), w.bs);
    Mint.AmountAt(sh, 0.0, i);
    Mint.NegativeDueWraps(Mint.DueAt(sh, 0.0, i));
    PaySumIsCount(w.bs, MintAmounts(c, w, issue));
    Mint.AmountWithinCount(MintAmounts(c, w, issue), i);
  }

  // ----- the validators of the next block

  lemma ListingMember(s: Stakes, d: Delegatee)
    requires d in Listing(s)
    ensures exists a :: a in s.delegatees && s.delegatees[a] == d
  {
    Keys.OrderedIsAscending(s.delegatees.Keys);
    var ks := Keys.Ordered(s.delegatees.Keys);
    var i :| 0 <= i < |Listing(s)| && Listing(s)[i] == d;
    assert ks[i] in ks;
  }

  lemma ListingIsDistinct(s: Stakes, addrOf: PubKey -> Address)
    requires KeyedBy(s, addrOf)
    ensures ValidatorSet.DistinctKeys(Listing(s))
  {
    Keys.OrderedIsAscending(s.delegatees.Keys);
    var ks := Keys.Ordered(s.delegatees.Keys);
    forall i, j | 0 <= i < j < |ks| ensures Listing(s)[i].pubKey != Listing(s)[j].pubKey {
      assert ks[i] in ks && ks[j] in ks && ks[i] < ks[j];
      assert addrOf(s.delegatees[ks[i]].pubKey) == ks[i] && addrOf(s.delegatees[ks[j]].pubKey) == ks[j];
    }
  }

  lemma SelectedAreListed(ds: seq<Delegatee>, maxVals: nat, d: Delegatee)
    requires d in ValidatorSet.RunningValidators(ds, maxVals)
    ensures d in ds
  {
    var sel := ValidatorSet.Select(ds, maxVals);
    ValidatorSet.SortPermutes(ValidatorSet.PubLess, sel);
    ValidatorSet.MembersAgree(sel, ValidatorSet.Sort(ValidatorSet.PubLess, sel), d);
    ValidatorSet.SortPermutes(ValidatorSet.PowerLess, ds);
    ValidatorSet.MembersAgree(ds, ValidatorSet.Sort(ValidatorSet.PowerLess, ds), d);
  }

  ghost function AddressesOf(env: Env, vs: seq<Delegatee>): (r: seq<Address>)
    ensures |r| == |vs| && forall i :: 0 <= i < |vs| ==> r[i] == env.addrOf(vs[i].pubKey)
  {
    if vs == [] then [] else [env.addrOf(vs[0].pubKey)] + AddressesOf(env, vs[1..])
  }

  lemma {:induction false} VotersCarryPower(env: Env, s: Stakes, vs: seq<Delegatee>)
    requires forall v <- vs :: env.addrOf(v.pubKey) in s.delegatees && s.delegatees[env.addrOf(v.pubKey)] == v
    ensures forall a <- AddressesOf(env, vs) :: a in s.delegatees
    ensures Ballot.PowerSum(Voters(env, vs)) == Delegations.PowerOfAll(s.delegatees, AddressesOf(env, vs))
  {
    if vs != [] {
      VotersCarryPower(env, s, vs[1..]);
      assert vs[0] in vs;
      assert Voters(env, vs)[1..] == Voters(env, vs[1..]);
    }
  }

  /** Delegatees of the ledger, each at most once, are an electorate: their addresses are distinct,
      no power is negative, and together they have no more than all the bonded power. */
  lemma ListedAreElectorate(env: Env, s: Stakes, vs: seq<Delegatee>)
    requires Consistent(s) && KeyedBy(s, env.addrOf) && 100 * Bonded(s) < TWO63
    requires ValidatorSet.DistinctKeys(vs) && forall d <- vs :: d in Listing(s)
    ensures Governance.Electorate(Voters(env, vs))
  {
    hide Consistent;
    hide Listing;
    forall v <- vs
      ensures v.sum >= 0 && env.addrOf(v.pubKey) in s.delegatees && s.delegatees[env.addrOf(v.pubKey)] == v
    {
      ListingMember(s, v);
      var a :| a in s.delegatees && s.delegatees[a] == v;
      Delegations.OneWithinBonded(s, a);
    }
    var ts := AddressesOf(env, vs);
    forall i, j | 0 <= i < j < |vs| ensures ts[i] != ts[j] && Voters(env, vs)[i].addr != Voters(env, vs)[j].addr {
      assert vs[i].pubKey != vs[j].pubKey && vs[i] in vs && vs[j] in vs;
    }
    NoDuplicatesPairwise(ts);
    VotersCarryPower(env, s, vs);
    Delegations.DelegateesWithinBonded(s, ts);
  }

  lemma ChosenAreElectorate(env: Env, s: Stakes, maxVals: nat)
    requires Consistent(s) && KeyedBy(s, env.addrOf) && 100 * Bonded(s) < TWO63
    ensures Governance.Electorate(Voters(env, ValidatorSet.Select(Listing(s), maxVals)))
    ensures Governance.Electorate(Voters(env, ValidatorSet.RunningValidators(Listing(s), maxVals)))
  {
    var ds := Listing(s);
    var sel := ValidatorSet.Select(ds, maxVals);
    var vs := ValidatorSet.RunningValidators(ds, maxVals);
    ListingIsDistinct(s, env.addrOf);
    ValidatorSet.SelectedKeysAreDistinct(ds, maxVals);
    ValidatorSet.SortPermutes(ValidatorSet.PubLess, sel);
    ValidatorSet.PermutedKeysAreDistinct(sel, vs);
    forall d <- vs ensures d in ds { SelectedAreListed(ds, maxVals, d); }
    forall d <- sel ensures d in ds {
      ValidatorSet.MembersAgree(sel, vs, d);
      SelectedAreListed(ds, maxVals, d);
    }
    ListedAreElectorate(env, s, vs);
    ListedAreElectorate(env, s, sel);
  }

  /** The validators are those of the ledger. */
  ghost predicate ValidatorsListed(env: Env, c: State) {
    forall v <- c.validators ::
      env.addrOf(v.pubKey) in c.stakes.delegatees && c.stakes.delegatees[env.addrOf(v.pubKey)] == v
  }

  lemma ChosenAreListed(env: Env, s: Stakes, maxVals: nat, v: Delegatee)
    requires KeyedBy(s, env.addrOf)
    requires v in ValidatorSet.RunningValidators(Listing(s), maxVals) || v in ValidatorSet.Select(Listing(s), maxVals)
    ensures env.addrOf(v.pubKey) in s.delegatees && s.delegatees[env.addrOf(v.pubKey)] == v
  {
    var ds := Listing(s);
    var sel := ValidatorSet.Select(ds, maxVals);
    ValidatorSet.SortPermutes(ValidatorSet.PubLess, sel);
    ValidatorSet.MembersAgree(sel, ValidatorSet.RunningValidators(ds, maxVals), v);
    SelectedAreListed(ds, maxVals, v);
    hide Listing;
    ListingMember(s, v);
  }

  // ----- refunds and the new validators

  /** The state with the refunds of height `h` made is safe for height `h + 1`. */
  lemma SettleStakesIsSafe(env: Env, c: State, h: int)
    requires Core(env, c, h)
    ensures SettleStakes(c, h).Success?
    ensures var c' := SettleStakes(c, h).value;
      && Core(env, c', h + 1) && DueAfter(c'.stakes, h) && c'.gov == c.gov && ValidatorsListed(env, c')
      && c'.feeSum == c.feeSum && c'.supply == c.supply
      && c'.accts.Keys == c.accts.Keys && c'.stakes == AfterRefund(c.stakes, h)
      && (forall a :: a in c.accts ==> c'.accts[a].balance == c.accts[a].balance + PowerToAmount(DueTo(c.stakes, h, a)))
  {
    Bounds(env, c, h);
    ConsistentParts(c.stakes);
    UnfreezePaysOwners(c.accts, c.stakes, h);
    RefundLeavesLater(c.stakes, h);
    RefundKeepsBooks(c.stakes, h, c.accts.Keys);
    ResetIsBounded(env, c);
    ChosenAreElectorate(env, AfterRefund(c.stakes, h), Param(c, MAX_VALIDATOR_CNT));
    forall v | v in ValidatorSet.RunningValidators(Listing(AfterRefund(c.stakes, h)), Param(c, MAX_VALIDATOR_CNT))
      ensures env.addrOf(v.pubKey) in c.stakes.delegatees && c.stakes.delegatees[env.addrOf(v.pubKey)] == v
    {
      ChosenAreListed(env, AfterRefund(c.stakes, h), Param(c, MAX_VALIDATOR_CNT), v);
    }
    hide Consistent;
    hide Unfreeze;
    hide Listing;
    hide Limiter.Bounded;
    var c' := SettleStakes(c, h).value;
    assert Wealth(c') == Wealth(c);
  }
}
