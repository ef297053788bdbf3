/** ctrlers/supply: the total supply and the rewards that validators and delegators accumulate
    until they withdraw them. */
module Supply {
  import opened Base
  import opened Sums
  import opened Accounts

  /** The flows of the last block that touched a reward, and its cumulated amount. */
  datatype Rwd = Rwd(issued: nat, withdrawn: nat, slashed: nat, cumulated: nat, height: int)

  type Rewards = map<Address, Rwd>

  datatype Flow = Issue | Withdraw | Slash

  const NEW_REWARD := Rwd(0, 0, 0, 0, 0)

  /** One change at block `h`; the flows of an older block are forgotten. A change at an older block
      than the last one panics in the source. */
  function Change(r: Rwd, f: Flow, amt: nat, h: int): Rwd
    requires r.height <= h
  {
    var r0 := if r.height < h then r.(issued := 0, withdrawn := 0, slashed := 0, height := h) else r;
    match f
    case Issue => r0.(issued := Add256(r0.issued, amt), cumulated := Add256(r0.cumulated, amt))
    case Withdraw => r0.(withdrawn := Add256(r0.withdrawn, amt), cumulated := Sub256(r0.cumulated, amt))
    case Slash => r0.(slashed := Add256(r0.slashed, amt), cumulated := Sub256(r0.cumulated, amt))
  }

  // ----- one reward over a block

  predicate Fits(r: Rwd) { r.issued < TWO256 && r.withdrawn < TWO256 && r.slashed < TWO256 && r.cumulated < TWO256 }

  /** Every change of one block in turn. */
  function Changes(r: Rwd, fs: seq<(Flow, nat)>, h: int): Rwd
    requires r.height <= h
    decreases |fs|
  {
    if fs == [] then r else Changes(Change(r, fs[0].0, fs[0].1, h), fs[1..], h)
  }

  function Opened(r: Rwd, h: int): Rwd { if r.height < h then Rwd(0, 0, 0, r.cumulated, h) else r }

  /** The step does not wrap: a withdrawal or slash is covered, and sums stay below 2^256. */
  predicate StepFits(r: Rwd, f: Flow, amt: nat) {
    match f
    case Issue => r.issued + amt < TWO256 && r.cumulated + amt < TWO256
    case Withdraw => r.withdrawn + amt < TWO256 && amt <= r.cumulated
    case Slash => r.slashed + amt < TWO256 && amt <= r.cumulated
  }

  predicate Covered(r: Rwd, fs: seq<(Flow, nat)>, h: int)
    requires r.height <= h
    decreases |fs|
  {
    fs != [] ==> StepFits(Opened(r, h), fs[0].0, fs[0].1) && Covered(Change(r, fs[0].0, fs[0].1, h), fs[1..], h)
  }

  /** The part of the cumulated amount that earlier blocks brought. */
  function Carried(r: Rwd): int { r.cumulated - r.issued + r.withdrawn + r.slashed }

  lemma ChangeKeepsCarried(r: Rwd, f: Flow, amt: nat, h: int)
    requires r.height <= h && Fits(r) && StepFits(Opened(r, h), f, amt)
    ensures var r' := Change(r, f, amt, h); r'.height == h && Fits(r') && Carried(r') == Carried(Opened(r, h))
  {
    NoWrap(Opened(r, h).issued, amt);
    NoWrap(Opened(r, h).withdrawn, amt);
    NoWrap(Opened(r, h).slashed, amt);
    NoWrap(Opened(r, h).cumulated, amt);
    hide Add256;
    hide Sub256;
  }

  lemma NoWrap(a: nat, b: nat)
    ensures a + b < TWO256 ==> Add256(a, b) == a + b
    ensures b <= a < TWO256 ==> Sub256(a, b) == a - b
  {
  }

  /** The cumulated amount moves by exactly the flows that the reward reports for the block. */
  lemma FlowsExplainCumulated(r: Rwd, fs: seq<(Flow, nat)>, h: int)
    requires r.height < h && Fits(r) && fs != [] && Covered(r, fs, h)
    ensures var r' := Changes(r, fs, h);
      r'.height == h && r'.cumulated == r.cumulated + r'.issued - r'.withdrawn - r'.slashed
  {
    hide Change;
    ChangeKeepsCarried(r, fs[0].0, fs[0].1, h);
    SameBlockFlows(Change(r, fs[0].0, fs[0].1, h), fs[1..], h);
  }

  lemma {:induction false} SameBlockFlows(r: Rwd, fs: seq<(Flow, nat)>, h: int)
    requires r.height == h && Fits(r) && Covered(r, fs, h)
    ensures Changes(r, fs, h).height == h && Carried(Changes(r, fs, h)) == Carried(r)
    decreases |fs|
  {
    hide Change;
    if fs != [] {
      ChangeKeepsCarried(r, fs[0].0, fs[0].1, h);
      SameBlockFlows(Change(r, fs[0].0, fs[0].1, h), fs[1..], h);
    }
  }

  // ----- the reward ledger

  function RewardOf(rs: Rewards, a: Address): Rwd { if a in rs then rs[a] else NEW_REWARD }

  predicate UpTo(rs: Rewards, h: int) { forall a <- rs :: rs[a].height <= h }

  /** distRewardToState: a beneficiary of several validators is paid several times. */
  function Distribute(rs: Rewards, pays: seq<(Address, nat)>, h: int): (r: Rewards)
    requires UpTo(rs, h) && h >= 0
    ensures UpTo(r, h)
    decreases |pays|
  {
    if pays == [] then rs
    else Distribute(rs[pays[0].0 := Change(RewardOf(rs, pays[0].0), Issue, pays[0].1, h)], pays[1..], h)
  }

  /** withdrawReward: a reward that is used up is deleted. */
  function WithdrawFrom(rs: Rewards, a: Address, amt: nat, h: int): Rewards
    requires a in rs && rs[a].height <= h
  {
    var r := Change(rs[a], Withdraw, amt, h);
    if r.cumulated == 0 then rs - {a} else rs[a := r]
  }

  function CumulatedOf(r: Rwd): int { r.cumulated }

  ghost function Cumulated(rs: Rewards): int { Total(rs, CumulatedOf) }

  function PaySum(pays: seq<(Address, nat)>): nat { if pays == [] then 0 else pays[0].1 + PaySum(pays[1..]) }

  lemma CumulatedWithin(rs: Rewards, a: Address)
    ensures 0 <= RewardOf(rs, a).cumulated <= Cumulated(rs)
  {
    TotalAtLeastPart(rs, CumulatedOf, a);
  }

  /** Distribution adds exactly what is paid to the sum of the cumulated rewards. */
  lemma {:induction false} DistributionAdds(rs: Rewards, pays: seq<(Address, nat)>, h: int)
    requires UpTo(rs, h) && h >= 0 && Cumulated(rs) + PaySum(pays) < TWO256
    ensures Cumulated(Distribute(rs, pays, h)) == Cumulated(rs) + PaySum(pays)
    decreases |pays|
  {
    if pays != [] {
      var a, amt := pays[0].0, pays[0].1;
      var r := Change(RewardOf(rs, a), Issue, amt, h);
      CumulatedWithin(rs, a);
      TotalUpdate(rs, CumulatedOf, a, r);
      DistributionAdds(rs[a := r], pays[1..], h);
    }
  }

  /** A covered withdrawal takes exactly its amount out of the sum. */
  lemma WithdrawalTakes(rs: Rewards, a: Address, amt: nat, h: int)
    requires a in rs && rs[a].height <= h && amt <= rs[a].cumulated && Cumulated(rs) < TWO256
    ensures Cumulated(WithdrawFrom(rs, a, amt, h)) == Cumulated(rs) - amt
    ensures UpTo(rs, h) ==> UpTo(WithdrawFrom(rs, a, amt, h), h)
  {
    CumulatedWithin(rs, a);
    TotalUpdate(rs, CumulatedOf, a, Change(rs[a], Withdraw, amt, h));
    TotalRemove(rs, CumulatedOf, a);
  }

  // ----- the objects

  class Reward {
    const addr: Address
    var issued: nat
    var withdrawn: nat
    var slashed: nat
    var cumulated: nat
    var height: int

    constructor (a: Address, r: Rwd)
      ensures addr == a && Value() == r
    {
      addr, issued, withdrawn, slashed, cumulated, height := a, r.issued, r.withdrawn, r.slashed, r.cumulated, r.height;
    }

    function Value(): Rwd
      reads this
    {
      Rwd(issued, withdrawn, slashed, cumulated, height)
    }

    method Turn(h: int)
      requires height <= h
      modifies this
      ensures Value() == if old(height) < h then Rwd(0, 0, 0, old(cumulated), h) else old(Value())
    {
      if height < h { issued, withdrawn, slashed, height := 0, 0, 0, h; }
    }

    method IssueAmount(amt: nat, h: int)
      requires height <= h
      modifies this
      ensures Value() == Change(old(Value()), Issue, amt, h)
    {
      Turn(h);
      issued := Add256(issued, amt);
      cumulated := Add256(cumulated, amt);
    }

    method WithdrawAmount(amt: nat, h: int)
      requires height <= h
      modifies this
      ensures Value() == Change(old(Value()), Withdraw, amt, h)
    {
      Turn(h);
      withdrawn := Add256(withdrawn, amt);
      cumulated := Sub256(cumulated, amt);
    }

    method SlashAmount(amt: nat, h: int)
      requires height <= h
      modifies this
      ensures Value() == Change(old(Value()), Slash, amt, h)
    {
      Turn(h);
      slashed := Add256(slashed, amt);
      cumulated := Sub256(cumulated, amt);
    }
  }

  class SupplyCtrler {
    var rewards: Rewards
    var totalSupply: nat
    var adjustSupply: nat
    var height: int
    var adjustHeight: int
    var changed: bool

    /** InitLedger: the genesis supply, recorded as an adjustment at height 1. */
    constructor (genesisSupply: nat)
      requires genesisSupply < TWO256
      ensures rewards == map[] && totalSupply == adjustSupply == genesisSupply && height == adjustHeight == 1 && changed
    {
      rewards, totalSupply, adjustSupply, height, adjustHeight, changed := map[], genesisSupply, genesisSupply, 1,
          1, true;
    }

    method DistRewardToState(pays: seq<(Address, nat)>, h: int)
      requires UpTo(rewards, h) && h >= 0
      modifies this`rewards
      ensures rewards == Distribute(old(rewards), pays, h)
    {
      var rs: Rewards := rewards;
      for i := 0 to |pays|
        invariant UpTo(rs, h)
        invariant rewards == old(rewards) && UpTo(rewards, h)
        invariant Distribute(rs, pays[i..], h) == Distribute(rewards, pays, h)
      {
        var rwd := new Reward(pays[i].0, RewardOf(rs, pays[i].0));
        rwd.IssueAmount(pays[i].1, h);
        assert pays[i..][0] == pays[i] && pays[i..][1..] == pays[i + 1..];
        rs := rs[pays[i].0 := rwd.Value()];
      }
      assert pays[|pays|..] == [];
      rewards := rs;
    }

    /** waitMint: hand out the rewards of the cycle and record what was minted, unless the response is
        an error. */
    method WaitMint(resp: Option<(seq<(Address, nat)>, nat)>, h: int) returns (ok: bool)
      requires UpTo(rewards, h) && h >= 0
      modifies this`rewards, this`totalSupply, this`height, this`changed
      ensures ok == resp.Some?
      ensures !ok ==> unchanged(this)
      ensures ok ==> rewards == Distribute(old(rewards), resp.value.0, h)
      ensures ok ==> totalSupply == Add256(old(totalSupply), resp.value.1) && height == h && changed
    {
      if resp.None? { return false; }
      DistRewardToState(resp.value.0, h);
      totalSupply := Add256(totalSupply, resp.value.1);
      height, changed := h, true;
      ok := true;
    }

    method WithdrawReward(a: Address, amt: nat, h: int, acct: AcctCtrler) returns (err: Option<AcctError>)
      requires a in rewards && rewards[a].height <= h
      modifies this`rewards, acct`accts
      ensures rewards == WithdrawFrom(old(rewards), a, amt, h)
      ensures match Accounts.Reward(old(acct.accts), a, amt)
        case Success(m) => err == None && acct.accts == m
        case Failure(e) => err == Some(e) && acct.accts == old(acct.accts)
    {
      var rwd := new Reward(a, rewards[a]);
      rwd.WithdrawAmount(amt, h);
      if rwd.cumulated == 0 { rewards := rewards - {a}; } else { rewards := rewards[a := rwd.Value()]; }
      err := acct.RewardAccount(a, amt);
    }
  }
}
