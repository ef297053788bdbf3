/** ctrlers/gov/proposal: the ballot of a governance proposal. Votes may be changed, a misbehaving
    voter's power is slashed mid-vote, and an option wins with two thirds of the remaining power. */
module Ballot {
  import opened Base

  datatype Voter = Voter(addr: Address, power: int, choice: int)

  datatype Opt = Opt(body: Bytes, votes: int)

  datatype Ballot = Ballot(voters: seq<Voter>, options: seq<Opt>, total: int, majority: int)

  datatype BallotError = NotFoundVoter

  const NOT_CHOICE := -1

  // ----- the reference tally

  function Tally(voters: seq<Voter>, c: int): int {
    if voters == [] then 0 else (if voters[0].choice == c then voters[0].power else 0) + Tally(voters[1..], c)
  }

  function PowerSum(voters: seq<Voter>): int { if voters == [] then 0 else voters[0].power + PowerSum(voters[1..]) }

  /** The first voter with this address, or the number of voters. */
  function IndexOf(voters: seq<Voter>, a: Address): (k: nat)
    ensures k <= |voters|
    ensures k < |voters| ==> voters[k].addr == a
    ensures forall i :: 0 <= i < k ==> voters[i].addr != a
  {
    if voters == [] || voters[0].addr == a then 0 else 1 + IndexOf(voters[1..], a)
  }

  /** Computed in int64. */
  function TwoThirds(total: int): int { GoDiv(Wrap64(total * 2), 3) }

  predicate VoterOk(v: Voter, options: nat) { v.power >= 0 && NOT_CHOICE <= v.choice < options }

  predicate Distinct(voters: seq<Voter>) { forall i, j :: 0 <= i < j < |voters| ==> voters[i].addr != voters[j].addr }

  /** The tally invariant. */
  ghost predicate Ok(b: Ballot) {
    && Distinct(b.voters)
    && (forall v <- b.voters :: VoterOk(v, |b.options|))
    && (forall i :: 0 <= i < |b.options| ==> b.options[i].votes == Tally(b.voters, i))
    && b.total == PowerSum(b.voters) && 100 * b.total < TWO63
    && b.majority == TwoThirds(b.total)
  }

  // ----- operations

  function AddVotes(options: seq<Opt>, c: int, power: int): (r: seq<Opt>)
    requires c < |options|
    ensures |r| == |options|
  {
    if c < 0 then options else options[c := options[c].(votes := options[c].votes + power)]
  }

  function New(validators: seq<Voter>, bodies: seq<Bytes>, total: int): Ballot {
    Ballot(validators, seq(|bodies|, i requires 0 <= i < |bodies| => Opt(bodies[i], 0)), total, TwoThirds(total))
  }

  function Vote(b: Ballot, a: Address, c: int): Result<Ballot, BallotError>
    requires NOT_CHOICE <= c < |b.options| && forall v <- b.voters :: VoterOk(v, |b.options|)
  {
    var k := IndexOf(b.voters, a);
    if k == |b.voters| then Failure(NotFoundVoter)
    else
      var v := b.voters[k];
      assert v in b.voters && VoterOk(v, |b.options|);
      if v.choice == c then Success(b)
      else
        var cancelled := AddVotes(b.options, v.choice, -v.power);
        Success(b.(voters := b.voters[k := v.(choice := c)], options := AddVotes(cancelled, c, v.power)))
  }

  function SlashOf(power: int, rate: int): int {
    var s := Percent64(power, rate);
    if s <= 0 then power else s
  }

  function Slash(b: Ballot, a: Address, rate: int): Result<Ballot, BallotError>
    requires forall v <- b.voters :: VoterOk(v, |b.options|)
  {
    var k := IndexOf(b.voters, a);
    if k == |b.voters| then Failure(NotFoundVoter)
    else
      var v := b.voters[k];
      assert v in b.voters && VoterOk(v, |b.options|);
      Success(Weaken(b, k, SlashOf(v.power, rate)))
  }

  /** The ballot with `s` taken from voter `k`, who leaves it when nothing remains. */
  function Weaken(b: Ballot, k: nat, s: int): Ballot
    requires k < |b.voters| && VoterOk(b.voters[k], |b.options|)
  {
    var v := b.voters[k];
    var cancelled := AddVotes(b.options, v.choice, -v.power);
    var total := b.total - s;
    if v.power - s <= 0 then
      Ballot(b.voters[..k] + b.voters[k + 1..], cancelled, total, TwoThirds(total))
    else
      Ballot(b.voters[k := v.(power := v.power - s)], AddVotes(cancelled, v.choice, v.power - s), total,
          TwoThirds(total))
  }

  lemma NothingToCancel(options: seq<Opt>, c: int, power: int)
    requires c < 0
    ensures AddVotes(options, c, power) == options
  {
  }

  // ----- laws of the tally

  function Part(v: Voter, c: int): int { if v.choice == c then v.power else 0 }

  lemma {:induction false} TallyUpdate(voters: seq<Voter>, k: nat, v: Voter, c: int)
    requires k < |voters|
    ensures Tally(voters[k := v], c) == Tally(voters, c) - Part(voters[k], c) + Part(v, c)
    ensures PowerSum(voters[k := v]) == PowerSum(voters) - voters[k].power + v.power
  {
    if k > 0 {
      assert voters[k := v][1..] == voters[1..][k - 1 := v];
      TallyUpdate(voters[1..], k - 1, v, c);
    }
  }

  lemma {:induction false} TallyRemove(voters: seq<Voter>, k: nat, c: int)
    requires k < |voters|
    ensures Tally(voters[..k] + voters[k + 1..], c) == Tally(voters, c) - Part(voters[k], c)
    ensures PowerSum(voters[..k] + voters[k + 1..]) == PowerSum(voters) - voters[k].power
  {
    var rest := voters[..k] + voters[k + 1..];
    if k == 0 {
      assert rest == voters[1..];
    } else {
      assert rest[1..] == voters[1..][..k - 1] + voters[1..][k..];
      TallyRemove(voters[1..], k - 1, c);
    }
  }

  lemma {:induction false} TalliesWithinPower(voters: seq<Voter>, i: int, j: int)
    requires i != j && forall v <- voters :: v.power >= 0
    ensures 0 <= Tally(voters, i) && 0 <= Tally(voters, j) && Tally(voters, i) + Tally(voters, j) <= PowerSum(voters)
  {
    if voters != [] {
      assert voters[0] in voters;
      TalliesWithinPower(voters[1..], i, j);
    }
  }

  lemma {:induction false} NobodyChose(voters: seq<Voter>, c: int)
    requires forall v <- voters :: v.choice != c
    ensures Tally(voters, c) == 0
  {
    if voters != [] {
      assert voters[0] in voters;
      NobodyChose(voters[1..], c);
    }
  }

  lemma FoundIsVoter(voters: seq<Voter>, a: Address)
    ensures IndexOf(voters, a) < |voters| <==> exists i :: 0 <= i < |voters| && voters[i].addr == a
  {
  }

  // ----- every operation keeps the invariant

  lemma NewIsOk(validators: seq<Voter>, bodies: seq<Bytes>, total: int)
    requires Distinct(validators) && total == PowerSum(validators) && 100 * total < TWO63
    requires forall v <- validators :: v.power >= 0 && v.choice == NOT_CHOICE
    ensures Ok(New(validators, bodies, total))
  {
    forall i | 0 <= i < |bodies| ensures Tally(validators, i) == 0 { NobodyChose(validators, i); }
  }

  lemma VoteKeepsTally(b: Ballot, a: Address, c: int)
    requires Ok(b) && NOT_CHOICE <= c < |b.options|
    ensures Vote(b, a, c).Success? <==> exists v <- b.voters :: v.addr == a
    ensures Vote(b, a, c).Success? ==> Ok(Vote(b, a, c).value)
  {
    var k := IndexOf(b.voters, a);
    if k < |b.voters| && b.voters[k].choice != c {
      var v := b.voters[k];
      var b' := Vote(b, a, c).value;
      assert v in b.voters && VoterOk(v, |b.options|);
      forall i | 0 <= i < |b'.options| ensures b'.options[i].votes == Tally(b'.voters, i) {
        TallyUpdate(b.voters, k, v.(choice := c), i);
      }
      TallyUpdate(b.voters, k, v.(choice := c), c);
      ReplacedVoters(b.voters, k, v.(choice := c), |b.options|);
    }
  }

  lemma ReplacedVoters(voters: seq<Voter>, k: nat, v: Voter, options: nat)
    requires k < |voters| && Distinct(voters) && v.addr == voters[k].addr && VoterOk(v, options)
    requires forall x <- voters :: VoterOk(x, options)
    ensures Distinct(voters[k := v]) && forall x <- voters[k := v] :: VoterOk(x, options)
  {
  }

  lemma SlashAmount(power: int, rate: int)
    requires power >= 0 && 100 * power < TWO63 && 0 <= rate <= 100
    ensures 0 <= SlashOf(power, rate) <= power
  {
    PercentWithin(power, rate);
  }

  lemma {:induction false} VoterWithinTotal(voters: seq<Voter>, k: nat)
    requires k < |voters| && forall v <- voters :: v.power >= 0
    ensures 0 <= voters[k].power <= PowerSum(voters)
  {
    TallyRemove(voters, k, 0);
    var rest := voters[..k] + voters[k + 1..];
    TalliesWithinPower(rest, 0, 1);
  }

  lemma SlashKeepsTally(b: Ballot, a: Address, rate: int)
    requires Ok(b) && 0 <= rate <= 100
    ensures Slash(b, a, rate).Success? <==> exists v <- b.voters :: v.addr == a
    ensures Slash(b, a, rate).Success? ==> Ok(Slash(b, a, rate).value) && Slash(b, a, rate).value.total <= b.total
  {
    var k := IndexOf(b.voters, a);
    if k < |b.voters| {
      assert b.voters[k] in b.voters;
      VoterWithinTotal(b.voters, k);
      SlashAmount(b.voters[k].power, rate);
      SlashOkIff(b, a, rate);
    }
  }

  /** The slash rate is a governance parameter without a bound: the invariant survives exactly when
      the amount slashed is no more than the power there is. */
  lemma SlashOkIff(b: Ballot, a: Address, rate: int)
    requires Ok(b) && IndexOf(b.voters, a) < |b.voters|
    ensures Ok(Slash(b, a, rate).value) <==>
      SlashOf(b.voters[IndexOf(b.voters, a)].power, rate) <= b.voters[IndexOf(b.voters, a)].power
  {
    var k := IndexOf(b.voters, a);
    var v := b.voters[k];
    assert v in b.voters;
    if v.power <= SlashOf(v.power, rate) {
      TallyRemove(b.voters, k, 0);
      if v.power == SlashOf(v.power, rate) { RemovedVoterOk(b, a, rate); }
    } else {
      WeakenedVoterOk(b, a, rate);
    }
  }

  /** At a rate of 200 a lone voter of power 10 takes 20 off the total. */
  lemma DoubleSlashBreaksTotal()
    ensures var b := Ballot([Voter(0, 10, NOT_CHOICE)], [Opt([], 0)], 10, 6);
      Ok(b) && Slash(b, 0, 200).Success? && Slash(b, 0, 200).value.total == -10 && !Ok(Slash(b, 0, 200).value)
  {
    var b := Ballot([Voter(0, 10, NOT_CHOICE)], [Opt([], 0)], 10, 6);
    var vs := b.voters;
    assert vs[1..] == [] && PowerSum(vs) == vs[0].power + PowerSum(vs[1..]) && Tally(vs, 0) == 0 + Tally(vs[1..], 0);
    SlashOkIff(b, 0, 200);
  }

  lemma RemovedVoterOk(b: Ballot, a: Address, rate: int)
    requires Ok(b) && IndexOf(b.voters, a) < |b.voters|
    requires b.voters[IndexOf(b.voters, a)].power == SlashOf(b.voters[IndexOf(b.voters, a)].power, rate)
    ensures Ok(Slash(b, a, rate).value)
  {
    var k := IndexOf(b.voters, a);
    var b' := Slash(b, a, rate).value;
    assert b.voters[k] in b.voters;
    forall i | 0 <= i < |b'.options| ensures b'.options[i].votes == Tally(b'.voters, i) { TallyRemove(b.voters, k, i); }
    TallyRemove(b.voters, k, 0);
  }

  lemma WeakenedVoterOk(b: Ballot, a: Address, rate: int)
    requires Ok(b) && IndexOf(b.voters, a) < |b.voters|
    requires SlashOf(b.voters[IndexOf(b.voters, a)].power, rate) < b.voters[IndexOf(b.voters, a)].power
    ensures Ok(Slash(b, a, rate).value)
  {
    var k := IndexOf(b.voters, a);
    var v := b.voters[k];
    var v' := v.(power := v.power - SlashOf(v.power, rate));
    var b' := Slash(b, a, rate).value;
    assert v in b.voters;
    forall i | 0 <= i < |b'.options| ensures b'.options[i].votes == Tally(b'.voters, i) {
      TallyUpdate(b.voters, k, v', i);
    }
    TallyUpdate(b.voters, k, v', 0);
    ReplacedVoters(b.voters, k, v', |b.options|);
  }

  // ----- runs

  datatype Event = Cast(addr: Address, choice: int) | Punish(addr: Address, rate: int)

  predicate Sensible(e: Event, options: nat) {
    match e case Cast(_, c) => NOT_CHOICE <= c < options case Punish(_, r) => 0 <= r <= 100
  }

  /** A ballot after a run; a rejected event changes nothing. */
  ghost function After(b: Ballot, es: seq<Event>): Ballot
    requires Ok(b) && forall e <- es :: Sensible(e, |b.options|)
    decreases |es|
  {
    if es == [] then b
    else
      assert Sensible(es[0], |b.options|) by { assert es[0] in es; }
      var r := match es[0]
        case Cast(a, c) => (VoteKeepsTally(b, a, c); Vote(b, a, c))
        case Punish(a, rate) => (SlashKeepsTally(b, a, rate); Slash(b, a, rate));
      After(if r.Success? then r.value else b, es[1..])
  }

  /** The invariant after any sequence of votes, changed votes and slashes. */
  lemma {:induction false} EveryRunTallies(b: Ballot, es: seq<Event>)
    requires Ok(b) && forall e <- es :: Sensible(e, |b.options|)
    ensures Ok(After(b, es)) && |After(b, es).options| == |b.options| && After(b, es).total <= b.total
    decreases |es|
  {
    if es != [] {
      assert es[0] in es;
      match es[0]
      case Cast(a, c) =>
        VoteKeepsTally(b, a, c);
        EveryRunTallies(if Vote(b, a, c).Success? then Vote(b, a, c).value else b, es[1..]);
      case Punish(a, rate) =>
        SlashKeepsTally(b, a, rate);
        EveryRunTallies(if Slash(b, a, rate).Success? then Slash(b, a, rate).value else b, es[1..]);
    }
  }

  // ----- winners

  predicate Wins(b: Ballot, i: nat) { i < |b.options| && b.options[i].votes >= b.majority }

  predicate Decisive(total: int) { total == 3 || total >= 5 }

  /** Two options cannot both win when the electorate's power is 3 or at least 5, and the winner
      then has more than half of it. */
  lemma AtMostOneWinner(b: Ballot, i: nat, j: nat)
    requires Ok(b) && Decisive(b.total) && Wins(b, i) && Wins(b, j)
    ensures i == j && 2 * b.options[i].votes > b.total
  {
    if i != j {
      TalliesWithinPower(b.voters, i, j);
    }
  }

  /** Exactly for the other totals there is a ballot that two options win. */
  lemma TwoWinnersIffNotDecisive(total: nat)
    ensures !Decisive(total) <==> exists b: Ballot :: Ok(b) && b.total == total && Wins(b, 0) && Wins(b, 1)
  {
    if !Decisive(total) {
      TwoWinners(total);
    } else if exists b: Ballot :: Ok(b) && b.total == total && Wins(b, 0) && Wins(b, 1) {
      var b: Ballot :| Ok(b) && b.total == total && Wins(b, 0) && Wins(b, 1);
      AtMostOneWinner(b, 0, 1);
    }
  }

  lemma TalliesOfTwo(v: Voter, w: Voter, c: int)
    ensures Tally([v, w], c) == Part(v, c) + Part(w, c) && PowerSum([v, w]) == v.power + w.power
  {
    assert [v, w][1..] == [w] && [w][1..] == [];
    assert Tally([w], c) == Part(w, c) && PowerSum([w]) == w.power;
  }

  lemma TwoWinners(total: nat)
    requires !Decisive(total)
    ensures exists b: Ballot :: Ok(b) && b.total == total && Wins(b, 0) && Wins(b, 1)
  {
    var half := total / 2;
    var voters := if total == 0 then [] else if total == 1 then [Voter(0, 1, NOT_CHOICE)] else [Voter(0, half, 0),
        Voter(1, half, 1)];
    var votes := if total <= 1 then 0 else half;
    var b := Ballot(voters, [Opt([], votes), Opt([], votes)], total, TwoThirds(total));
    if total > 1 {
      TalliesOfTwo(Voter(0, half, 0), Voter(1, half, 1), 0);
      TalliesOfTwo(Voter(0, half, 0), Voter(1, half, 1), 1);
    } else {
      assert PowerSum(voters) == total && Tally(voters, 0) == 0 && Tally(voters, 1) == 0;
    }
    assert Ok(b) && Wins(b, 0) && Wins(b, 1);
  }

  /** An option that nobody voted for can win exactly when the electorate's power is at most one. */
  lemma NoVotesWinIff(b: Ballot, i: nat)
    requires Ok(b) && i < |b.options| && b.options[i].votes == 0
    ensures Wins(b, i) <==> b.total <= 1
  {
    TalliesWithinPower(b.voters, 0, 1);
  }

  // ----- the proposal object

  predicate Descending(os: seq<Opt>) { forall i, j :: 0 <= i < j < |os| ==> os[i].votes >= os[j].votes }

  lemma {:induction false} SameAddresses(voters: seq<Voter>, voters': seq<Voter>, a: Address)
    requires |voters| == |voters'| && forall i :: 0 <= i < |voters| ==> voters[i].addr == voters'[i].addr
    ensures IndexOf(voters, a) == IndexOf(voters', a) && (Distinct(voters) ==> Distinct(voters'))
  {
    var k, l := IndexOf(voters, a), IndexOf(voters', a);
    if k < |voters| { assert voters'[k].addr == a; }
    if l < |voters| { assert voters[l].addr == a; }
  }

  class GovProposal {
    var voters: seq<Voter>
    var options: seq<Opt>
    var totalVotingPower: int
    var majorityPower: int
    var majorOption: Option<Opt>

    function View(): Ballot
      reads this
    {
      Ballot(voters, options, totalVotingPower, majorityPower)
    }

    constructor Decode(b: Ballot, major: Option<Opt>)
      ensures View() == b && majorOption == major
    {
      voters, options, totalVotingPower, majorityPower, majorOption := b.voters, b.options, b.total, b.majority, major;
    }

    constructor (total: int)
      ensures View() == New([], [], total) && majorOption == None
    {
      voters, options, totalVotingPower, majorityPower, majorOption := [], [], total, TwoThirds(total), None;
    }

    method AddOption(body: Bytes)
      modifies this`options
      ensures options == old(options) + [Opt(body, 0)]
    {
      options := options + [Opt(body, 0)];
    }

    method AddVoter(a: Address, power: int)
      modifies this`voters
      ensures voters == if IndexOf(old(voters), a) < |old(voters)| then old(voters) else old(voters) + [Voter(a,
          power, NOT_CHOICE)]
    {
      var k := FindVoter(a);
      if k == |voters| { voters := voters + [Voter(a, power, NOT_CHOICE)]; }
    }

    method FindVoter(a: Address) returns (k: nat)
      ensures k == IndexOf(voters, a)
    {
      k := 0;
      while k < |voters| && voters[k].addr != a
        invariant k <= |voters| && forall i :: 0 <= i < k ==> voters[i].addr != a
      {
        k := k + 1;
      }
    }

    /** Remove the last voter with this address. */
    method RemoveVoter(a: Address)
      requires Distinct(voters)
      modifies this`voters
      ensures var k := IndexOf(old(voters), a);
        voters == if k < |old(voters)| then old(voters)[..k] + old(voters)[k + 1..] else old(voters)
    {
      var i := |voters|;
      while i > 0
        invariant 0 <= i <= |voters| && voters == old(voters) && forall j :: i <= j < |voters| ==> voters[j].addr != a
      {
        i := i - 1;
        if voters[i].addr == a {
          assert i == IndexOf(voters, a);
          voters := voters[..i] + voters[i + 1..];
          return;
        }
      }
    }

    method CancelVote(k: nat)
      requires k < |voters| && voters[k].choice < |options|
      modifies this`voters, this`options
      ensures voters == old(voters)[k :=
                old(voters)[k].(choice := if old(voters)[k].choice >= 0 then NOT_CHOICE else old(voters)[k].choice)]
      ensures options == AddVotes(old(options), old(voters)[k].choice, -old(voters)[k].power)
    {
      var v := voters[k];
      if v.choice >= 0 {
        options := options[v.choice := options[v.choice].(votes := options[v.choice].votes - v.power)];
        voters := voters[k := v.(choice := NOT_CHOICE)];
      } else {
        assert voters == voters[k := v];
      }
    }

    method CastVote(k: nat, choice: int)
      requires k < |voters| && choice < |options|
      modifies this`voters, this`options
      ensures voters
            == old(voters)[k := old(voters)[k].(choice := if choice >= 0 then choice else old(voters)[k].choice)]
      ensures options == AddVotes(old(options), choice, old(voters)[k].power)
    {
      if choice >= 0 {
        options := options[choice := options[choice].(votes := options[choice].votes + voters[k].power)];
        voters := voters[k := voters[k].(choice := choice)];
      } else {
        assert voters == voters[k := voters[k]];
      }
    }

    method DoVote(a: Address, choice: int) returns (err: Option<BallotError>)
      requires NOT_CHOICE <= choice < |options| && forall v <- voters :: VoterOk(v, |options|)
      modifies this`voters, this`options
      ensures match Vote(old(View()), a, choice)
        case Success(b) => err == None && View() == b
        case Failure(e) => err == Some(e) && View() == old(View())
    {
      var k := FindVoter(a);
      if k == |voters| { return Some(NotFoundVoter); }
      if voters[k].choice == choice { return None; }
      ghost var v := voters[k];
      assert v in voters;
      CancelVote(k);
      CastVote(k, choice);
      assert voters == old(voters)[k := v.(choice := choice)];
      return None;
    }

    method DoSlash(a: Address, rate: int) returns (r: Result<int, BallotError>)
      requires Distinct(voters) && forall v <- voters :: VoterOk(v, |options|)
      modifies this`voters, this`options, this`totalVotingPower, this`majorityPower
      ensures match Slash(old(View()), a, rate)
        case Success(b) => r.Success? && View() == b && totalVotingPower == old(totalVotingPower) - r.value
        case Failure(e) => r == Failure(e) && View() == old(View())
    {
      var k := FindVoter(a);
      if k == |voters| { return Failure(NotFoundVoter); }
      var v := voters[k];
      assert v in voters && VoterOk(v, |options|);
      var slash := Percent64(v.power, rate);
      if slash <= 0 { slash := v.power; }
      assert slash == SlashOf(v.power, rate);
      hide SlashOf;
      Cut(k, slash);
      return Success(slash);
    }

    method Cut(k: nat, slash: int)
      requires Distinct(voters) && k < |voters| && VoterOk(voters[k], |options|)
      modifies this`voters, this`options, this`totalVotingPower, this`majorityPower
      ensures View() == Weaken(old(View()), k, slash)
    {
      hide AddVotes;
      hide TwoThirds;
      var v := voters[k];
      if v.choice >= 0 { CancelVote(k); } else { NothingToCancel(options, v.choice, -v.power); }
      assert voters == old(voters)[k := v.(choice := NOT_CHOICE)];
      SameAddresses(old(voters), voters, v.addr);
      Reweigh(k, v.power - slash, v.choice);
      totalVotingPower := totalVotingPower - slash;
      majorityPower := TwoThirds(totalVotingPower);
    }

    /** Give voter `k`, whose vote is cancelled, the power left to it, and its vote again if any
        power is left. */
    method Reweigh(k: nat, power: int, choice: int)
      requires k < |voters| && Distinct(voters) && voters[k].choice == NOT_CHOICE <= choice < |options|
      modifies this`voters, this`options
      ensures voters == if power <= 0 then old(voters)[..k] + old(voters)[k + 1..]
                        else old(voters)[k := Voter(old(voters)[k].addr, power, choice)]
      ensures options == if power <= 0 then old(options) else AddVotes(old(options), choice, power)
    {
      var a := voters[k].addr;
      voters := voters[k := voters[k].(power := power)];
      if power <= 0 {
        SameAddresses(old(voters), voters, a);
        assert IndexOf(old(voters), a) == k;
        RemoveVoter(a);
      } else if choice >= 0 {
        CastVote(k, choice);
      }
    }

    /** Order the options by votes, most first; the order among equals is left open. The first one
        becomes the major option if it wins. */
    method UpdateMajorOption() returns (major: Option<Opt>)
      requires |options| > 0
      modifies this`options, this`majorOption
      ensures multiset(options) == multiset(old(options)) && Descending(options)
      ensures major == majorOption == if options[0].votes >= majorityPower then Some(options[0]) else old(majorOption)
    {
      var sorted, unsorted := [], options;
      for n := 0 to |unsorted|
        invariant multiset(sorted) == multiset(unsorted[..n]) && Descending(sorted)
        invariant options == old(options) && majorOption == old(majorOption)
      {
        PlaceKeepsOrder(sorted, unsorted[n]);
        assert unsorted[..n + 1] == unsorted[..n] + [unsorted[n]];
        sorted := Place(sorted, unsorted[n]);
      }
      assert unsorted[..|unsorted|] == unsorted;
      assert |multiset(sorted)| == |multiset(unsorted)|;
      options := sorted;
      if options[0].votes >= majorityPower { majorOption := Some(options[0]); }
      major := majorOption;
    }
  }

  function Place(os: seq<Opt>, o: Opt): (r: seq<Opt>)
    ensures multiset(r) == multiset(os) + multiset{o}
  {
    if os == [] || o.votes >= os[0].votes then [o] + os
    else
      assert os == [os[0]] + os[1..];
      [os[0]] + Place(os[1..], o)
  }

  lemma {:induction false} PlaceKeepsOrder(os: seq<Opt>, o: Opt)
    requires Descending(os)
    ensures Descending(Place(os, o))
  {
    if os != [] && o.votes < os[0].votes {
      PlaceKeepsOrder(os[1..], o);
      var r := Place(os[1..], o);
      forall j | 0 <= j < |r| ensures os[0].votes >= r[j].votes {
        assert r[j] in multiset(os[1..]) + multiset{o};
        assert r[j] == o || r[j] in os[1..];
      }
      assert Descending([os[0]] + r);
    }
  }

  /** The options may come out in any order among equals, but the body of the winner is settled as
      soon as the electorate is decisive. */
  lemma WinnerIgnoresOrder(b: Ballot, os: seq<Opt>, os': seq<Opt>)
    requires Ok(b) && Decisive(b.total) && |b.options| > 0
    requires multiset(os) == multiset(os') == multiset(b.options)
    requires |os| == |os'| == |b.options| && Descending(os) && Descending(os')
    ensures os[0].votes >= b.majority <==> os'[0].votes >= b.majority
    ensures os[0].votes >= b.majority ==> os[0] == os'[0]
  {
    assert os[0] in multiset(b.options) && os'[0] in multiset(b.options);
    assert os[0] in multiset(os') && os'[0] in multiset(os);
    var k :| 0 <= k < |os'| && os'[k] == os[0];
    var l :| 0 <= l < |os| && os[l] == os'[0];
    assert os[0].votes == os'[0].votes;
    if os[0].votes >= b.majority {
      var i :| 0 <= i < |b.options| && b.options[i] == os[0];
      var j :| 0 <= j < |b.options| && b.options[j] == os'[0];
      AtMostOneWinner(b, i, j);
    }
  }
}
