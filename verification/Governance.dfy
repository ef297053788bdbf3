/** ctrlers/gov: the life of a governance proposal across blocks, and the governance parameters
    that a winning proposal replaces. Options of a parameter proposal are JSON texts; `parse` is
    the decoder. */
module Governance {
  import opened Base
  import opened Ballot
  import Keys

  const PROPOSAL_GOVPARAMS := 0x0101

  /** The parameters field by field, in the order of the protobuf message; zero means unset. */
  type Params = seq<int>

  const SLASH_RATE := 22
  const MIN_VOTING_PERIOD := 27
  const MAX_VOTING_PERIOD := 28
  const LAZY_APPLYING := 29
  const FIELDS := 30

  datatype Prop = Prop(kind: int, start: int, end: int, applyAt: int, ballot: Ballot, major: Option<Opt>)

  /** `stored` is the ledger's parameter entry, `live` the copy every other controller reads, and
      `pending` the replacement waiting for Commit. */
  datatype Gov = Gov(props: map<Hash, Prop>, frozen: map<Hash, Prop>, stored: Params, live: Params,
      pending: Option<Params>)

  datatype Payload = Payload(kind: int, start: int, period: int, applyAt: int, bodies: seq<Bytes>)

  datatype Tx =
    | Propose(hash: Hash, from: Address, toZero: bool, payload: Payload)
    | CastVote(hash: Hash, from: Address, toZero: bool, choice: int)

  type Parse = Bytes -> Option<Params>

  predicate IsInt64(x: int) { -(TWO63 as int) <= x < TWO63 }

  // ----- transactions

  predicate IsVoterIn(vs: seq<Voter>, a: Address) { exists i :: 0 <= i < |vs| && vs[i].addr == a }

  predicate ScheduleOk(live: Params, h: int, p: Payload)
    requires |live| == FIELDS
  {
    var end := Add64(p.start, p.period);
    var minApply := Add64(end, live[LAZY_APPLYING]);
    && p.start > h
    && live[MIN_VOTING_PERIOD] <= p.period <= live[MAX_VOTING_PERIOD]
    && p.start <= end
    && p.applyAt >= minApply && end <= p.applyAt
  }

  predicate CanPropose(parse: Parse, g: Gov, h: int, vals: seq<Voter>, tx: Tx)
    requires tx.Propose? && |g.live| == FIELDS
  {
    && tx.toZero && IsVoterIn(vals, tx.from) && tx.hash !in g.props
    && ScheduleOk(g.live, h, tx.payload)
    && (tx.payload.kind == PROPOSAL_GOVPARAMS ==> forall b <- tx.payload.bodies :: parse(b).Some?)
    && tx.payload.bodies != []
  }

  predicate CanVote(g: Gov, h: int, tx: Tx)
    requires tx.CastVote?
  {
    && tx.toZero && tx.hash in g.props
    && var p := g.props[tx.hash];
      IsVoterIn(p.ballot.voters, tx.from) && 0 <= tx.choice < |p.ballot.options| && p.start <= h <= p.end
  }

  function Opened(vals: seq<Voter>, p: Payload): Prop {
    Prop(p.kind, p.start, Add64(p.start, p.period), p.applyAt, New(vals, p.bodies, PowerSum(vals)), None)
  }

  /** A transaction in block `h`; one that does not pass validation changes nothing. */
  function Execute(parse: Parse, g: Gov, h: int, vals: seq<Voter>, tx: Tx): Gov
    requires |g.live| == FIELDS && forall k <- g.props :: Shape(g.props[k])
  {
    match tx
    case Propose(hash, _, _, payload) =>
      if CanPropose(parse, g, h, vals, tx) then g.(props := g.props[hash := Opened(vals, payload)]) else g
    case CastVote(hash, from, _, choice) =>
      if CanVote(g, h, tx) then
        assert Shape(g.props[hash]);
        var r := Vote(g.props[hash].ballot, from, choice);
        if r.Success? then g.(props := g.props[hash := g.props[hash].(ballot := r.value)]) else g
      else g
  }

  // ----- punishment

  predicate Shape(p: Prop) {
    p.ballot.options != [] && Distinct(p.ballot.voters) && forall v <- p.ballot.voters :: VoterOk(v, |p.ballot.options|)
  }

  function SlashedProp(p: Prop, a: Address, rate: int): Prop
    requires Shape(p)
  {
    var r := Slash(p.ballot, a, rate);
    if r.Success? then p.(ballot := r.value) else p
  }

  function Punished(g: Gov, a: Address): Gov
    requires |g.live| == FIELDS && forall k <- g.props :: Shape(g.props[k])
  {
    g.(props := map k | k in g.props :: SlashedProp(g.props[k], a, g.live[SLASH_RATE]))
  }

  // ----- end of block

  /** `q` is `p` with its options ordered by votes and its major option settled. */
  ghost predicate Settled(p: Prop, q: Prop) {
    && q == p.(ballot := p.ballot.(options := q.ballot.options), major := q.major)
    && multiset(q.ballot.options) == multiset(p.ballot.options) && |q.ballot.options| == |p.ballot.options| > 0
    && Descending(q.ballot.options)
    && q.major == if q.ballot.options[0].votes >= p.ballot.majority then Some(q.ballot.options[0]) else p.major
  }

  ghost function Decided(g: Gov, h: int): set<Hash> { set k | k in g.props && g.props[k].end < h }

  /** How the sort ordered the options of the proposals decided at `h`. */
  ghost predicate Settlement(g: Gov, h: int, settled: map<Hash, Prop>) {
    settled.Keys == Decided(g, h) && forall k <- settled :: Settled(g.props[k], settled[k])
  }

  ghost function Winners(settled: map<Hash, Prop>): map<Hash, Prop> {
    map k | k in settled && settled[k].major.Some? :: settled[k]
  }

  ghost function Freeze(g: Gov, settled: map<Hash, Prop>): Gov {
    g.(props := g.props - settled.Keys, frozen := g.frozen + Winners(settled))
  }

  ghost function DueKeys(g: Gov, h: int): set<Hash> { set k | k in g.frozen && g.frozen[k].applyAt <= h }

  /** Unset fields keep their present value. */
  function Merge(was: Params, now: Params): Params
    requires |was| == |now|
  {
    seq(|now|, i requires 0 <= i < |now| => if now[i] == 0 then was[i] else now[i])
  }

  predicate Applicable(parse: Parse, p: Prop) {
    && p.major.Some?
    && (p.kind == PROPOSAL_GOVPARAMS ==>
          parse(p.major.value.body).Some? && |parse(p.major.value.body).value| == FIELDS)
  }

  function ApplyOne(parse: Parse, live: Params, pending: Option<Params>, p: Prop): Option<Params>
    requires |live| == FIELDS && Applicable(parse, p)
  {
    if p.kind == PROPOSAL_GOVPARAMS then Some(Merge(live, parse(p.major.value.body).value)) else pending
  }

  ghost function ApplyAll(parse: Parse, g: Gov, keys: seq<Hash>): Option<Params>
    requires |g.live| == FIELDS && forall k <- keys :: k in g.frozen && Applicable(parse, g.frozen[k])
    decreases |keys|
  {
    if keys == [] then g.pending
    else ApplyOne(parse, g.live, ApplyAll(parse, g, keys[..|keys| - 1]), g.frozen[keys[|keys| - 1]])
  }

  ghost predicate AllApplicable(parse: Parse, g: Gov, h: int) {
    forall k <- g.frozen :: g.frozen[k].applyAt <= h ==> Applicable(parse, g.frozen[k])
  }

  ghost function Apply(parse: Parse, g: Gov, h: int): Gov
    requires |g.live| == FIELDS && AllApplicable(parse, g, h)
  {
    Keys.OrderedIsAscending(DueKeys(g, h));
    var pending := ApplyAll(parse, g, Keys.Ordered(DueKeys(g, h)));
    g.(frozen := g.frozen - DueKeys(g, h), pending := pending,
        stored := if pending.Some? then pending.value else g.stored)
  }

  function Committed(g: Gov): Gov {
    if g.pending.Some? then g.(live := g.pending.value, pending := None) else g
  }

  // ----- the invariant

  predicate ParsesAll(parse: Parse, p: Prop) {
    p.kind == PROPOSAL_GOVPARAMS ==>
      forall o <- p.ballot.options :: parse(o.body).Some? && |parse(o.body).value| == FIELDS
  }

  predicate OpenOk(parse: Parse, p: Prop, h: int) {
    Shape(p) && p.major == None && ParsesAll(parse, p) && p.start <= p.end <= p.applyAt && p.end >= h
  }

  predicate FrozenOk(parse: Parse, p: Prop, h: int) { Applicable(parse, p) && p.applyAt > h }

  /** What holds between the transactions of block `h`: no open proposal ended before the previous
      block, no frozen one was due in it, and the parameters are the stored ones. */
  ghost predicate During(parse: Parse, g: Gov, h: int) {
    && g.pending == None && g.live == g.stored && |g.live| == FIELDS
    && (forall k <- g.props :: OpenOk(parse, g.props[k], h - 1))
    && (forall k <- g.frozen :: FrozenOk(parse, g.frozen[k], h - 1))
  }

  /** The decoder yields whole parameter sets. */
  ghost predicate Whole(parse: Parse) { forall b :: parse(b).Some? ==> |parse(b).value| == FIELDS }

  lemma {:induction false} AddVotesKeepsBodies(os: seq<Opt>, c: int, power: int)
    requires c < |os|
    ensures |AddVotes(os, c, power)| == |os|
    ensures forall i :: 0 <= i < |os| ==> AddVotes(os, c, power)[i].body == os[i].body
  {
  }

  ghost predicate SameBodies(b: Ballot, b': Ballot) {
    |b.options| == |b'.options| && forall i :: 0 <= i < |b.options| ==> b'.options[i].body == b.options[i].body
  }

  lemma VoteKeepsShape(p: Prop, a: Address, c: int)
    requires Shape(p) && NOT_CHOICE <= c < |p.ballot.options|
    ensures var r := Vote(p.ballot, a, c); r.Success? ==> Shape(p.(ballot := r.value)) && SameBodies(p.ballot, r.value)
  {
    var k := IndexOf(p.ballot.voters, a);
    if k < |p.ballot.voters| && p.ballot.voters[k].choice != c {
      var v := p.ballot.voters[k];
      assert v in p.ballot.voters;
      ReplacedVoters(p.ballot.voters, k, v.(choice := c), |p.ballot.options|);
      AddVotesKeepsBodies(p.ballot.options, v.choice, -v.power);
      AddVotesKeepsBodies(AddVotes(p.ballot.options, v.choice, -v.power), c, v.power);
    }
  }

  lemma SlashKeepsShape(p: Prop, a: Address, rate: int)
    requires Shape(p)
    ensures Shape(SlashedProp(p, a, rate)) && SameBodies(p.ballot, SlashedProp(p, a, rate).ballot)
  {
    var k := IndexOf(p.ballot.voters, a);
    if k < |p.ballot.voters| {
      var v := p.ballot.voters[k];
      assert v in p.ballot.voters;
      var s := SlashOf(v.power, rate);
      AddVotesKeepsBodies(p.ballot.options, v.choice, -v.power);
      AddVotesKeepsBodies(AddVotes(p.ballot.options, v.choice, -v.power), v.choice, v.power - s);
      if v.power - s > 0 { ReplacedVoters(p.ballot.voters, k, v.(power := v.power - s), |p.ballot.options|); }
    }
  }

  lemma SameBodiesParse(parse: Parse, p: Prop, b: Ballot)
    requires ParsesAll(parse, p) && SameBodies(p.ballot, b)
    ensures ParsesAll(parse, p.(ballot := b))
  {
    forall o <- b.options
      ensures p.kind == PROPOSAL_GOVPARAMS ==> parse(o.body).Some? && |parse(o.body).value| == FIELDS
    {
      var i :| 0 <= i < |b.options| && b.options[i] == o;
      assert p.ballot.options[i] in p.ballot.options;
    }
  }

  /** An accepted schedule is in order, even where the arithmetic is 64 bits wide. */
  lemma AcceptedScheduleIsOrdered(live: Params, h: int, p: Payload)
    requires |live| == FIELDS && ScheduleOk(live, h, p) && IsInt64(p.start) && 0 <= p.period && IsInt64(p.period)
    ensures h < p.start <= Add64(p.start, p.period) <= p.applyAt && Add64(p.start, p.period) == p.start + p.period
  {
  }

  lemma ExecuteKeeps(parse: Parse, g: Gov, h: int, vals: seq<Voter>, tx: Tx)
    requires During(parse, g, h) && Whole(parse) && Distinct(vals)
    requires forall v <- vals :: v.power >= 0 && v.choice == NOT_CHOICE
    ensures During(parse, Execute(parse, g, h, vals, tx), h)
    ensures Execute(parse, g, h, vals, tx).frozen == g.frozen && Execute(parse, g, h, vals, tx).live == g.live
  {
    match tx
    case Propose(hash, _, _, payload) =>
      if CanPropose(parse, g, h, vals, tx) {
        var p := Opened(vals, payload);
        forall o <- p.ballot.options ensures p.kind == PROPOSAL_GOVPARAMS ==> parse(o.body).Some? {
          var i :| 0 <= i < |payload.bodies| && p.ballot.options[i] == o;
          assert payload.bodies[i] in payload.bodies;
        }
      }
    case CastVote(hash, from, _, choice) =>
      if CanVote(g, h, tx) {
        VoteKeepsShape(g.props[hash], from, choice);
        var r := Vote(g.props[hash].ballot, from, choice);
        if r.Success? { SameBodiesParse(parse, g.props[hash], r.value); }
      }
  }

  lemma PunishedKeeps(parse: Parse, g: Gov, h: int, a: Address)
    requires During(parse, g, h)
    ensures During(parse, Punished(g, a), h)
  {
    forall k <- g.props ensures OpenOk(parse, Punished(g, a).props[k], h - 1) {
      SlashKeepsShape(g.props[k], a, g.live[SLASH_RATE]);
      SameBodiesParse(parse, g.props[k], SlashedProp(g.props[k], a, g.live[SLASH_RATE]).ballot);
    }
  }

  lemma SettledIsApplicable(parse: Parse, p: Prop, q: Prop, h: int)
    requires OpenOk(parse, p, h) && Settled(p, q) && q.major.Some?
    ensures Applicable(parse, q)
  {
    assert q.ballot.options[0] in multiset(q.ballot.options);
    assert q.ballot.options[0] in p.ballot.options;
  }

  /** For a decisive electorate every order of equally voted options settles the same winner. */
  lemma SettlementsAgree(p: Prop, q: Prop, q': Prop)
    requires Ok(p.ballot) && Decisive(p.ballot.total) && Settled(p, q) && Settled(p, q')
    ensures q.major == q'.major
  {
    WinnerIgnoresOrder(p.ballot, q.ballot.options, q'.ballot.options);
  }

  /** When a settled proposal is applied. */
  function ApplyHeight(p: Prop): int { if p.end + 1 < p.applyAt then p.applyAt else p.end + 1 }

  lemma FreezeKeeps(parse: Parse, g: Gov, h: int, settled: map<Hash, Prop>)
    requires During(parse, g, h) && Settlement(g, h, settled)
    ensures forall k <- Freeze(g, settled).props :: OpenOk(parse, Freeze(g, settled).props[k], h)
    ensures AllApplicable(parse, Freeze(g, settled), h)
    ensures forall k <- settled :: settled[k].end == h - 1
  {
    forall k <- Freeze(g, settled).frozen ensures Applicable(parse, Freeze(g, settled).frozen[k]) {
      if k in Winners(settled) { SettledIsApplicable(parse, g.props[k], settled[k], h - 1); }
    }
  }

  ghost function Ended(parse: Parse, g: Gov, h: int, settled: map<Hash, Prop>): Gov
    requires During(parse, g, h) && Settlement(g, h, settled)
  {
    FreezeKeeps(parse, g, h, settled);
    Apply(parse, Freeze(g, settled), h)
  }

  lemma {:induction false} ApplyAllIsWhole(parse: Parse, g: Gov, keys: seq<Hash>)
    requires |g.live| == FIELDS && g.pending == None
    requires forall k <- keys :: k in g.frozen && Applicable(parse, g.frozen[k])
    ensures ApplyAll(parse, g, keys).Some? ==> |ApplyAll(parse, g, keys).value| == FIELDS
    decreases |keys|
  {
    if keys != [] { ApplyAllIsWhole(parse, g, keys[..|keys| - 1]); }
  }

  /** EndBlock never fails, changes no parameter that is being read, and Commit then makes the
      live parameters the stored ones; the invariant moves on to the next height. */
  lemma EndBlockKeeps(parse: Parse, g: Gov, h: int, settled: map<Hash, Prop>)
    requires During(parse, g, h) && Settlement(g, h, settled)
    ensures Ended(parse, g, h, settled).live == g.live
    ensures During(parse, Committed(Ended(parse, g, h, settled)), h + 1)
  {
    FreezeKeeps(parse, g, h, settled);
    var f := Freeze(g, settled);
    Keys.OrderedIsAscending(DueKeys(f, h));
    ApplyAllIsWhole(parse, f, Keys.Ordered(DueKeys(f, h)));
    var e := Ended(parse, g, h, settled);
    forall k <- e.frozen ensures FrozenOk(parse, e.frozen[k], h) {
      if k in Winners(settled) { SettledIsApplicable(parse, g.props[k], settled[k], h - 1); }
    }
  }

  lemma {:induction false} ApplyAllTakesGreatest(parse: Parse, g: Gov, keys: seq<Hash>, k: Hash)
    requires |g.live| == FIELDS && Keys.Ascending(keys)
    requires forall j <- keys :: j in g.frozen && Applicable(parse, g.frozen[j])
    requires forall j <- keys :: g.frozen[j].kind == PROPOSAL_GOVPARAMS ==> j <= k
    ensures k in keys && g.frozen[k].kind == PROPOSAL_GOVPARAMS ==>
      ApplyAll(parse, g, keys) == Some(Merge(g.live, parse(g.frozen[k].major.value.body).value))
    ensures (forall j <- keys :: g.frozen[j].kind != PROPOSAL_GOVPARAMS) ==> ApplyAll(parse, g, keys) == g.pending
    decreases |keys|
  {
    if keys != [] {
      var n := |keys| - 1;
      ApplyAllTakesGreatest(parse, g, keys[..n], k);
      if k in keys && keys[n] != k {
        var i :| 0 <= i < |keys| && keys[i] == k;
        assert keys[..n][i] == k && keys[n] in keys;
      }
    }
  }

  /** Of the proposals due at `h`, whatever their kinds, the parameter proposal with the greatest key
      decides: its parameters, merged with those in force, are pending. Without one nothing changes. */
  lemma LastProposalWins(parse: Parse, g: Gov, h: int, k: Hash)
    requires |g.live| == FIELDS && AllApplicable(parse, g, h)
    requires forall j <- DueKeys(g, h) :: g.frozen[j].kind == PROPOSAL_GOVPARAMS ==> j <= k
    ensures k in DueKeys(g, h) && g.frozen[k].kind == PROPOSAL_GOVPARAMS ==>
      Apply(parse, g, h).pending == Some(Merge(g.live, parse(g.frozen[k].major.value.body).value))
    ensures (forall j <- DueKeys(g, h) :: g.frozen[j].kind != PROPOSAL_GOVPARAMS) ==>
      Apply(parse, g, h).pending == g.pending
  {
    var keys := Keys.Ordered(DueKeys(g, h));
    Keys.OrderedIsAscending(DueKeys(g, h));
    ApplyAllTakesGreatest(parse, g, keys, k);
  }

  // ----- whole runs

  datatype Block = Block(byzantine: seq<Address>, vals: seq<Voter>, txs: seq<Tx>, settled: map<Hash, Prop>)

  /** Distinct voters who have not voted yet, whose power is far inside int64. */
  ghost predicate Electorate(vals: seq<Voter>) {
    && Distinct(vals) && 100 * PowerSum(vals) < TWO63
    && forall v <- vals :: v.power >= 0 && v.choice == NOT_CHOICE
  }

  ghost function PunishAll(parse: Parse, g: Gov, h: int, as_: seq<Address>): (r: Gov)
    requires During(parse, g, h)
    ensures During(parse, r, h)
    decreases |as_|
  {
    if as_ == [] then g
    else
      PunishedKeeps(parse, g, h, as_[0]);
      PunishAll(parse, Punished(g, as_[0]), h, as_[1..])
  }

  lemma {:induction false} PunishAllKeepsLive(parse: Parse, g: Gov, h: int, as_: seq<Address>)
    requires During(parse, g, h)
    ensures PunishAll(parse, g, h, as_).live == g.live
    decreases |as_|
  {
    if as_ != [] {
      PunishedKeeps(parse, g, h, as_[0]);
      PunishAllKeepsLive(parse, Punished(g, as_[0]), h, as_[1..]);
    }
  }

  ghost function ExecuteAll(parse: Parse, g: Gov, h: int, vals: seq<Voter>, txs: seq<Tx>): (r: Gov)
    requires During(parse, g, h) && Whole(parse) && Electorate(vals)
    ensures During(parse, r, h)
    decreases |txs|
  {
    if txs == [] then g
    else
      ExecuteKeeps(parse, g, h, vals, txs[0]);
      ExecuteAll(parse, Execute(parse, g, h, vals, txs[0]), h, vals, txs[1..])
  }

  /** The state that EndBlock sees. */
  ghost function BeforeEnd(parse: Parse, g: Gov, h: int, b: Block): (r: Gov)
    requires During(parse, g, h) && Whole(parse) && Electorate(b.vals)
    ensures During(parse, r, h)
  {
    ExecuteAll(parse, PunishAll(parse, g, h, b.byzantine), h, b.vals, b.txs)
  }

  ghost predicate BlockOk(parse: Parse, g: Gov, h: int, b: Block)
    requires During(parse, g, h) && Whole(parse)
  {
    Electorate(b.vals) && Settlement(BeforeEnd(parse, g, h, b), h, b.settled)
  }

  ghost function RunBlock(parse: Parse, g: Gov, h: int, b: Block): (r: Gov)
    requires During(parse, g, h) && Whole(parse) && BlockOk(parse, g, h, b)
    ensures During(parse, r, h + 1)
  {
    EndBlockKeeps(parse, BeforeEnd(parse, g, h, b), h, b.settled);
    Committed(Ended(parse, BeforeEnd(parse, g, h, b), h, b.settled))
  }

  ghost predicate RunOk(parse: Parse, g: Gov, h: int, bs: seq<Block>)
    requires During(parse, g, h) && Whole(parse)
    decreases |bs|
  {
    bs != [] ==> BlockOk(parse, g, h, bs[0]) && RunOk(parse, RunBlock(parse, g, h, bs[0]), h + 1, bs[1..])
  }

  // ----- every open ballot is tallied correctly

  ghost predicate Tallied(g: Gov) { forall k <- g.props :: Ok(g.props[k].ballot) }

  lemma ExecuteTallies(parse: Parse, g: Gov, h: int, vals: seq<Voter>, tx: Tx)
    requires During(parse, g, h) && Electorate(vals) && Tallied(g)
    ensures Tallied(Execute(parse, g, h, vals, tx))
  {
    match tx
    case Propose(_, _, _, payload) => NewIsOk(vals, payload.bodies, PowerSum(vals));
    case CastVote(hash, from, _, choice) =>
      if CanVote(g, h, tx) { VoteKeepsTally(g.props[hash].ballot, from, choice); }
  }

  lemma PunishedTallies(parse: Parse, g: Gov, h: int, a: Address)
    requires During(parse, g, h) && Tallied(g) && 0 <= g.live[SLASH_RATE] <= 100
    ensures Tallied(Punished(g, a))
  {
    forall k <- g.props ensures Ok(Punished(g, a).props[k].ballot) {
      SlashKeepsTally(g.props[k].ballot, a, g.live[SLASH_RATE]);
    }
  }

  lemma {:induction false} PunishAllTallies(parse: Parse, g: Gov, h: int, as_: seq<Address>)
    requires During(parse, g, h) && Tallied(g) && 0 <= g.live[SLASH_RATE] <= 100
    ensures Tallied(PunishAll(parse, g, h, as_))
    decreases |as_|
  {
    if as_ != [] {
      PunishedKeeps(parse, g, h, as_[0]);
      PunishedTallies(parse, g, h, as_[0]);
      PunishAllTallies(parse, Punished(g, as_[0]), h, as_[1..]);
    }
  }

  lemma {:induction false} ExecuteAllTallies(parse: Parse, g: Gov, h: int, vals: seq<Voter>, txs: seq<Tx>)
    requires During(parse, g, h) && Whole(parse) && Electorate(vals) && Tallied(g)
    ensures Tallied(ExecuteAll(parse, g, h, vals, txs))
    decreases |txs|
  {
    if txs != [] {
      ExecuteKeeps(parse, g, h, vals, txs[0]);
      ExecuteTallies(parse, g, h, vals, txs[0]);
      ExecuteAllTallies(parse, Execute(parse, g, h, vals, txs[0]), h, vals, txs[1..]);
    }
  }

  /** A block at a slash rate within [0, 100] keeps the tally of every open ballot. */
  lemma BlockTallies(parse: Parse, g: Gov, h: int, b: Block)
    requires During(parse, g, h) && Whole(parse) && BlockOk(parse, g, h, b)
    requires Tallied(g) && 0 <= g.live[SLASH_RATE] <= 100
    ensures Tallied(RunBlock(parse, g, h, b))
  {
    PunishAllTallies(parse, g, h, b.byzantine);
    ExecuteAllTallies(parse, PunishAll(parse, g, h, b.byzantine), h, b.vals, b.txs);
    var m := BeforeEnd(parse, g, h, b);
    forall k <- RunBlock(parse, g, h, b).props ensures k in m.props && RunBlock(parse, g, h, b).props[k] == m.props[k] {
      FreezeKeeps(parse, m, h, b.settled);
    }
    hide Ok;
  }

  datatype Milestone = Frozen(height: int) | Removed(height: int) | Applied(height: int)

  /** The events about proposal `k` that EndBlock emits at `h`. */
  ghost function EventsOf(g: Gov, h: int, settled: map<Hash, Prop>, k: Hash): seq<Milestone> {
    (if k !in settled then [] else if settled[k].major.Some? then [Frozen(h)] else [Removed(h)])
    + (if k in DueKeys(Freeze(g, settled), h) then [Applied(h)] else [])
  }

  ghost function History(parse: Parse, g: Gov, h: int, bs: seq<Block>, k: Hash): seq<Milestone>
    requires During(parse, g, h) && Whole(parse) && RunOk(parse, g, h, bs)
    decreases |bs|
  {
    if bs == [] then []
    else
      EventsOf(BeforeEnd(parse, g, h, bs[0]), h, bs[0].settled, k)
      + History(parse, RunBlock(parse, g, h, bs[0]), h + 1, bs[1..], k)
  }

  predicate SameSchedule(p: Prop, q: Prop) {
    p.kind == q.kind && p.start == q.start && p.end == q.end && p.applyAt == q.applyAt
  }

  predicate NotProposed(txs: seq<Tx>, k: Hash) { forall tx <- txs :: tx.Propose? ==> tx.hash != k }

  lemma {:induction false} PunishAllKeepsSchedule(parse: Parse, g: Gov, h: int, as_: seq<Address>, k: Hash)
    requires During(parse, g, h)
    ensures var r := PunishAll(parse, g, h, as_);
      r.frozen == g.frozen && (k in r.props <==> k in g.props) && (k in g.props ==> SameSchedule(g.props[k],
          r.props[k]))
    decreases |as_|
  {
    if as_ != [] {
      PunishedKeeps(parse, g, h, as_[0]);
      PunishAllKeepsSchedule(parse, Punished(g, as_[0]), h, as_[1..], k);
    }
  }

  lemma {:induction false} ExecuteAllKeepsSchedule(parse: Parse, g: Gov, h: int, vals: seq<Voter>, txs: seq<Tx>,
          k: Hash)
    requires During(parse, g, h) && Whole(parse) && Electorate(vals) && NotProposed(txs, k)
    ensures var r := ExecuteAll(parse, g, h, vals, txs);
      r.frozen == g.frozen && (k in r.props <==> k in g.props) && (k in g.props ==> SameSchedule(g.props[k],
          r.props[k]))
    decreases |txs|
  {
    if txs != [] {
      assert txs[0] in txs;
      ExecuteKeeps(parse, g, h, vals, txs[0]);
      ExecuteAllKeepsSchedule(parse, Execute(parse, g, h, vals, txs[0]), h, vals, txs[1..], k);
    }
  }

  lemma BeforeEndKeepsSchedule(parse: Parse, g: Gov, h: int, b: Block, k: Hash)
    requires During(parse, g, h) && Whole(parse) && Electorate(b.vals) && NotProposed(b.txs, k)
    ensures var r := BeforeEnd(parse, g, h, b);
      r.frozen == g.frozen && (k in r.props <==> k in g.props) && (k in g.props ==> SameSchedule(g.props[k],
          r.props[k]))
  {
    PunishAllKeepsSchedule(parse, g, h, b.byzantine, k);
    ExecuteAllKeepsSchedule(parse, PunishAll(parse, g, h, b.byzantine), h, b.vals, b.txs, k);
  }

  ghost predicate NeverProposed(bs: seq<Block>, k: Hash) { forall b <- bs :: NotProposed(b.txs, k) }

  /** Once settled and out of both stores a proposal leaves no further trace. */
  lemma {:induction false} GoneStaysGone(parse: Parse, g: Gov, h: int, bs: seq<Block>, k: Hash)
    requires During(parse, g, h) && Whole(parse) && RunOk(parse, g, h, bs) && NeverProposed(bs, k)
    requires k !in g.props && k !in g.frozen
    ensures History(parse, g, h, bs, k) == []
    decreases |bs|
  {
    if bs != [] {
      assert bs[0] in bs;
      BeforeEndKeepsSchedule(parse, g, h, bs[0], k);
      GoneStaysGone(parse, RunBlock(parse, g, h, bs[0]), h + 1, bs[1..], k);
    }
  }

  /** One block in the life of a frozen proposal. */
  lemma FrozenBlock(parse: Parse, g: Gov, h: int, b: Block, k: Hash)
    requires During(parse, g, h) && Whole(parse) && BlockOk(parse, g, h, b) && NotProposed(b.txs, k)
    requires k !in g.props && k in g.frozen
    ensures h <= g.frozen[k].applyAt && k !in RunBlock(parse, g, h, b).props
    ensures var r := RunBlock(parse, g, h, b); var es := EventsOf(BeforeEnd(parse, g, h, b), h, b.settled, k);
      if g.frozen[k].applyAt == h then k !in r.frozen && es == [Applied(h)]
      else k in r.frozen && r.frozen[k] == g.frozen[k] && es == []
  {
    BeforeEndKeepsSchedule(parse, g, h, b, k);
  }

  lemma {:induction false} FrozenIsAppliedOnce(parse: Parse, g: Gov, h: int, bs: seq<Block>, k: Hash)
    requires During(parse, g, h) && Whole(parse) && RunOk(parse, g, h, bs) && NeverProposed(bs, k)
    requires k !in g.props && k in g.frozen
    ensures History(parse, g, h, bs, k) == if g.frozen[k].applyAt < h + |bs| then [Applied(g.frozen[k].applyAt)] else []
    decreases |bs|
  {
    hide EventsOf;
    hide RunBlock;
    if bs != [] {
      assert bs[0] in bs;
      FrozenBlock(parse, g, h, bs[0], k);
      var g' := RunBlock(parse, g, h, bs[0]);
      if g.frozen[k].applyAt == h {
        GoneStaysGone(parse, g', h + 1, bs[1..], k);
      } else {
        FrozenIsAppliedOnce(parse, g', h + 1, bs[1..], k);
      }
    }
  }

  /** The two lives a proposal can have: removed, or frozen and then applied once. */
  ghost predicate Lives(p: Prop, until: int, hist: seq<Milestone>) {
    if until <= p.end + 1 then hist == []
    else
      || hist == [Removed(p.end + 1)]
      || hist == [Frozen(p.end + 1)] + (if ApplyHeight(p) < until then [Applied(ApplyHeight(p))] else [])
  }

  /** A block before the last voting block has passed. */
  lemma VotingBlock(parse: Parse, g: Gov, h: int, b: Block, k: Hash)
    requires During(parse, g, h) && Whole(parse) && BlockOk(parse, g, h, b) && NotProposed(b.txs, k)
    requires k in g.props && k !in g.frozen && h <= g.props[k].end
    ensures var r := RunBlock(parse, g, h, b);
      && k in r.props && SameSchedule(g.props[k], r.props[k]) && k !in r.frozen
      && EventsOf(BeforeEnd(parse, g, h, b), h, b.settled, k) == []
  {
    BeforeEndKeepsSchedule(parse, g, h, b, k);
    hide BeforeEnd;
    hide Settled;
    assert k !in b.settled;
  }

  /** How a proposal can leave the open ones at `h`. */
  ghost predicate Leaves(r: Gov, es: seq<Milestone>, h: int, applyAt: int, k: Hash) {
    && k !in r.props
    && (|| (k !in r.frozen && es == [Removed(h)])
        || (k !in r.frozen && es == [Frozen(h), Applied(h)] && applyAt <= h)
        || (k in r.frozen && es == [Frozen(h)] && r.frozen[k].applyAt == applyAt && applyAt > h))
  }

  lemma EndDecides(parse: Parse, m: Gov, h: int, settled: map<Hash, Prop>, k: Hash)
    requires During(parse, m, h) && Settlement(m, h, settled) && k in m.props && k !in m.frozen && h > m.props[k].end
    ensures h == m.props[k].end + 1
    ensures Leaves(Committed(Ended(parse, m, h, settled)), EventsOf(m, h, settled, k), h, m.props[k].applyAt, k)
  {
    assert k in settled && SameSchedule(m.props[k], settled[k]);
    hide Settled;
    hide Settlement;
    hide During;
    hide Ended;
    hide Committed;
    DuringOpen(parse, m, h, k);
    EndedBooks(parse, m, h, settled);
    assert settled[k].major.Some? <==> k in Winners(settled);
  }

  lemma EndedBooks(parse: Parse, m: Gov, h: int, settled: map<Hash, Prop>)
    requires During(parse, m, h) && Settlement(m, h, settled)
    ensures var r, f := Committed(Ended(parse, m, h, settled)), Freeze(m, settled);
      r.props == m.props - settled.Keys && r.frozen == f.frozen - DueKeys(f, h)
  {
    hide Settlement;
    hide ApplyAll;
  }

  /** The block in which it is decided. */
  lemma DecidingBlock(parse: Parse, g: Gov, h: int, b: Block, k: Hash)
    requires During(parse, g, h) && Whole(parse) && BlockOk(parse, g, h, b) && NotProposed(b.txs, k)
    requires k in g.props && k !in g.frozen && h > g.props[k].end
    ensures h == g.props[k].end + 1
    ensures Leaves(RunBlock(parse, g, h, b), EventsOf(BeforeEnd(parse, g, h, b), h, b.settled, k), h,
        g.props[k].applyAt, k)
  {
    BeforeEndKeepsSchedule(parse, g, h, b, k);
    hide BeforeEnd;
    hide During;
    hide Whole;
    hide Settlement;
    hide Ended;
    EndDecides(parse, BeforeEnd(parse, g, h, b), h, b.settled, k);
  }

  lemma DecidedLives(parse: Parse, g: Gov, h: int, bs: seq<Block>, k: Hash)
    requires During(parse, g, h) && Whole(parse) && RunOk(parse, g, h, bs) && NeverProposed(bs, k)
    requires bs != [] && k in g.props && k !in g.frozen && h > g.props[k].end
    ensures Lives(g.props[k], h + |bs|, History(parse, g, h, bs, k))
  {
    hide EventsOf;
    hide RunBlock;
    hide BeforeEnd;
    hide BlockOk;
    hide During;
    hide Whole;
    assert bs[0] in bs;
    var g' := RunBlock(parse, g, h, bs[0]);
    DecidingBlock(parse, g, h, bs[0], k);
    if k in g'.frozen {
      FrozenIsAppliedOnce(parse, g', h + 1, bs[1..], k);
    } else {
      GoneStaysGone(parse, g', h + 1, bs[1..], k);
    }
  }

  /** A proposal is decided exactly once, in the block after its last voting block, and a winner is
      applied exactly once, at the later of that block and its apply height. */
  lemma {:induction false} ProposalLifecycle(parse: Parse, g: Gov, h: int, bs: seq<Block>, k: Hash)
    requires During(parse, g, h) && Whole(parse) && RunOk(parse, g, h, bs) && NeverProposed(bs, k)
    requires k in g.props && k !in g.frozen
    ensures Lives(g.props[k], h + |bs|, History(parse, g, h, bs, k))
    decreases |bs|
  {
    hide EventsOf;
    hide RunBlock;
    hide BeforeEnd;
    hide BlockOk;
    hide During;
    hide Whole;
    DuringOpen(parse, g, h, k);
    if bs != [] {
      if h <= g.props[k].end {
        assert bs[0] in bs;
        VotingBlock(parse, g, h, bs[0], k);
        ProposalLifecycle(parse, RunBlock(parse, g, h, bs[0]), h + 1, bs[1..], k);
      } else {
        DecidedLives(parse, g, h, bs, k);
      }
    }
  }

  lemma DuringOpen(parse: Parse, g: Gov, h: int, k: Hash)
    requires During(parse, g, h) && k in g.props
    ensures h - 1 <= g.props[k].end
  {
  }

  /** A vote is counted only from the first to the last voting block. */
  lemma VotesOnlyInWindow(parse: Parse, g: Gov, h: int, vals: seq<Voter>, tx: Tx, k: Hash)
    requires During(parse, g, h) && k in g.props && NotProposed([tx], k)
    requires !(g.props[k].start <= h <= g.props[k].end)
    ensures k in Execute(parse, g, h, vals, tx).props && Execute(parse, g, h, vals, tx).props[k] == g.props[k]
  {
    assert tx in [tx];
  }

  // ----- the controller object

  method SlashIn(p: Prop, a: Address, rate: int) returns (q: Prop)
    requires Shape(p)
    ensures q == SlashedProp(p, a, rate)
  {
    q := p;
    var prop := new GovProposal.Decode(p.ballot, p.major);
    var j := prop.FindVoter(a);
    if j < |prop.voters| {
      var r := prop.DoSlash(a, rate);
      q := p.(ballot := prop.View());
    }
  }

  method Settle(p: Prop) returns (q: Prop)
    requires Shape(p)
    ensures Settled(p, q)
  {
    var prop := new GovProposal.Decode(p.ballot, p.major);
    var major := prop.UpdateMajorOption();
    SameLength(prop.options, p.ballot.options);
    q := p.(ballot := prop.View(), major := major);
  }

  lemma NoWinners() ensures Winners(map[]) == map[] {}

  lemma OneMoreWinner(settled: map<Hash, Prop>, k: Hash, q: Prop)
    requires k !in settled
    ensures Winners(settled[k := q]) == if q.major.Some? then Winners(settled)[k := q] else Winners(settled)
  {
  }

  /** The proposals that have ended, and those among them that have a winner. */
  method SettleEnded(props: map<Hash, Prop>, h: int)
    returns (ended: set<Hash>, newFrozens: map<Hash, Prop>, ghost settled: map<Hash, Prop>)
    requires forall k <- props :: Shape(props[k])
    ensures ended == settled.Keys == set k | k in props && props[k].end < h
    ensures forall k <- settled :: Settled(props[k], settled[k])
    ensures newFrozens == Winners(settled)
  {
    hide Shape;
    hide Settled;
    hide Winners;
    NoWinners();
    ended := set k | k in props && props[k].end < h;
    var rest := ended;
    newFrozens, settled := map[], map[];
    while rest != {}
      invariant rest <= ended && settled.Keys == ended - rest
      invariant forall k <- settled :: Settled(props[k], settled[k])
      invariant newFrozens == Winners(settled)
      decreases |rest|
    {
      var k :| k in rest;
      rest := rest - {k};
      var q := Settle(props[k]);
      OneMoreWinner(settled, k, q);
      settled := settled[k := q];
      if q.major.Some? { newFrozens := newFrozens[k := q]; }
    }
  }

  method ApplyInOrder(parse: Parse, g: Gov, keys: seq<Hash>) returns (pending: Option<Params>)
    requires |g.live| == FIELDS && forall k <- keys :: k in g.frozen && Applicable(parse, g.frozen[k])
    ensures pending == ApplyAll(parse, g, keys)
  {
    hide Merge;
    pending := g.pending;
    for i := 0 to |keys|
      invariant pending == ApplyAll(parse, g, keys[..i])
    {
      assert keys[i] in keys;
      assert keys[..i + 1][..i] == keys[..i];
      var p := g.frozen[keys[i]];
      if p.kind == PROPOSAL_GOVPARAMS { pending := Some(Merge(g.live, parse(p.major.value.body).value)); }
    }
    assert keys[..|keys|] == keys;
  }

  class GovCtrler {
    var props: map<Hash, Prop>
    var frozen: map<Hash, Prop>
    var storedParams: Params
    var govParams: Params
    var newGovParams: Option<Params>

    function View(): Gov
      reads this
    {
      Gov(props, frozen, storedParams, govParams, newGovParams)
    }

    /** InitLedger: the genesis parameters. */
    constructor (genesis: Params)
      requires |genesis| == FIELDS
      ensures View() == Gov(map[], map[], genesis, genesis, None)
      ensures forall parse: Parse, h: int :: During(parse, View(), h)
    {
      props, frozen, storedParams, govParams, newGovParams := map[], map[], genesis, genesis, None;
    }

    /** execProposing: a ballot whose voters are the present validators. */
    method ExecProposing(hash: Hash, vals: seq<Voter>, payload: Payload)
      requires Electorate(vals)
      modifies this`props
      ensures props == old(props)[hash := Opened(vals, payload)]
    {
      var total := 0;
      for i := 0 to |vals|
        invariant total + PowerSum(vals[i..]) == PowerSum(vals)
      {
        assert vals[i..][1..] == vals[i + 1..];
        total := total + vals[i].power;
      }
      var prop := new GovProposal(total);
      for i := 0 to |vals|
        invariant prop.voters == vals[..i] && prop.View() == New(vals[..i], [], total) && prop.majorOption == None
        invariant props == old(props) && fresh(prop)
      {
        assert vals[i] in vals;
        assert IndexOf(vals[..i], vals[i].addr) == i;
        prop.AddVoter(vals[i].addr, vals[i].power);
        assert vals[..i + 1] == vals[..i] + [vals[i]];
      }
      for i := 0 to |payload.bodies|
        invariant prop.View() == New(vals, payload.bodies[..i], total) && prop.majorOption == None
        invariant props == old(props) && fresh(prop)
      {
        prop.AddOption(payload.bodies[i]);
        assert New(vals, payload.bodies[..i + 1], total).options == New(vals, payload.bodies[..i],
            total).options + [Opt(payload.bodies[i], 0)];
      }
      assert payload.bodies[..|payload.bodies|] == payload.bodies;
      props := props[hash := Prop(payload.kind, payload.start, Add64(payload.start, payload.period),
          payload.applyAt, prop.View(), prop.majorOption)];
    }

    method ExecVoting(hash: Hash, a: Address, choice: int) returns (err: Option<BallotError>)
      requires hash in props && Shape(props[hash]) && NOT_CHOICE <= choice < |props[hash].ballot.options|
      modifies this`props
      ensures var r := Vote(old(props)[hash].ballot, a, choice);
        if r.Success? then err == None && props == old(props)[hash := old(props)[hash].(ballot := r.value)]
        else err == Some(r.error) && props == old(props)
    {
      var prop := new GovProposal.Decode(props[hash].ballot, props[hash].major);
      err := prop.DoVote(a, choice);
      if err == None { props := props[hash := props[hash].(ballot := prop.View())]; }
    }

    /** Validate, then execute. */
    method Deliver(parse: Parse, h: int, vals: seq<Voter>, tx: Tx)
      requires |govParams| == FIELDS && Electorate(vals) && forall k <- props :: Shape(props[k])
      modifies this`props
      ensures View() == Execute(parse, old(View()), h, vals, tx)
    {
      match tx
      case Propose(hash, from, toZero, payload) =>
        if toZero && IsVoterIn(vals, from) && hash !in props && ScheduleOk(govParams, h, payload)
           && (payload.kind == PROPOSAL_GOVPARAMS ==> forall b <- payload.bodies :: parse(b).Some?)
           && payload.bodies != [] {
          ExecProposing(hash, vals, payload);
        }
      case CastVote(hash, from, toZero, choice) =>
        if toZero && hash in props && IsVoterIn(props[hash].ballot.voters, from)
            && 0 <= choice < |props[hash].ballot.options|
           && props[hash].start <= h <= props[hash].end {
          assert Shape(props[hash]);
          var err := ExecVoting(hash, from, choice);
        }
    }

    /** doSlash: every open ballot in which the offender votes. The scan's order does not matter. */
    method DoSlash(a: Address)
      requires |govParams| == FIELDS && forall k <- props :: Shape(props[k])
      modifies this`props
      ensures View() == Punished(old(View()), a)
    {
      hide SlashedProp;
      hide Shape;
      ghost var was := props;
      var rest := props.Keys;
      while rest != {}
        invariant rest <= was.Keys == props.Keys
        invariant forall k <- was ::
          props[k] == if k in rest then was[k] else SlashedProp(was[k], a, govParams[SLASH_RATE])
        decreases |rest|
      {
        var k :| k in rest;
        rest := rest - {k};
        assert Shape(was[k]);
        var q := SlashIn(props[k], a, govParams[SLASH_RATE]);
        props := props[k := q];
      }
    }

    /** freezeProposals: settle every proposal whose last voting block has passed. */
    method FreezeProposals(h: int) returns (ghost settled: map<Hash, Prop>)
      requires forall k <- props :: Shape(props[k])
      modifies this`props, this`frozen
      ensures Settlement(old(View()), h, settled)
      ensures View() == Freeze(old(View()), settled)
    {
      var ended, newFrozens, all := SettleEnded(props, h);
      settled := all;
      frozen := frozen + newFrozens;
      props := props - ended;
    }

    /** applyProposals: replace the parameters by those of the last due proposal. */
    method ApplyProposals(parse: Parse, h: int)
      requires |govParams| == FIELDS && AllApplicable(parse, View(), h)
      modifies this`frozen, this`newGovParams, this`storedParams
      ensures View() == Apply(parse, old(View()), h)
    {
      var due := set k | k in frozen && frozen[k].applyAt <= h;
      var keys := Keys.SortedKeys(due);
      Keys.OrderedIsAscending(due);
      var pending := ApplyInOrder(parse, Gov(props, frozen, storedParams, govParams, newGovParams), keys);
      newGovParams := pending;
      if newGovParams.Some? { storedParams := newGovParams.value; }
      frozen := frozen - due;
    }

    method EndBlock(parse: Parse, h: int) returns (ghost settled: map<Hash, Prop>)
      requires During(parse, View(), h)
      modifies this
      ensures Settlement(old(View()), h, settled)
      ensures View() == Ended(parse, old(View()), h, settled)
      ensures govParams == old(govParams)
    {
      settled := FreezeProposals(h);
      FreezeKeeps(parse, old(View()), h, settled);
      ApplyProposals(parse, h);
    }

    method Commit()
      modifies this`govParams, this`newGovParams
      ensures View() == Committed(old(View()))
    {
      if newGovParams.Some? {
        govParams := newGovParams.value;
        newGovParams := None;
      }
    }
  }

  lemma SameLength(a: seq<Opt>, b: seq<Opt>)
    requires multiset(a) == multiset(b)
    ensures |a| == |b|
  {
    assert |multiset(a)| == |a| && |multiset(b)| == |b|;
  }
}
