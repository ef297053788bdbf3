/** node/trx_preparer.go: transactions are prepared in parallel by one worker per channel and
    collected in the order in which they were added. The model is a state machine whose steps are
    the source's shared-memory and channel operations, interleaved in every possible way. */
module Preparer {
  import opened Base

  const CHANNEL_CAPACITY: nat := 5000

  datatype Param<Req> = Param(idx: nat, req: Req)

  /** The delivering thread inside `Add`: the slot is appended, the wait counter is raised, and
      then the parameter is sent. Between calls it is idle. */
  datatype Deliverer<Req> = Idle | Slotted(p: Param<Req>) | Counted(p: Param<Req>)

  /** A worker between taking a parameter, storing the result, and lowering the wait counter. */
  datatype Worker<Req> = Free | Preparing(p: Param<Req>) | Stored(p: Param<Req>)

  /** Where the i-th added request is. */
  datatype Phase = AtSlot | AtCount | Queued | Working | Written | Finished

  datatype State<Req, Res> = State(
    deliverer: Deliverer<Req>,
    channels: seq<seq<Param<Req>>>,
    workers: seq<Worker<Req>>,
    results: seq<Option<Res>>,
    waitCount: int,
    reqs: seq<Req>,
    phases: seq<Phase>,
    writes: seq<nat>)

  datatype Event<Req> =
    | AppendSlot(req: Req) | RaiseCount | Send
    | Take(w: nat) | Store(w: nat) | LowerCount(w: nat)
    | Reset

  ghost predicate Enabled<Req, Res>(s: State<Req, Res>, e: Event<Req>)
    requires |s.channels| == |s.workers| > 0
  {
    match e
    case AppendSlot(_) => s.deliverer.Idle?
    case RaiseCount => s.deliverer.Slotted?
    case Send => s.deliverer.Counted? && |s.channels[s.deliverer.p.idx % |s.channels|]| < CHANNEL_CAPACITY
    case Take(w) => w < |s.workers| && s.workers[w].Free? && s.channels[w] != []
    case Store(w) => w < |s.workers| && s.workers[w].Preparing?
    case LowerCount(w) => w < |s.workers| && s.workers[w].Stored?
    case Reset => s.deliverer.Idle? && s.waitCount == 0
  }

  /** One step. `prepare` is the callback that builds the result of a request. */
  ghost function Step<Req, Res>(prepare: (Req, nat) -> Res, s: State<Req, Res>, e: Event<Req>): State<Req, Res>
    requires Ok(prepare, s) && Enabled(s, e)
  {
    match e
    case AppendSlot(req) =>
      s.(deliverer := Slotted(Param(|s.reqs|, req)), results := s.results + [None],
         reqs := s.reqs + [req], phases := s.phases + [AtSlot], writes := s.writes + [0])
    case RaiseCount =>
      var p := s.deliverer.p;
      s.(deliverer := Counted(p), waitCount := s.waitCount + 1, phases := s.phases[p.idx := AtCount])
    case Send =>
      var p := s.deliverer.p;
      var n := p.idx % |s.channels|;
      s.(deliverer := Idle, channels := s.channels[n := s.channels[n] + [p]], phases := s.phases[p.idx := Queued])
    case Take(w) =>
      assert ChannelOk(s, w);
      var p := s.channels[w][0];
      s.(channels := s.channels[w := s.channels[w][1..]], workers := s.workers[w := Preparing(p)],
         phases := s.phases[p.idx := Working])
    case Store(w) =>
      assert WorkerOk(s, w);
      var p := s.workers[w].p;
      s.(workers := s.workers[w := Stored(p)], results := s.results[p.idx := Some(prepare(p.req, p.idx))],
         phases := s.phases[p.idx := Written], writes := s.writes[p.idx := s.writes[p.idx] + 1])
    case LowerCount(w) =>
      assert WorkerOk(s, w);
      var p := s.workers[w].p;
      s.(workers := s.workers[w := Free], waitCount := s.waitCount - 1, phases := s.phases[p.idx := Finished])
    case Reset => s.(results := [], reqs := [], phases := [], writes := [])
  }

  // ----- the invariant

  ghost predicate IsParam<Req, Res>(s: State<Req, Res>, p: Param<Req>, ph: Phase) {
    p.idx < |s.reqs| && |s.phases| == |s.reqs| && s.reqs[p.idx] == p.req && s.phases[p.idx] == ph
  }

  ghost predicate ChannelOk<Req, Res>(s: State<Req, Res>, w: nat)
    requires w < |s.channels|
  {
    && (forall i :: 0 <= i < |s.channels[w]| ==>
          IsParam(s, s.channels[w][i], Queued) && s.channels[w][i].idx % |s.channels| == w)
    && (forall i, j :: 0 <= i < j < |s.channels[w]| ==> s.channels[w][i].idx < s.channels[w][j].idx)
  }

  ghost predicate WorkerOk<Req, Res>(s: State<Req, Res>, w: nat)
    requires w < |s.workers|
  {
    match s.workers[w]
    case Free => true
    case Preparing(p) => IsParam(s, p, Working) && p.idx % |s.workers| == w
    case Stored(p) => IsParam(s, p, Written) && p.idx % |s.workers| == w
  }

  ghost predicate DelivererOk<Req, Res>(s: State<Req, Res>) {
    match s.deliverer
    case Idle => true
    case Slotted(p) => IsParam(s, p, AtSlot) && p.idx == |s.reqs| - 1
    case Counted(p) => IsParam(s, p, AtCount) && p.idx == |s.reqs| - 1
  }

  /** The i-th request is where its phase says, and its slot is filled exactly once it is written. */
  ghost predicate RequestOk<Req, Res>(prepare: (Req, nat) -> Res, s: State<Req, Res>, i: nat)
    requires i < |s.reqs| == |s.phases| == |s.results| == |s.writes|
    requires |s.channels| == |s.workers| > 0
  {
    var n := i % |s.workers|;
    && (s.phases[i] == AtSlot ==> s.deliverer.Slotted? && s.deliverer.p.idx == i)
    && (s.phases[i] == AtCount ==> s.deliverer.Counted? && s.deliverer.p.idx == i)
    && (s.phases[i] == Queued ==> Param(i, s.reqs[i]) in s.channels[n])
    && (s.phases[i] == Working ==> s.workers[n].Preparing? && s.workers[n].p.idx == i)
    && (s.phases[i] == Written ==> s.workers[n].Stored? && s.workers[n].p.idx == i)
    && (if s.phases[i] == Written || s.phases[i] == Finished
        then s.results[i] == Some(prepare(s.reqs[i], i)) && s.writes[i] == 1
        else s.results[i] == None && s.writes[i] == 0)
  }

  predicate Counts(ph: Phase) { ph != AtSlot && ph != Finished }

  function Outstanding(phases: seq<Phase>): nat {
    if phases == [] then 0 else Outstanding(phases[..|phases| - 1]) + (if Counts(phases[|phases| - 1]) then 1 else 0)
  }

  ghost predicate Ok<Req, Res>(prepare: (Req, nat) -> Res, s: State<Req, Res>) {
    && |s.channels| == |s.workers| > 0
    && |s.reqs| == |s.phases| == |s.results| == |s.writes|
    && DelivererOk(s)
    && (forall w: nat :: w < |s.channels| ==> ChannelOk(s, w))
    && (forall w: nat :: w < |s.workers| ==> WorkerOk(s, w))
    && (forall i: nat :: i < |s.reqs| ==> RequestOk(prepare, s, i))
    && s.waitCount == Outstanding(s.phases)
  }

  lemma {:induction false} OutstandingUpdate(ps: seq<Phase>, i: nat, ph: Phase)
    requires i < |ps|
    ensures Outstanding(ps[i := ph])
          == Outstanding(ps) - (if Counts(ps[i]) then 1 else 0) + (if Counts(ph) then 1 else 0)
  {
    var n := |ps| - 1;
    var qs := ps[i := ph];
    if i < n {
      assert qs[..n] == ps[..n][i := ph];
      OutstandingUpdate(ps[..n], i, ph);
    } else {
      assert qs[..n] == ps[..n];
    }
  }

  lemma {:induction false} NothingOutstanding(ps: seq<Phase>, i: nat)
    requires Outstanding(ps) == 0 && i < |ps|
    ensures !Counts(ps[i])
  {
    if i < |ps| - 1 { NothingOutstanding(ps[..|ps| - 1], i); }
  }

  lemma {:induction false} SomethingOutstanding(ps: seq<Phase>) returns (i: nat)
    requires Outstanding(ps) > 0
    ensures i < |ps| && Counts(ps[i])
  {
    if Counts(ps[|ps| - 1]) { i := |ps| - 1; } else { i := SomethingOutstanding(ps[..|ps| - 1]); }
  }

  /** Only request `i` moves on. */
  ghost predicate Advances<Req, Res>(s: State<Req, Res>, t: State<Req, Res>, i: nat) {
    && |s.channels| == |s.workers| == |t.channels| == |t.workers| > 0
    && t.reqs == s.reqs && |s.phases| == |t.phases| == |s.reqs| && i < |s.reqs|
    && (forall j: nat :: j < |s.phases| && j != i ==> t.phases[j] == s.phases[j])
  }

  lemma {:induction false} ChannelsKept<Req, Res>(s: State<Req, Res>, t: State<Req, Res>, i: nat)
    requires Advances(s, t, i) && t.channels == s.channels && s.phases[i] != Queued
    requires forall w: nat :: w < |s.channels| ==> ChannelOk(s, w)
    ensures forall w: nat :: w < |t.channels| ==> ChannelOk(t, w)
  {
    forall w: nat | w < |t.channels| ensures ChannelOk(t, w) { assert ChannelOk(s, w); }
  }

  lemma {:induction false} WorkersKept<Req, Res>(s: State<Req, Res>, t: State<Req, Res>, i: nat, w: nat)
    requires Advances(s, t, i) && w == i % |s.workers|
    requires (forall v: nat :: v < |s.workers| && v != w ==> t.workers[v] == s.workers[v])
    requires forall v: nat :: v < |s.workers| ==> WorkerOk(s, v)
    ensures forall v: nat :: v < |t.workers| && v != w ==> WorkerOk(t, v)
  {
    forall v: nat | v < |t.workers| && v != w ensures WorkerOk(t, v) { assert WorkerOk(s, v); }
  }

  lemma {:induction false} RequestsKept<Req, Res>(prepare: (Req, nat) -> Res, s: State<Req, Res>, t: State<Req, Res>,
          i: nat, w: nat)
    requires Ok(prepare, s) && Advances(s, t, i) && w == i % |s.workers|
    requires t.deliverer == s.deliverer && t.channels == s.channels
    requires forall v: nat :: v < |s.workers| && v != w ==> t.workers[v] == s.workers[v]
    requires |s.results| == |t.results| && |s.writes| == |t.writes|
    requires forall j: nat :: j < |s.reqs| && j != i ==> t.results[j] == s.results[j] && t.writes[j] == s.writes[j]
    requires !s.workers[w].Free? && s.workers[w].p.idx == i
    ensures forall j: nat :: j < |t.reqs| && j != i ==> RequestOk(prepare, t, j)
  {
    forall j: nat | j < |t.reqs| && j != i ensures RequestOk(prepare, t, j) { assert RequestOk(prepare, s, j); }
  }

  lemma {:induction false} Assembled<Req, Res>(prepare: (Req, nat) -> Res, t: State<Req, Res>, i: nat, w: nat)
    requires |t.channels| == |t.workers| > 0 && |t.reqs| == |t.phases| == |t.results| == |t.writes|
    requires i < |t.reqs| && w < |t.workers| && DelivererOk(t) && t.waitCount == Outstanding(t.phases)
    requires forall v: nat :: v < |t.channels| ==> ChannelOk(t, v)
    requires WorkerOk(t, w) && forall v: nat :: v < |t.workers| && v != w ==> WorkerOk(t, v)
    requires RequestOk(prepare, t, i) && forall j: nat :: j < |t.reqs| && j != i ==> RequestOk(prepare, t, j)
    ensures Ok(prepare, t)
  {
  }

  // ----- each step keeps the invariant

  lemma {:induction false} AppendSlotOk<Req, Res>(prepare: (Req, nat) -> Res, s: State<Req, Res>, req: Req)
    requires Ok(prepare, s) && s.deliverer.Idle?
    ensures Ok(prepare, Step(prepare, s, AppendSlot(req)))
  {
    var s' := Step(prepare, s, AppendSlot(req));
    assert s'.phases[..|s.phases|] == s.phases;
    forall i: nat | i < |s'.reqs| ensures RequestOk(prepare, s', i) {
      if i < |s.reqs| { assert RequestOk(prepare, s, i); }
    }
    forall w: nat | w < |s.channels| ensures ChannelOk(s', w) { assert ChannelOk(s, w); }
    forall w: nat | w < |s.workers| ensures WorkerOk(s', w) { assert WorkerOk(s, w); }
  }

  lemma {:induction false} RaiseCountOk<Req, Res>(prepare: (Req, nat) -> Res, s: State<Req, Res>)
    requires Ok(prepare, s) && s.deliverer.Slotted?
    ensures Ok(prepare, Step(prepare, s, RaiseCount))
  {
    var s' := Step(prepare, s, RaiseCount);
    OutstandingUpdate(s.phases, s.deliverer.p.idx, AtCount);
    forall i: nat | i < |s'.reqs| ensures RequestOk(prepare, s', i) { assert RequestOk(prepare, s, i); }
    ChannelsKept(s, s', s.deliverer.p.idx);
    forall w: nat | w < |s.workers| ensures WorkerOk(s', w) { assert WorkerOk(s, w); }
  }

  lemma {:induction false} SendRequest<Req, Res>(prepare: (Req, nat) -> Res, s: State<Req, Res>, i: nat)
    requires Ok(prepare, s) && Enabled(s, Send) && i < |s.reqs|
    ensures RequestOk(prepare, Step(prepare, s, Send), i)
  {
    var n := i % |s.workers|;
    assert RequestOk(prepare, s, i);
    if i == s.deliverer.p.idx {
      assert Step(prepare, s, Send).channels[n][|s.channels[n]|] == Param(i, s.reqs[i]);
    } else if s.phases[i] == Queued {
      assert Param(i, s.reqs[i]) in s.channels[n];
    }
  }

  lemma {:induction false} SendChannel<Req, Res>(prepare: (Req, nat) -> Res, s: State<Req, Res>, w: nat)
    requires Ok(prepare, s) && Enabled(s, Send) && w < |s.channels|
    ensures ChannelOk(Step(prepare, s, Send), w)
  {
    assert ChannelOk(s, w);
    forall i | 0 <= i < |s.channels[w]| ensures s.channels[w][i].idx < s.deliverer.p.idx {
      assert IsParam(s, s.channels[w][i], Queued);
    }
  }

  lemma {:induction false} SendOk<Req, Res>(prepare: (Req, nat) -> Res, s: State<Req, Res>)
    requires Ok(prepare, s) && Enabled(s, Send)
    ensures Ok(prepare, Step(prepare, s, Send))
  {
    var s' := Step(prepare, s, Send);
    var p := s.deliverer.p;
    OutstandingUpdate(s.phases, p.idx, Queued);
    forall i: nat | i < |s'.reqs| ensures RequestOk(prepare, s', i) { SendRequest(prepare, s, i); }
    forall w: nat | w < |s'.channels| ensures ChannelOk(s', w) { SendChannel(prepare, s, w); }
    WorkersKept(s, s', p.idx, p.idx % |s.workers|);
    assert WorkerOk(s, p.idx % |s.workers|);
    Assembled(prepare, s', p.idx, p.idx % |s.workers|);
  }

  lemma {:induction false} TakeRequest<Req, Res>(prepare: (Req, nat) -> Res, s: State<Req, Res>, w: nat, i: nat)
    requires Ok(prepare, s) && Enabled(s, Take(w)) && i < |s.reqs|
    requires ChannelOk(s, w)
    ensures RequestOk(prepare, Step(prepare, s, Take(w)), i)
  {
    assert RequestOk(prepare, s, i);
    if i != s.channels[w][0].idx && s.phases[i] == Queued && i % |s.workers| == w {
      var k :| 0 <= k < |s.channels[w]| && s.channels[w][k] == Param(i, s.reqs[i]);
      assert Step(prepare, s, Take(w)).channels[w][k - 1] == Param(i, s.reqs[i]);
    }
  }

  lemma {:induction false} TakeChannel<Req, Res>(prepare: (Req, nat) -> Res, s: State<Req, Res>, w: nat, v: nat)
    requires Ok(prepare, s) && Enabled(s, Take(w)) && v < |s.channels|
    ensures ChannelOk(Step(prepare, s, Take(w)), v)
  {
    assert ChannelOk(s, w) && ChannelOk(s, v);
    var s' := Step(prepare, s, Take(w));
    forall k | 0 <= k < |s'.channels[v]|
      ensures IsParam(s', s'.channels[v][k], Queued) && s'.channels[v][k].idx % |s.channels| == v
    {
      var q := s'.channels[v][k];
      assert q == if v == w then s.channels[v][k + 1] else s.channels[v][k];
      assert q.idx != s.channels[w][0].idx;
    }
  }

  lemma {:induction false} TakeOk<Req, Res>(prepare: (Req, nat) -> Res, s: State<Req, Res>, w: nat)
    requires Ok(prepare, s) && Enabled(s, Take(w))
    ensures Ok(prepare, Step(prepare, s, Take(w)))
  {
    var s' := Step(prepare, s, Take(w));
    assert ChannelOk(s, w);
    var p := s.channels[w][0];
    assert IsParam(s, p, Queued);
    OutstandingUpdate(s.phases, p.idx, Working);
    forall i: nat | i < |s'.reqs| ensures RequestOk(prepare, s', i) { TakeRequest(prepare, s, w, i); }
    forall v: nat | v < |s'.channels| ensures ChannelOk(s', v) { TakeChannel(prepare, s, w, v); }
    WorkersKept(s, s', p.idx, w);
    Assembled(prepare, s', p.idx, w);
  }

  lemma {:induction false} StoreOk<Req, Res>(prepare: (Req, nat) -> Res, s: State<Req, Res>, w: nat)
    requires Ok(prepare, s) && Enabled(s, Store(w))
    ensures Ok(prepare, Step(prepare, s, Store(w)))
  {
    assert WorkerOk(s, w);
    var s' := Step(prepare, s, Store(w));
    var p := s.workers[w].p;
    OutstandingUpdate(s.phases, p.idx, Written);
    ChannelsKept(s, s', p.idx);
    WorkersKept(s, s', p.idx, w);
    RequestsKept(prepare, s, s', p.idx, w);
    assert RequestOk(prepare, s, p.idx);
    assert RequestOk(prepare, s', p.idx) && WorkerOk(s', w);
    Assembled(prepare, s', p.idx, w);
  }

  lemma {:induction false} LowerCountOk<Req, Res>(prepare: (Req, nat) -> Res, s: State<Req, Res>, w: nat)
    requires Ok(prepare, s) && Enabled(s, LowerCount(w))
    ensures Ok(prepare, Step(prepare, s, LowerCount(w)))
  {
    assert WorkerOk(s, w);
    var s' := Step(prepare, s, LowerCount(w));
    var p := s.workers[w].p;
    OutstandingUpdate(s.phases, p.idx, Finished);
    ChannelsKept(s, s', p.idx);
    WorkersKept(s, s', p.idx, w);
    RequestsKept(prepare, s, s', p.idx, w);
    assert RequestOk(prepare, s, p.idx);
    assert RequestOk(prepare, s', p.idx) && WorkerOk(s', w);
    Assembled(prepare, s', p.idx, w);
  }

  lemma {:induction false} AllFinished<Req, Res>(prepare: (Req, nat) -> Res, s: State<Req, Res>, i: nat)
    requires Ok(prepare, s) && s.deliverer.Idle? && s.waitCount == 0 && i < |s.reqs|
    ensures s.phases[i] == Finished && s.results[i] == Some(prepare(s.reqs[i], i)) && s.writes[i] == 1
  {
    NothingOutstanding(s.phases, i);
    assert RequestOk(prepare, s, i);
  }

  lemma {:induction false} ResetOk<Req, Res>(prepare: (Req, nat) -> Res, s: State<Req, Res>)
    requires Ok(prepare, s) && Enabled(s, Reset)
    ensures Ok(prepare, Step(prepare, s, Reset))
  {
    forall w: nat | w < |s.channels| ensures s.channels[w] == [] && s.workers[w].Free? {
      assert ChannelOk(s, w) && WorkerOk(s, w);
      if s.channels[w] != [] {
        var p := s.channels[w][0];
        assert IsParam(s, p, Queued);
        AllFinished(prepare, s, p.idx);
      }
      if !s.workers[w].Free? { AllFinished(prepare, s, s.workers[w].p.idx); }
    }
  }

  lemma {:induction false} StepOk<Req, Res>(prepare: (Req, nat) -> Res, s: State<Req, Res>, e: Event<Req>)
    requires Ok(prepare, s) && Enabled(s, e)
    ensures Ok(prepare, Step(prepare, s, e))
  {
    match e
    case AppendSlot(req) => AppendSlotOk(prepare, s, req);
    case RaiseCount => RaiseCountOk(prepare, s);
    case Send => SendOk(prepare, s);
    case Take(w) => TakeOk(prepare, s, w);
    case Store(w) => StoreOk(prepare, s, w);
    case LowerCount(w) => LowerCountOk(prepare, s, w);
    case Reset => ResetOk(prepare, s);
  }

  // ----- runs

  function Start<Req, Res>(workers: nat): State<Req, Res> {
    State(Idle, seq(workers, _ => []), seq(workers, _ => Free), [], 0, [], [], [])
  }

  /** `t` is reached from `s` by some interleaving of steps. */
  ghost predicate Reaches<Req, Res>(prepare: (Req, nat) -> Res, s: State<Req, Res>, es: seq<Event<Req>>,
          t: State<Req, Res>)
    requires Ok(prepare, s)
    decreases |es|
  {
    if es == [] then s == t
    else Enabled(s, es[0]) && (StepOk(prepare, s, es[0]); Reaches(prepare, Step(prepare, s, es[0]), es[1..], t))
  }

  lemma {:induction false} ReachedIsOk<Req, Res>(prepare: (Req, nat) -> Res, s: State<Req, Res>, es: seq<Event<Req>>,
          t: State<Req, Res>)
    requires Ok(prepare, s) && Reaches(prepare, s, es, t)
    ensures Ok(prepare, t)
    decreases |es|
  {
    if es != [] {
      StepOk(prepare, s, es[0]);
      ReachedIsOk(prepare, Step(prepare, s, es[0]), es[1..], t);
    }
  }

  lemma {:induction false} StartIsOk<Req, Res>(prepare: (Req, nat) -> Res, workers: nat)
    requires workers > 0
    ensures Ok(prepare, Start<Req, Res>(workers))
  {
  }

  /** `t` is reached by a fresh preparer with this many workers. */
  ghost predicate Reachable<Req, Res>(prepare: (Req, nat) -> Res, workers: nat, es: seq<Event<Req>>, t: State<Req, Res>)
    requires workers > 0
  {
    StartIsOk<Req, Res>(prepare, workers);
    Reaches(prepare, Start(workers), es, t)
  }

  /** In every interleaving, once the wait counter is zero between two `Add` calls, slot i holds
      the result of the i-th added request and has been written exactly once. */
  lemma WaitSeesEverySlot<Req, Res>(prepare: (Req, nat) -> Res, workers: nat, es: seq<Event<Req>>, t: State<Req, Res>)
    requires workers > 0 && Reachable(prepare, workers, es, t)
    requires t.deliverer.Idle? && t.waitCount == 0
    ensures |t.results| == |t.writes| == |t.reqs|
    ensures forall i: nat :: i < |t.reqs| ==> t.results[i] == Some(prepare(t.reqs[i], i)) && t.writes[i] == 1
  {
    StartIsOk<Req, Res>(prepare, workers);
    ReachedIsOk(prepare, Start(workers), es, t);
    forall i: nat | i < |t.reqs| ensures t.results[i] == Some(prepare(t.reqs[i], i)) && t.writes[i] == 1 {
      AllFinished(prepare, t, i);
    }
  }

  /** Until then some step other than a new `Add` is enabled: nothing deadlocks, even when a
      channel is full. */
  lemma SomeStepIsEnabled<Req, Res>(prepare: (Req, nat) -> Res, s: State<Req, Res>) returns (e: Event<Req>)
    requires Ok(prepare, s) && (s.waitCount > 0 || !s.deliverer.Idle?)
    ensures Enabled(s, e) && !e.AppendSlot? && !e.Reset?
  {
    if s.deliverer.Slotted? {
      e := RaiseCount;
    } else if Enabled(s, Send) {
      e := Send;
    } else {
      var w: nat;
      if s.deliverer.Counted? {
        w := s.deliverer.p.idx % |s.channels|;
      } else {
        var i := SomethingOutstanding(s.phases);
        assert RequestOk(prepare, s, i);
        w := i % |s.workers|;
      }
      e := match s.workers[w] case Free => Take(w) case Preparing(_) => Store(w) case Stored(_) => LowerCount(w);
    }
  }
}
