/** types/crypto/sfile_pv.go: the validator key that refuses to sign twice, across crashes.
    Sign bytes are the canonical form of a message with its chain id; the encoding is invertible.
    `sign` is the private key's (deterministic) signing function. */
module SignGuard {
  import opened Base

  type Sig = Bytes

  datatype HRS = HRS(height: int, round: int, step: int)

  predicate Less(a: HRS, b: HRS) {
    || a.height < b.height
    || (a.height == b.height && a.round < b.round)
    || (a.height == b.height && a.round == b.round && a.step < b.step)
  }

  datatype VoteType = Prevote | Precommit

  datatype Message =
    | Vote(kind: VoteType, height: int, round: int, block: Bytes, timestamp: int)
    | Proposal(height: int, round: int, polRound: int, block: Bytes, timestamp: int)

  datatype SignBytes = SignBytes(chain: string, msg: Message)

  function HrsOf(m: Message): HRS {
    HRS(m.height, m.round, if m.Proposal? then 1 else if m.kind.Prevote? then 2 else 3)
  }

  datatype LastSignState = LastSignState(hrs: HRS, signature: Option<Sig>, signBytes: Option<SignBytes>)

  const FRESH := LastSignState(HRS(0, 0, 0), None, None)

  datatype HrsCheck = Regression | NoSignBytes | NoSignature | SameHrs | Advance

  /** CheckHRS. `NoSignature` is the case in which the source panics. */
  function CheckHRS(l: LastSignState, h: HRS): HrsCheck {
    if l.hrs.height > h.height then Regression
    else if l.hrs.height < h.height then Advance
    else if l.hrs.round > h.round then Regression
    else if l.hrs.round < h.round then Advance
    else if l.hrs.step > h.step then Regression
    else if l.hrs.step < h.step then Advance
    else if l.signBytes.None? then NoSignBytes
    else if l.signature.None? then NoSignature
    else SameHrs
  }

  lemma CheckDecidesOrder(l: LastSignState, h: HRS)
    ensures CheckHRS(l, h).Advance? <==> Less(l.hrs, h)
    ensures CheckHRS(l, h).Regression? <==> Less(h, l.hrs)
    ensures CheckHRS(l, h).SameHrs? ==> l.hrs == h && l.signBytes.Some? && l.signature.Some?
  {
  }

  predicate OnlyDifferByTimestamp(a: SignBytes, b: SignBytes) {
    a.chain == b.chain && a.msg.(timestamp := 0) == b.msg.(timestamp := 0)
  }

  datatype SignError = HrsRegression | MissingSignBytes | ConflictingData

  /** What asking for a signature yields: an answer at once, a refusal, or fresh work to sign. */
  datatype Answer =
    | Reuse(msg: Message, sig: Sig)
    | Refuse(error: SignError)
    | SignFresh(sb: SignBytes)
    | Panic

  function Ask(l: LastSignState, chain: string, m: Message): Answer {
    match CheckHRS(l, HrsOf(m))
    case Regression => Refuse(HrsRegression)
    case NoSignBytes => Refuse(MissingSignBytes)
    case NoSignature => Panic
    case Advance => SignFresh(SignBytes(chain, m))
    case SameHrs =>
      var last := l.signBytes.value;
      if SignBytes(chain, m) == last then Reuse(m, l.signature.value)
      else if last.msg.Proposal? != m.Proposal? then Panic
      else if OnlyDifferByTimestamp(last, SignBytes(chain, m)) then Reuse(m.(timestamp := last.msg.timestamp),
          l.signature.value)
      else Refuse(ConflictingData)
  }

  function SavedAs(sign: SignBytes -> Sig, sb: SignBytes): LastSignState {
    LastSignState(HrsOf(sb.msg), Some(sign(sb)), Some(sb))
  }

  /** A stored state is either untouched or records a signed message at its own HRS. */
  ghost predicate Genuine(sign: SignBytes -> Sig, l: LastSignState) {
    l == FRESH || (l.signBytes.Some? && l == SavedAs(sign, l.signBytes.value))
  }

  /** From a genuine state the guard never panics, and whatever it hands back without signing is
      the stored signature over exactly the message it returns. */
  lemma ReuseMatchesSignature(sign: SignBytes -> Sig, l: LastSignState, chain: string, m: Message)
    requires Genuine(sign, l)
    ensures var a := Ask(l, chain, m);
            && !a.Panic?
            && (a.Reuse? ==>
                  && l.signBytes == Some(SignBytes(chain, a.msg)) && a.sig == sign(SignBytes(chain, a.msg))
                  && HrsOf(a.msg) == HrsOf(m) == l.hrs && a.msg.(timestamp := m.timestamp) == m)
            && (a.SignFresh? <==> Less(l.hrs, HrsOf(m)))
  {
  }

  // ----- runs with crashes

  /** Memory, disk, and what the outside world has seen. A request in flight has been signed but
      not yet written (`Signed`), or written to memory but not yet to disk (`InMemory`), or
      written to disk but not yet handed out (`OnDisk`). */
  datatype Stage = Idle | Signed(sb: SignBytes) | InMemory(sb: SignBytes) | OnDisk(sb: SignBytes)

  datatype Release = Release(hrs: HRS, sb: SignBytes, sig: Sig)

  datatype PV = PV(mem: LastSignState, disk: LastSignState, stage: Stage, saved: seq<SignBytes>, released: set<Release>)

  datatype Event = Request(chain: string, msg: Message) | SetMemory | WriteDisk | HandOut | Crash

  ghost function Step(sign: SignBytes -> Sig, s: PV, e: Event): PV {
    match e
    case Request(chain, m) =>
      if s.stage != Idle then s
      else
        (match Ask(s.mem, chain, m)
         case Reuse(m', sig) => s.(released := s.released + {Release(HrsOf(m), SignBytes(chain, m'), sig)})
         case SignFresh(sb) => s.(stage := Signed(sb))
         case _ => s)
    case SetMemory => if s.stage.Signed? then s.(mem := SavedAs(sign, s.stage.sb), stage := InMemory(s.stage.sb)) else s
    case WriteDisk => if s.stage.InMemory? then s.(disk := s.mem, stage := OnDisk(s.stage.sb),
        saved := s.saved + [s.stage.sb]) else s
    case HandOut =>
      if s.stage.OnDisk?
      then s.(stage := Idle, released := s.released + {Release(HrsOf(s.stage.sb.msg), s.stage.sb, sign(s.stage.sb))})
      else s
    case Crash => s.(mem := s.disk, stage := Idle)
  }

  ghost function RunEvents(sign: SignBytes -> Sig, s: PV, es: seq<Event>): PV
    decreases |es|
  {
    if es == [] then s else RunEvents(sign, Step(sign, s, es[0]), es[1..])
  }

  function LastSaved(s: PV): HRS { if s.saved == [] then FRESH.hrs else HrsOf(s.saved[|s.saved| - 1].msg) }

  ghost predicate Safe(sign: SignBytes -> Sig, s: PV) {
    && (s.disk == if s.saved == [] then FRESH else SavedAs(sign, s.saved[|s.saved| - 1]))
    && (s.stage.Idle? || s.stage.Signed? || s.stage.OnDisk? ==> s.mem == s.disk)
    && (s.stage.Signed? ==> Less(LastSaved(s), HrsOf(s.stage.sb.msg)))
    && (s.stage.InMemory? ==> Less(LastSaved(s), HrsOf(s.stage.sb.msg)) && s.mem == SavedAs(sign, s.stage.sb))
    && (s.stage.OnDisk? ==> s.saved != [] && s.saved[|s.saved| - 1] == s.stage.sb)
    && StrictlyIncreasing(s.saved)
    && (forall r <- s.released :: r.sb in s.saved && r.hrs == HrsOf(r.sb.msg) && r.sig == sign(r.sb))
  }

  /** Each saved message is at a later (height, round, step) than all saved before it. */
  ghost predicate StrictlyIncreasing(saved: seq<SignBytes>) {
    forall i, j :: 0 <= i < j < |saved| ==> Less(HrsOf(saved[i].msg), HrsOf(saved[j].msg))
  }

  lemma {:induction false} AppendIncreases(saved: seq<SignBytes>, sb: SignBytes)
    requires StrictlyIncreasing(saved)
    requires saved != [] ==> Less(HrsOf(saved[|saved| - 1].msg), HrsOf(sb.msg))
    ensures StrictlyIncreasing(saved + [sb])
  {
    var t := saved + [sb];
    forall i, j | 0 <= i < j < |t| ensures Less(HrsOf(t[i].msg), HrsOf(t[j].msg)) {
      if j == |saved| && i < |saved| - 1 {
        assert Less(HrsOf(saved[i].msg), HrsOf(saved[|saved| - 1].msg));
      }
    }
  }

  lemma {:induction false} StepIsSafe(sign: SignBytes -> Sig, s: PV, e: Event)
    requires Safe(sign, s)
    ensures Safe(sign, Step(sign, s, e))
  {
    hide StrictlyIncreasing;
    match e
    case Request(chain, m) =>
      if s.stage.Idle? {
        ReuseMatchesSignature(sign, s.mem, chain, m);
      }
    case WriteDisk =>
      if s.stage.InMemory? {
        AppendIncreases(s.saved, s.stage.sb);
        assert forall x <- s.saved :: x in s.saved + [s.stage.sb];
      }
    case _ =>
  }

  lemma {:induction false} RunIsSafe(sign: SignBytes -> Sig, s: PV, es: seq<Event>)
    requires Safe(sign, s)
    ensures Safe(sign, RunEvents(sign, s, es))
    decreases |es|
  {
    if es != [] {
      StepIsSafe(sign, s, es[0]);
      RunIsSafe(sign, Step(sign, s, es[0]), es[1..]);
    }
  }

  const NEW_PV := PV(FRESH, FRESH, Idle, [], {})

  /** Over every run, with a crash possible between any two steps: the (height, round, step)
      triples that reach the disk strictly increase, and all signatures ever released at one
      triple are over one and the same sign-bytes value. */
  lemma NeverDoubleSigns(sign: SignBytes -> Sig, es: seq<Event>, a: Release, b: Release)
    ensures var s := RunEvents(sign, NEW_PV, es);
            && StrictlyIncreasing(s.saved)
            && (a in s.released ==> a.sig == sign(a.sb) && HrsOf(a.sb.msg) == a.hrs)
            && (a in s.released && b in s.released && a.hrs == b.hrs ==> a == b)
  {
    RunIsSafe(sign, NEW_PV, es);
    var s := RunEvents(sign, NEW_PV, es);
    if a in s.released && b in s.released && a.hrs == b.hrs {
      var i :| 0 <= i < |s.saved| && s.saved[i] == a.sb;
      var j :| 0 <= j < |s.saved| && s.saved[j] == b.sb;
      assert i < j ==> Less(HrsOf(s.saved[i].msg), HrsOf(s.saved[j].msg));
      assert j < i ==> Less(HrsOf(s.saved[j].msg), HrsOf(s.saved[i].msg));
    }
  }

  // ----- the object

  class SFilePV {
    const sign: SignBytes -> Sig
    var lastSignState: LastSignState
    var file: LastSignState

    ghost predicate Valid()
      reads this
    {
      Genuine(sign, lastSignState) && file == lastSignState
    }

    constructor (key: SignBytes -> Sig)
      ensures Valid() && lastSignState == FRESH && sign == key
    {
      sign, lastSignState, file := key, FRESH, FRESH;
    }

    /** signVote and signProposal: the state is on disk before the signature is handed back. The
        signature returned is over the message returned, and a second answer at one triple repeats
        the first. */
    method SignMessage(chain: string, m: Message) returns (r: Result<(Message, Sig), SignError>)
      requires Valid()
      modifies this
      ensures Valid()
      ensures r.Success? ==>
                && r.value.1 == sign(SignBytes(chain, r.value.0))
                && r.value.0.(timestamp := m.timestamp) == m
                && file == SavedAs(sign, SignBytes(chain, r.value.0))
      ensures Less(old(lastSignState).hrs, HrsOf(m)) ==> r == Success((m, sign(SignBytes(chain, m))))
      ensures !Less(old(lastSignState).hrs, HrsOf(m)) ==> file == old(file)
      ensures Less(HrsOf(m), old(lastSignState).hrs) ==> r == Failure(HrsRegression)
    {
      var lss := lastSignState;
      CheckDecidesOrder(lss, HrsOf(m));
      var check := CheckHRS(lss, HrsOf(m));
      if check.Regression? { return Failure(HrsRegression); }
      if check.NoSignBytes? { return Failure(MissingSignBytes); }
      var signBytes := SignBytes(chain, m);
      if check.SameHrs? {
        var last := lss.signBytes.value;
        if signBytes == last {
          return Success((m, lss.signature.value));
        } else if OnlyDifferByTimestamp(last, signBytes) {
          return Success((m.(timestamp := last.msg.timestamp), lss.signature.value));
        } else {
          return Failure(ConflictingData);
        }
      }
      var sig := sign(signBytes);
      SaveSigned(HrsOf(m), signBytes, sig);
      return Success((m, sig));
    }

    method SaveSigned(hrs: HRS, signBytes: SignBytes, sig: Sig)
      modifies this
      ensures lastSignState == LastSignState(hrs, Some(sig), Some(signBytes)) && file == lastSignState
    {
      lastSignState := LastSignState(hrs, Some(sig), Some(signBytes));
      file := lastSignState;
    }
  }
}
