/** ctrlers/vm/evm/statedb.go: the wrapper that lends ledger accounts to the EVM. An account is
    loaded into the EVM's journaled state the first time it is touched, the wrapper remembers it
    with a snapshot tag, and `Finish` writes every remembered account back to the ledger. */
module EvmTracking {
  import opened Base
  import opened UndoLog
  import opened Sums
  import Keys

  /** A journal entry of the EVM state; `load` marks the entry made when an account is loaded. */
  datatype Entry = Entry(rev: Revision<Address, nat>, load: bool)

  datatype Mark = Mark(id: int, len: nat)

  datatype Evm = Evm(
    balances: map<Address, nat>,
    journal: seq<Entry>,
    marks: seq<Mark>,
    nextId: int,
    tracked: map<Address, int>,
    snapshot: int)

  datatype Event =
    | Touch(addr: Address)
    | Transfer(from: Address, to: Address, amount: nat)
    | Snapshot
    | Revert(mark: nat)

  function BalanceOf(m: map<Address, nat>, a: Address): nat { if a in m then m[a] else 0 }

  function Journaled(s: Evm, a: Address, v: nat, load: bool): Evm {
    s.(balances := s.balances[a := v], journal := s.journal + [Entry(Revision(a, Lookup(s.balances, a)), load)])
  }

  function TouchAt(s: Evm, ledger: map<Address, nat>, a: Address): Evm {
    if a in s.tracked then s
    else Journaled(s, a, BalanceOf(ledger, a), true).(tracked := s.tracked[a := s.snapshot + 1])
  }

  function Move(s: Evm, from: Address, to: Address, amount: nat): Evm
    requires amount <= BalanceOf(s.balances, from)
  {
    var t := Journaled(s, from, BalanceOf(s.balances, from) - amount, false);
    Journaled(t, to, BalanceOf(t.balances, to) + amount, false)
  }

  function TakeSnapshot(s: Evm): Evm {
    s.(marks := s.marks + [Mark(s.nextId, |s.journal|)], nextId := s.nextId + 1, snapshot := s.nextId)
  }

  function Revs(j: seq<Entry>): seq<Revision<Address, nat>> { seq(|j|, i requires 0 <= i < |j| => j[i].rev) }

  function Kept(tracked: map<Address, int>, id: int): map<Address, int> {
    map a | a in tracked && tracked[a] <= id :: tracked[a]
  }

  predicate MarksOk(s: Evm) {
    && (forall i :: 0 <= i < |s.marks| ==> s.marks[i].len <= |s.journal| && s.marks[i].id <= s.snapshot)
    && (forall i, j :: 0 <= i < j < |s.marks| ==> s.marks[i].len <= s.marks[j].len && s.marks[i].id < s.marks[j].id)
    && s.snapshot < s.nextId
    && (forall a <- s.tracked :: s.tracked[a] <= s.nextId)
  }

  /** Everything that reverting to mark `k` restores. */
  function Reverted(s: Evm, k: nat): Evm
    requires k < |s.marks| && s.marks[k].len <= |s.journal|
  {
    var n := s.marks[k].len;
    s.(balances := Undo(s.balances, Revs(s.journal[n..])), journal := s.journal[..n],
       marks := s.marks[..k], tracked := Kept(s.tracked, s.marks[k].id))
  }

  /** The EVM moves value only between accounts that it has made warm, and reverts only to live
      snapshots. */
  predicate Enabled(s: Evm, e: Event) {
    match e
    case Touch(_) => true
    case Transfer(from, to, amount) => from in s.tracked && to in s.tracked && amount <= BalanceOf(s.balances, from)
    case Snapshot => true
    case Revert(k) => k < |s.marks|
  }

  function Step(s: Evm, ledger: map<Address, nat>, e: Event): Evm
    requires MarksOk(s) && Enabled(s, e)
  {
    match e
    case Touch(a) => TouchAt(s, ledger, a)
    case Transfer(from, to, amount) => Move(s, from, to, amount)
    case Snapshot => TakeSnapshot(s)
    case Revert(k) => Reverted(s, k)
  }

  lemma StepKeepsMarks(s: Evm, ledger: map<Address, nat>, e: Event)
    requires MarksOk(s) && Enabled(s, e)
    ensures MarksOk(Step(s, ledger, e))
  {
  }

  // ----- tracked accounts are the loaded ones

  ghost predicate LoadedAt(j: seq<Entry>, a: Address, i: int) { 0 <= i < |j| && j[i].load && j[i].rev.key == a }

  /** Reference: the accounts whose loading is still in the journal. */
  ghost predicate Loaded(j: seq<Entry>, a: Address) { exists i :: LoadedAt(j, a, i) }

  /** The tag separates the snapshots taken before the load from those taken after it. */
  ghost predicate TagOk(s: Evm, a: Address, i: nat)
    requires a in s.tracked
  {
    forall k :: 0 <= k < |s.marks| ==> (s.marks[k].id < s.tracked[a] <==> s.marks[k].len <= i)
  }

  ghost predicate LoadsOk(s: Evm) {
    && (forall a <- s.tracked :: Loaded(s.journal, a))
    && (forall a: Address, i: nat :: LoadedAt(s.journal, a, i) ==> a in s.tracked && TagOk(s, a, i))
  }

  lemma {:induction false} AppendKeepsLoaded(j: seq<Entry>, e: Entry, a: Address)
    requires Loaded(j, a)
    ensures Loaded(j + [e], a)
  {
    var i :| LoadedAt(j, a, i);
    assert LoadedAt(j + [e], a, i);
  }

  lemma {:induction false} JournaledKeepsLoads(s: Evm, a: Address, v: nat)
    requires LoadsOk(s)
    ensures LoadsOk(Journaled(s, a, v, false))
  {
    var t := Journaled(s, a, v, false);
    forall b <- t.tracked ensures Loaded(t.journal, b) { AppendKeepsLoaded(s.journal, t.journal[|s.journal|], b); }
    forall b: Address, i: nat | LoadedAt(t.journal, b, i) ensures b in t.tracked && TagOk(t, b, i) {
      assert LoadedAt(s.journal, b, i);
    }
  }

  lemma {:induction false} TouchKeepsLoads(s: Evm, ledger: map<Address, nat>, a: Address)
    requires MarksOk(s) && LoadsOk(s)
    ensures LoadsOk(TouchAt(s, ledger, a))
  {
    if a !in s.tracked {
      var t := TouchAt(s, ledger, a);
      assert LoadedAt(t.journal, a, |s.journal|);
      forall b <- t.tracked ensures Loaded(t.journal, b) {
        if b != a { AppendKeepsLoaded(s.journal, t.journal[|s.journal|], b); }
      }
      forall b: Address, i: nat | LoadedAt(t.journal, b, i) ensures b in t.tracked && TagOk(t, b, i) {
        if i < |s.journal| { assert LoadedAt(s.journal, b, i); }
      }
    }
  }

  lemma {:induction false} SnapshotKeepsLoads(s: Evm)
    requires MarksOk(s) && LoadsOk(s)
    ensures LoadsOk(TakeSnapshot(s))
  {
    var t := TakeSnapshot(s);
    forall b: Address, i: nat | LoadedAt(t.journal, b, i) ensures b in t.tracked && TagOk(t, b, i) {
      assert LoadedAt(s.journal, b, i);
      assert TagOk(s, b, i);
    }
  }

  lemma {:induction false} RevertKeepsLoads(s: Evm, k: nat)
    requires MarksOk(s) && LoadsOk(s) && k < |s.marks|
    ensures LoadsOk(Reverted(s, k))
  {
    var t := Reverted(s, k);
    forall b <- t.tracked ensures Loaded(t.journal, b) {
      assert Loaded(s.journal, b);
      var i :| LoadedAt(s.journal, b, i);
      assert TagOk(s, b, i);
      assert LoadedAt(t.journal, b, i);
    }
    forall b: Address, i: nat | LoadedAt(t.journal, b, i) ensures b in t.tracked && TagOk(t, b, i) {
      assert LoadedAt(s.journal, b, i);
      assert TagOk(s, b, i);
    }
  }

  lemma {:induction false} MoveKeepsLoads(s: Evm, from: Address, to: Address, amount: nat)
    requires LoadsOk(s) && amount <= BalanceOf(s.balances, from)
    ensures LoadsOk(Move(s, from, to, amount))
  {
    hide LoadsOk;
    var t := Journaled(s, from, BalanceOf(s.balances, from) - amount, false);
    JournaledKeepsLoads(s, from, BalanceOf(s.balances, from) - amount);
    JournaledKeepsLoads(t, to, BalanceOf(t.balances, to) + amount);
  }

  lemma {:induction false} StepKeepsLoads(s: Evm, ledger: map<Address, nat>, e: Event)
    requires MarksOk(s) && LoadsOk(s) && Enabled(s, e)
    ensures LoadsOk(Step(s, ledger, e))
  {
    hide LoadsOk;
    match e
    case Touch(a) => TouchKeepsLoads(s, ledger, a);
    case Transfer(from, to, amount) => MoveKeepsLoads(s, from, to, amount);
    case Snapshot => SnapshotKeepsLoads(s);
    case Revert(k) => RevertKeepsLoads(s, k);
  }

  // ----- what a snapshot recovers does not change until it is reverted to

  lemma {:induction false} JournaledIsUndone(s: Evm, a: Address, v: nat, load: bool, n: nat)
    requires n <= |s.journal|
    ensures Undo(Journaled(s, a, v, load).balances, Revs(Journaled(s, a, v, load).journal[n..]))
          == Undo(s.balances, Revs(s.journal[n..]))
  {
    var log := Revs(s.journal[n..]);
    var e := Revision(a, Lookup(s.balances, a));
    assert Revs(Journaled(s, a, v, load).journal[n..]) == log + [e];
    assert (log + [e])[..|log|] == log;
    assert Put(s.balances[a := v], a, e.was) == s.balances;
  }

  lemma {:induction false} UndoFurther(s: Evm, m: nat, n: nat)
    requires m <= n <= |s.journal|
    ensures Undo(Undo(s.balances, Revs(s.journal[n..])), Revs(s.journal[..n][m..]))
          == Undo(s.balances, Revs(s.journal[m..]))
  {
    var a, b := Revs(s.journal[..n][m..]), Revs(s.journal[n..]);
    assert Revs(s.journal[m..]) == a + b;
    UndoSplits(s.balances, a, b);
  }

  ghost predicate Recovers(s: Evm, k: nat, balances: map<Address, nat>, tracked: map<Address, int>) {
    k < |s.marks| && s.marks[k].len <= |s.journal| && Reverted(s, k).balances == balances && Reverted(s,
        k).tracked == tracked
  }

  lemma {:induction false} TouchKeepsRecovery(s: Evm, ledger: map<Address, nat>, a: Address, k: nat)
    requires MarksOk(s) && k < |s.marks| && a !in s.tracked
    ensures Recovers(TouchAt(s, ledger, a), k, Reverted(s, k).balances, Reverted(s, k).tracked)
  {
    JournaledIsUndone(s, a, BalanceOf(ledger, a), true, s.marks[k].len);
    assert Kept(TouchAt(s, ledger, a).tracked, s.marks[k].id) == Kept(s.tracked, s.marks[k].id);
  }

  lemma {:induction false} MoveKeepsRecovery(s: Evm, from: Address, to: Address, amount: nat, k: nat)
    requires MarksOk(s) && k < |s.marks| && amount <= BalanceOf(s.balances, from)
    ensures Recovers(Move(s, from, to, amount), k, Reverted(s, k).balances, Reverted(s, k).tracked)
  {
    hide Undo;
    hide Revs;
    hide Kept;
    var t := Journaled(s, from, BalanceOf(s.balances, from) - amount, false);
    JournaledIsUndone(s, from, BalanceOf(s.balances, from) - amount, false, s.marks[k].len);
    JournaledIsUndone(t, to, BalanceOf(t.balances, to) + amount, false, s.marks[k].len);
  }

  lemma {:induction false} RevertKeepsRecovery(s: Evm, j: nat, k: nat)
    requires MarksOk(s) && k < j < |s.marks|
    ensures Recovers(Reverted(s, j), k, Reverted(s, k).balances, Reverted(s, k).tracked)
  {
    UndoFurther(s, s.marks[k].len, s.marks[j].len);
    assert Kept(Kept(s.tracked, s.marks[j].id), s.marks[k].id) == Kept(s.tracked, s.marks[k].id);
  }

  /** A step that leaves mark `k` live leaves unchanged what reverting to it recovers. */
  lemma {:induction false} StepKeepsRecovery(s: Evm, ledger: map<Address, nat>, e: Event, k: nat)
    requires MarksOk(s) && Enabled(s, e) && k < |s.marks| && (e.Revert? ==> k < e.mark)
    ensures Recovers(Step(s, ledger, e), k, Reverted(s, k).balances, Reverted(s, k).tracked)
  {
    match e
    case Touch(a) => if a !in s.tracked { TouchKeepsRecovery(s, ledger, a, k); }
    case Transfer(from, to, amount) => MoveKeepsRecovery(s, from, to, amount, k);
    case Snapshot =>
    case Revert(j) => RevertKeepsRecovery(s, j, k);
  }

  lemma {:induction false} FreshSnapshotRecovers(s: Evm)
    requires MarksOk(s)
    ensures Recovers(TakeSnapshot(s), |s.marks|, s.balances, s.tracked)
  {
    assert s.journal[|s.journal|..] == [] && Revs([]) == [];
    assert Kept(s.tracked, s.nextId) == s.tracked;
  }

  // ----- writing back

  /** Reference: the ledger with every tracked account replaced by its EVM balance. */
  function WriteBack(ledger: map<Address, nat>, balances: map<Address, nat>, tracked: set<Address>): map<Address, nat> {
    map a | a in ledger.Keys + tracked :: if a in tracked then BalanceOf(balances, a) else ledger[a]
  }

  /** The sum of all balances. */
  ghost function SumOf(m: map<Address, int>): int { Total(m, (v: int) => v) }

  lemma {:induction false} SumUpdate(m: map<Address, int>, a: Address, v: int)
    ensures SumOf(m[a := v]) == SumOf(m) - (if a in m then m[a] else 0) + v
  {
    TotalUpdate(m, (x: int) => x, a, v);
  }

  ghost predicate Conserved(ledger: map<Address, nat>, balances: map<Address, nat>, tracked: set<Address>) {
    SumOf(WriteBack(ledger, balances, tracked)) == SumOf(ledger)
  }

  lemma {:induction false} LoadConserves(ledger: map<Address, nat>, balances: map<Address, nat>,
          tracked: set<Address>, a: Address)
    requires Conserved(ledger, balances, tracked) && a !in tracked
    ensures Conserved(ledger, balances[a := BalanceOf(ledger, a)], tracked + {a})
  {
    var m := WriteBack(ledger, balances, tracked);
    assert WriteBack(ledger, balances[a := BalanceOf(ledger, a)], tracked + {a}) == m[a := BalanceOf(ledger, a)];
    SumUpdate(m, a, BalanceOf(ledger, a));
  }

  lemma {:induction false} SetConserves(ledger: map<Address, nat>, balances: map<Address, nat>,
          tracked: set<Address>, a: Address, v: nat)
    requires a in tracked
    ensures SumOf(WriteBack(ledger, balances[a := v], tracked))
         == SumOf(WriteBack(ledger, balances, tracked)) - BalanceOf(balances, a) + v
  {
    var m := WriteBack(ledger, balances, tracked);
    assert WriteBack(ledger, balances[a := v], tracked) == m[a := v];
    SumUpdate(m, a, v);
  }

  lemma {:induction false} MoveConserves(s: Evm, ledger: map<Address, nat>, from: Address, to: Address, amount: nat)
    requires Conserved(ledger, s.balances, s.tracked.Keys) && Enabled(s, Transfer(from, to, amount))
    ensures Conserved(ledger, Move(s, from, to, amount).balances, s.tracked.Keys)
  {
    var b := s.balances[from := BalanceOf(s.balances, from) - amount];
    SetConserves(ledger, s.balances, s.tracked.Keys, from, b[from]);
    SetConserves(ledger, b, s.tracked.Keys, to, BalanceOf(b, to) + amount);
  }

  /** The invariant of a contract call against a fixed ledger. */
  ghost predicate Ok(s: Evm, ledger: map<Address, nat>) {
    && MarksOk(s)
    && LoadsOk(s)
    && Conserved(ledger, s.balances, s.tracked.Keys)
    && forall k: nat :: k < |s.marks| ==> Conserved(ledger, Reverted(s, k).balances, Reverted(s, k).tracked.Keys)
  }

  lemma {:induction false} StepConserves(s: Evm, ledger: map<Address, nat>, e: Event)
    requires Ok(s, ledger) && Enabled(s, e)
    ensures var t := Step(s, ledger, e); Conserved(ledger, t.balances, t.tracked.Keys)
  {
    match e
    case Touch(a) =>
      if a !in s.tracked {
        LoadConserves(ledger, s.balances, s.tracked.Keys, a);
        assert s.tracked[a := s.snapshot + 1].Keys == s.tracked.Keys + {a};
      }
    case Transfer(from, to, amount) => MoveConserves(s, ledger, from, to, amount);
    case Snapshot =>
    case Revert(k) =>
  }

  lemma {:induction false} StepOk(s: Evm, ledger: map<Address, nat>, e: Event)
    requires Ok(s, ledger) && Enabled(s, e)
    ensures Ok(Step(s, ledger, e), ledger)
  {
    var t := Step(s, ledger, e);
    StepKeepsMarks(s, ledger, e);
    StepKeepsLoads(s, ledger, e);
    StepConserves(s, ledger, e);
    forall k: nat | k < |t.marks| ensures Conserved(ledger, Reverted(t, k).balances, Reverted(t, k).tracked.Keys) {
      if k < |s.marks| {
        StepKeepsRecovery(s, ledger, e, k);
      } else {
        FreshSnapshotRecovers(s);
      }
    }
  }

  // ----- whole contract calls

  /** A call starts with nothing tracked, whatever the EVM state still holds from earlier calls. */
  function Start(balances: map<Address, nat>, nextId: int): Evm { Evm(balances, [], [], nextId, map[], nextId - 1) }

  ghost predicate Runs(s: Evm, ledger: map<Address, nat>, es: seq<Event>, t: Evm)
    requires MarksOk(s)
    decreases |es|
  {
    if es == [] then s == t
    else Enabled(s, es[0]) && (StepKeepsMarks(s, ledger, es[0]); Runs(Step(s, ledger, es[0]), ledger, es[1..], t))
  }

  lemma {:induction false} RunsOk(s: Evm, ledger: map<Address, nat>, es: seq<Event>, t: Evm)
    requires Ok(s, ledger) && Runs(s, ledger, es, t)
    ensures Ok(t, ledger)
    decreases |es|
  {
    if es != [] {
      StepOk(s, ledger, es[0]);
      RunsOk(Step(s, ledger, es[0]), ledger, es[1..], t);
    }
  }

  lemma {:induction false} StartOk(balances: map<Address, nat>, nextId: int, ledger: map<Address, nat>)
    ensures Ok(Start(balances, nextId), ledger)
  {
    var s := Start(balances, nextId);
    assert s.tracked.Keys == {};
    assert WriteBack(ledger, balances, s.tracked.Keys) == ledger;
  }

  /** However loads, transfers, snapshots and nested reverts interleave, the tracked accounts are
      exactly those whose load survives in the journal, and writing them back leaves the sum of
      all ledger balances as it was. */
  lemma {:induction false} TrackedAccountsAreTheLoadedOnes(balances: map<Address, nat>, nextId: int,
          ledger: map<Address, nat>, es: seq<Event>, t: Evm)
    requires Runs(Start(balances, nextId), ledger, es, t)
    ensures forall a: Address :: a in t.tracked <==> Loaded(t.journal, a)
    ensures SumOf(WriteBack(ledger, t.balances, t.tracked.Keys)) == SumOf(ledger)
  {
    StartOk(balances, nextId, ledger);
    RunsOk(Start(balances, nextId), ledger, es, t);
    forall a: Address | Loaded(t.journal, a) ensures a in t.tracked {
      var i :| LoadedAt(t.journal, a, i);
    }
  }

  /** Mark `k` is never reverted to, nor past, by the steps `es`. */
  predicate StaysLive(es: seq<Event>, k: nat) { forall e <- es :: e.Revert? ==> k < e.mark }

  lemma {:induction false} RunKeepsRecovery(s: Evm, ledger: map<Address, nat>, es: seq<Event>, t: Evm, k: nat)
    requires MarksOk(s) && Runs(s, ledger, es, t) && k < |s.marks| && StaysLive(es, k)
    ensures Recovers(t, k, Reverted(s, k).balances, Reverted(s, k).tracked)
    decreases |es|
  {
    if es != [] {
      StepKeepsMarks(s, ledger, es[0]);
      StepKeepsRecovery(s, ledger, es[0], k);
      RunKeepsRecovery(Step(s, ledger, es[0]), ledger, es[1..], t, k);
    }
  }

  /** Reverting to a snapshot restores the balances and the tracked accounts of the moment it was
      taken, whatever happened since. */
  lemma {:induction false} RevertRestoresBoth(s: Evm, ledger: map<Address, nat>, es: seq<Event>, t: Evm)
    requires MarksOk(s) && MarksOk(TakeSnapshot(s)) && Runs(TakeSnapshot(s), ledger, es, t) && StaysLive(es, |s.marks|)
    ensures Recovers(t, |s.marks|, s.balances, s.tracked)
  {
    FreshSnapshotRecovers(s);
    RunKeepsRecovery(TakeSnapshot(s), ledger, es, t, |s.marks|);
  }

  /** A failed contract call, which reverts to its first snapshot before finishing, writes nothing
      back: the ledger and the EVM balances are untouched. */
  lemma {:induction false} FailedCallChangesNothing(balances: map<Address, nat>, nextId: int, ledger: map<Address,
          nat>, es: seq<Event>, t: Evm)
    requires MarksOk(TakeSnapshot(Start(balances, nextId)))
    requires Runs(TakeSnapshot(Start(balances, nextId)), ledger, es, t) && StaysLive(es, 0)
    ensures Recovers(t, 0, balances, map[])
    ensures WriteBack(ledger, Reverted(t, 0).balances, Reverted(t, 0).tracked.Keys) == ledger
  {
    RevertRestoresBoth(Start(balances, nextId), ledger, es, t);
    assert WriteBack(ledger, balances, {}) == ledger;
  }

  // ----- the wrapper object

  lemma {:induction false} WriteBackOne(ledger: map<Address, nat>, balances: map<Address, nat>, s: seq<Address>, n: nat)
    requires n < |s|
    ensures WriteBack(ledger, balances, Elements(s[..n + 1]))
          == WriteBack(ledger, balances, Elements(s[..n]))[s[n] := BalanceOf(balances, s[n])]
  {
    assert s[..n + 1] == s[..n] + [s[n]];
    assert Elements(s[..n + 1]) == Elements(s[..n]) + {s[n]};
  }

  function Elements(s: seq<Address>): set<Address> { set a | a in s }

  class StateDBWrapper {
    var balances: map<Address, nat>
    var journal: seq<Entry>
    var marks: seq<Mark>
    var nextId: int
    var accessedObjAddrs: map<Address, int>
    var snapshot: int

    ghost function View(): Evm
      reads this
    {
      Evm(balances, journal, marks, nextId, accessedObjAddrs, snapshot)
    }

    constructor (evmBalances: map<Address, nat>)
      ensures View() == Start(evmBalances, 0)
    {
      balances, journal, marks, nextId, accessedObjAddrs, snapshot := evmBalances, [], [], 0, map[], -1;
    }

    method SetBalance(a: Address, v: nat, load: bool)
      modifies this`balances, this`journal
      ensures View() == Journaled(old(View()), a, v, load)
    {
      var was := Lookup(balances, a);
      journal := journal + [Entry(Revision(a, was), load)];
      balances := balances[a := v];
    }

    method AddAccessedObjAddr(ledger: map<Address, nat>, a: Address)
      modifies this
      ensures View() == TouchAt(old(View()), ledger, a)
    {
      if a !in accessedObjAddrs {
        var acctBalance := if a in ledger then ledger[a] else 0;
        SetBalance(a, acctBalance, true);
        accessedObjAddrs := accessedObjAddrs[a := snapshot + 1];
      }
    }

    method NewSnapshot() returns (id: int)
      modifies this
      ensures View() == TakeSnapshot(old(View())) && id == snapshot
    {
      marks := marks + [Mark(nextId, |journal|)];
      snapshot := nextId;
      nextId := nextId + 1;
      id := snapshot;
    }

    /** Drop the accounts tagged above the snapshot, one by one. */
    method RevertAccessedObjAddr(revid: int)
      modifies this`accessedObjAddrs
      ensures accessedObjAddrs == Kept(old(accessedObjAddrs), revid)
    {
      var rest := accessedObjAddrs.Keys;
      while rest != {}
        invariant rest <= old(accessedObjAddrs).Keys
        invariant forall a :: a in accessedObjAddrs <==>
          a in old(accessedObjAddrs) && (a in rest || old(accessedObjAddrs)[a] <= revid)
        invariant forall a <- accessedObjAddrs :: accessedObjAddrs[a] == old(accessedObjAddrs)[a]
        decreases |rest|
      {
        var a :| a in rest;
        rest := rest - {a};
        if revid < accessedObjAddrs[a] { accessedObjAddrs := accessedObjAddrs - {a}; }
      }
    }

    method RevertToSnapshot(k: nat)
      requires MarksOk(View()) && k < |marks|
      modifies this
      ensures View() == Reverted(old(View()), k)
    {
      RevertAccessedObjAddr(marks[k].id);
      var n := marks[k].len;
      ghost var all := journal;
      while |journal| > n
        invariant n <= |journal| <= |all| && journal == all[..|journal|]
        invariant Undo(balances, Revs(journal[n..])) == Undo(old(balances), Revs(all[n..]))
        invariant marks == old(marks) && nextId == old(nextId) && snapshot == old(snapshot)
        invariant accessedObjAddrs == Kept(old(accessedObjAddrs), marks[k].id)
      {
        var e := journal[|journal| - 1].rev;
        assert Revs(journal[n..])[..|journal| - n - 1] == Revs(journal[..|journal| - 1][n..]);
        balances := Put(balances, e.key, e.was);
        journal := journal[..|journal| - 1];
      }
      marks := marks[..k];
    }

    /** Write the tracked accounts back in ascending order of address, and forget them. */
    method Finish(ledger: map<Address, nat>) returns (out: map<Address, nat>)
      modifies this`accessedObjAddrs
      ensures out == WriteBack(ledger, balances, old(accessedObjAddrs).Keys)
      ensures accessedObjAddrs == map[]
    {
      var sorted := Keys.SortedKeys(accessedObjAddrs.Keys);
      Keys.OrderedIsAscending(accessedObjAddrs.Keys);
      out := ledger;
      assert WriteBack(ledger, balances, Elements(sorted[..0])) == ledger;
      for i := 0 to |sorted|
        invariant accessedObjAddrs == old(accessedObjAddrs)
        invariant out == WriteBack(ledger, balances, Elements(sorted[..i]))
      {
        WriteBackOne(ledger, balances, sorted, i);
        out := out[sorted[i] := BalanceOf(balances, sorted[i])];
      }
      assert Elements(sorted[..|sorted|]) == accessedObjAddrs.Keys by { assert sorted[..|sorted|] == sorted; }
      accessedObjAddrs := map[];
    }
  }
}
