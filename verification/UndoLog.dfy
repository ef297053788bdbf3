/** ledger/v1/revision_list.go: an undo log over a key-value map, and exactly what reverting to a
    snapshot restores when some writes go unlogged. */
module UndoLog {
  import opened Base

  datatype Revision<K, V> = Revision(key: K, was: Option<V>)

  datatype Logged<K, V> = Logged(view: map<K, V>, log: seq<Revision<K, V>>)

  datatype Action<K, V> =
    | Write(key: K, val: Option<V>, logged: bool)
    | RevertTo(snap: nat)

  function Put<K, V>(m: map<K, V>, k: K, v: Option<V>): map<K, V> {
    if v.Some? then m[k := v.value] else m - {k}
  }

  /** Undo the entries of `log`, the latest first. */
  function Undo<K, V>(m: map<K, V>, log: seq<Revision<K, V>>): map<K, V>
    decreases |log|
  {
    if log == [] then m
    else var e := log[|log| - 1]; Undo(Put(m, e.key, e.was), log[..|log| - 1])
  }

  predicate Enabled<K, V>(s: Logged<K, V>, a: Action<K, V>, snap: nat) {
    a.RevertTo? ==> snap <= a.snap <= |s.log|
  }

  function Do<K, V>(s: Logged<K, V>, a: Action<K, V>): Logged<K, V>
    requires a.RevertTo? ==> a.snap <= |s.log|
  {
    match a
    case Write(k, v, logged) =>
      Logged(Put(s.view, k, v), if logged then s.log + [Revision(k, Lookup(s.view, k))] else s.log)
    case RevertTo(n) => Logged(Undo(s.view, s.log[n..]), s.log[..n])
  }

  ghost predicate Names<K, V>(log: seq<Revision<K, V>>, k: K) { exists i :: 0 <= i < |log| && log[i].key == k }

  /** An unlogged write that no earlier entry since the snapshot will repair. */
  ghost predicate Escapes<K, V>(s: Logged<K, V>, a: Action<K, V>, snap: nat)
    requires snap <= |s.log|
  {
    a.Write? && !a.logged && Lookup(s.view, a.key) != a.val && !Names(s.log[snap..], a.key)
  }

  // ----- laws of Undo

  lemma {:induction false} UndoSplits<K, V>(m: map<K, V>, a: seq<Revision<K, V>>, b: seq<Revision<K, V>>)
    ensures Undo(m, a + b) == Undo(Undo(m, b), a)
    decreases |b|
  {
    if b == [] {
      assert a + b == a;
    } else {
      var e := b[|b| - 1];
      assert (a + b)[..|a + b| - 1] == a + b[..|b| - 1];
      UndoSplits(Put(m, e.key, e.was), a, b[..|b| - 1]);
    }
  }

  /** A key that the log names is restored to the logged value whatever it holds now. */
  lemma {:induction false} UndoOverwrites<K, V>(m: map<K, V>, log: seq<Revision<K, V>>, k: K, v: Option<V>)
    ensures Names(log, k) ==> Undo(Put(m, k, v), log) == Undo(m, log)
    ensures !Names(log, k) ==> Undo(Put(m, k, v), log) == Put(Undo(m, log), k, v)
    decreases |log|
  {
    if log != [] {
      var n := |log| - 1;
      var e := log[n];
      UndoOverwrites(Put(m, e.key, e.was), log[..n], k, v);
      if e.key == k {
        assert Put(Put(m, k, v), k, e.was) == Put(m, k, e.was);
        assert Names(log, k);
      } else {
        assert Put(Put(m, k, v), e.key, e.was) == Put(Put(m, e.key, e.was), k, v);
        NamesSplit(log, k);
      }
    }
  }

  lemma {:induction false} NamesSplit<K, V>(log: seq<Revision<K, V>>, k: K)
    requires log != []
    ensures Names(log, k) <==> Names(log[..|log| - 1], k) || log[|log| - 1].key == k
  {
    var n := |log| - 1;
    if Names(log[..n], k) {
      var i :| 0 <= i < n && log[..n][i].key == k;
      assert log[i].key == k;
    }
    if Names(log, k) {
      var i :| 0 <= i < |log| && log[i].key == k;
      assert i < n ==> log[..n][i].key == k;
    }
  }

  /** What reverting to the snapshot would give right now. */
  ghost function Recovered<K, V>(s: Logged<K, V>, snap: nat): map<K, V>
    requires snap <= |s.log|
  {
    Undo(s.view, s.log[snap..])
  }

  lemma {:induction false} LoggedWriteIsUndone<K, V>(s: Logged<K, V>, k: K, v: Option<V>, snap: nat)
    requires snap <= |s.log|
    ensures Recovered(Do(s, Write(k, v, true)), snap) == Recovered(s, snap)
  {
    var s' := Do(s, Write(k, v, true));
    var e := Revision(k, Lookup(s.view, k));
    assert s'.log[snap..] == s.log[snap..] + [e];
    assert (s.log[snap..] + [e])[..|s.log[snap..]|] == s.log[snap..];
    assert Put(s'.view, k, e.was) == s.view;
  }

  lemma {:induction false} NestedRevertKeeps<K, V>(s: Logged<K, V>, n: nat, snap: nat)
    requires snap <= n <= |s.log|
    ensures Recovered(Do(s, RevertTo(n)), snap) == Recovered(s, snap)
  {
    assert s.log[snap..] == s.log[snap..n] + s.log[n..];
    UndoSplits(s.view, s.log[snap..n], s.log[n..]);
    assert s.log[..n][snap..] == s.log[snap..n];
  }

  /** No action changes what a revert to a live snapshot would give, except a write that escapes
      the log: that one survives the revert. */
  lemma {:induction false} StepChangesRecovery<K, V>(s: Logged<K, V>, a: Action<K, V>, snap: nat)
    requires snap <= |s.log| && Enabled(s, a, snap)
    ensures snap <= |Do(s, a).log|
    ensures Recovered(Do(s, a), snap) ==
            if Escapes(s, a, snap) then Put(Recovered(s, snap), a.key, a.val) else Recovered(s, snap)
  {
    match a
    case Write(k, v, logged) =>
      if logged {
        LoggedWriteIsUndone(s, k, v, snap);
      } else {
        UndoOverwrites(s.view, s.log[snap..], k, v);
        if Lookup(s.view, k) == v { assert Put(s.view, k, v) == s.view; }
      }
    case RevertTo(n) => NestedRevertKeeps(s, n, snap);
  }
}
