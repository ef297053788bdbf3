/** ledger/v1: the committed tier (a tree, an object cache and an undo log), the speculative
    overlay, and the ledger that pairs them. Items are immutable values with a codec. */
module Ledger {
  import opened Base
  import opened UndoLog

  type Key = Bytes

  type Tree = map<Key, Bytes>

  type Log = seq<Revision<Key, Bytes>>

  datatype Codec<!Item> = Codec(encode: Item -> Bytes, decode: (Key, Bytes) -> Item)

  ghost predicate RoundTrips<Item>(c: Codec<Item>, k: Key, x: Item) { c.decode(k, c.encode(x)) == x }

  datatype LedgerError = NotFoundResult

  function Read<Item>(c: Codec<Item>, t: Tree, k: Key): Result<Item, LedgerError> {
    if k in t then Success(c.decode(k, t[k])) else Failure(NotFoundResult)
  }

  /** `bytes.Compare` does not tell a missing value from an empty one. */
  predicate Differs(was: Option<Bytes>, now: Bytes) {
    if was.None? then now != [] else was.value != now
  }

  // ----- the calls of a run, and what they do

  datatype Call = SetCall(key: Key, bytes: Bytes) | DelCall(key: Key) | RevertCall(snap: nat)

  /** MutableLedger: a write is logged when it changes the bytes; a deletion when there was a value. */
  function TreeAction(s: Logged<Key, Bytes>, c: Call): Action<Key, Bytes> {
    match c
    case SetCall(k, b) => Write(k, Some(b), Differs(Lookup(s.view, k), b))
    case DelCall(k) => Write(k, None, k in s.view)
    case RevertCall(n) => RevertTo(n)
  }

  ghost predicate LiveCalls(s: Logged<Key, Bytes>, calls: seq<Call>, snap: nat)
    decreases |calls|
  {
    && snap <= |s.log|
    && (calls != [] ==>
          && Enabled(s, TreeAction(s, calls[0]), snap)
          && LiveCalls(Do(s, TreeAction(s, calls[0])), calls[1..], snap))
  }

  ghost function Perform(s: Logged<Key, Bytes>, calls: seq<Call>, snap: nat): (s': Logged<Key, Bytes>)
    requires LiveCalls(s, calls, snap)
    ensures snap <= |s'.log|
    decreases |calls|
  {
    if calls == [] then s else Perform(Do(s, TreeAction(s, calls[0])), calls[1..], snap)
  }

  /** Some call writes an empty encoding to a key that is absent and unlogged since the snapshot. */
  ghost predicate CreatesEmpty(s: Logged<Key, Bytes>, calls: seq<Call>, snap: nat)
    requires LiveCalls(s, calls, snap)
    decreases |calls|
  {
    calls != [] &&
    (|| (calls[0].SetCall? && calls[0].bytes == [] && calls[0].key !in s.view && !Names(s.log[snap..], calls[0].key))
     || CreatesEmpty(Do(s, TreeAction(s, calls[0])), calls[1..], snap))
  }

  lemma {:induction false} UnnamedKeepsValue(m: Tree, log: Log, k: Key)
    requires !Names(log, k)
    ensures Lookup(Undo(m, log), k) == Lookup(m, k)
    decreases |log|
  {
    if log != [] {
      NamesSplit(log, k);
      var e := log[|log| - 1];
      UnnamedKeepsValue(Put(m, e.key, e.was), log[..|log| - 1], k);
    }
  }

  /** A run only ever adds keys to what a revert would give, and adds some exactly when it creates
      an empty entry. */
  lemma {:induction false} TreeRecovery(s: Logged<Key, Bytes>, calls: seq<Call>, snap: nat)
    requires LiveCalls(s, calls, snap)
    ensures var r, r' := Recovered(s, snap), Recovered(Perform(s, calls, snap), snap);
            && r.Keys <= r'.Keys
            && (CreatesEmpty(s, calls, snap) ==> r.Keys != r'.Keys)
            && (!CreatesEmpty(s, calls, snap) ==> r == r')
    decreases |calls|
  {
    if calls != [] {
      var a := TreeAction(s, calls[0]);
      var s1 := Do(s, a);
      StepChangesRecovery(s, a, snap);
      if Escapes(s, a, snap) { UnnamedKeepsValue(s.view, s.log[snap..], a.key); }
      TreeRecovery(s1, calls[1..], snap);
      assert a.Write? ==> (Escapes(s, a, snap) ==> a.key !in Recovered(s, snap) && a.key in Recovered(s1, snap));
    }
  }

  /** For any interleaving of Set, Del and nested reverts that keeps a snapshot live, reverting to
      it restores exactly the map that held when it was taken, if and only if no call in between
      stored an empty encoding under a new key. */
  lemma RevertRestoresTree(s: Logged<Key, Bytes>, calls: seq<Call>)
    requires LiveCalls(s, calls, |s.log|)
    ensures Do(Perform(s, calls, |s.log|), RevertTo(|s.log|)).view == s.view <==> !CreatesEmpty(s, calls, |s.log|)
    ensures |Do(Perform(s, calls, |s.log|), RevertTo(|s.log|)).log| == |s.log|
  {
    TreeRecovery(s, calls, |s.log|);
    assert s.log[|s.log|..] == [];
  }

  /** Such a run exists: store an empty encoding under a new key and revert. */
  lemma EmptyCreationIsKept(k: Key)
    ensures var s := Logged(map[], []);
            var s' := Do(s, TreeAction(s, SetCall(k, [])));
            Do(s', RevertTo(0)).view != s.view
  {
    var s := Logged(map[], []);
    var s' := Do(s, TreeAction(s, SetCall(k, [])));
    assert s'.log == [] && k in Do(s', RevertTo(0)).view;
  }

  ghost predicate NonEmptySets(calls: seq<Call>) { forall c <- calls :: c.SetCall? ==> c.bytes != [] }

  lemma {:induction false} NonEmptyNeverCreatesEmpty(s: Logged<Key, Bytes>, calls: seq<Call>, snap: nat)
    requires LiveCalls(s, calls, snap) && NonEmptySets(calls)
    ensures !CreatesEmpty(s, calls, snap)
    decreases |calls|
  {
    if calls != [] {
      assert calls[0] in calls;
      NonEmptyNeverCreatesEmpty(Do(s, TreeAction(s, calls[0])), calls[1..], snap);
    }
  }

  // ----- the speculative overlay

  datatype Mem = Mem(tree: Tree, overlay: map<Key, Option<Bytes>>, log: Log)

  /** findRawBytes: the overlay first, then the committed tree. */
  function RawBytes(m: Mem, k: Key): Option<Bytes> {
    if k in m.overlay then m.overlay[k] else Lookup(m.tree, k)
  }

  /** The map that the overlay presents. */
  ghost function Effective(m: Mem): (e: Tree)
    ensures forall k :: Lookup(e, k) == RawBytes(m, k)
  {
    map k | k in m.tree.Keys + m.overlay.Keys && RawBytes(m, k).Some? :: RawBytes(m, k).value
  }

  function RestoreAll(overlay: map<Key, Option<Bytes>>, log: Log): map<Key, Option<Bytes>>
    decreases |log|
  {
    if log == [] then overlay
    else RestoreAll(overlay[log[|log| - 1].key := log[|log| - 1].was], log[..|log| - 1])
  }

  function MemDo(m: Mem, c: Call): Mem
    requires c.RevertCall? ==> c.snap <= |m.log|
  {
    match c
    case SetCall(k, b) =>
      m.(overlay := m.overlay[k := Some(b)],
         log := if Differs(RawBytes(m, k), b) then m.log + [Revision(k, RawBytes(m, k))] else m.log)
    case DelCall(k) =>
      m.(overlay := m.overlay[k := None],
         log := if k in m.overlay then m.log + [Revision(k, m.overlay[k])] else m.log)
    case RevertCall(n) => m.(overlay := RestoreAll(m.overlay, m.log[n..]), log := m.log[..n])
  }

  ghost function Abstract(m: Mem): Logged<Key, Bytes> { Logged(Effective(m), m.log) }

  function MemAction(m: Mem, c: Call): Action<Key, Bytes> {
    match c
    case SetCall(k, b) => Write(k, Some(b), Differs(RawBytes(m, k), b))
    case DelCall(k) => Write(k, None, k in m.overlay)
    case RevertCall(n) => RevertTo(n)
  }

  lemma {:induction false} OverlayPut(m: Mem, k: Key, v: Option<Bytes>)
    ensures Effective(m.(overlay := m.overlay[k := v])) == Put(Effective(m), k, v)
  {
    var m' := m.(overlay := m.overlay[k := v]);
    forall j ensures Lookup(Effective(m'), j) == Lookup(Put(Effective(m), k, v), j) {
      assert Lookup(Effective(m), j) == RawBytes(m, j);
      assert Lookup(Effective(m'), j) == RawBytes(m', j);
    }
    SameLookups(Effective(m'), Put(Effective(m), k, v));
  }

  lemma {:induction false} OverlayUndo(m: Mem, log: Log)
    ensures Effective(m.(overlay := RestoreAll(m.overlay, log))) == Undo(Effective(m), log)
    decreases |log|
  {
    if log != [] {
      var e := log[|log| - 1];
      OverlayPut(m, e.key, e.was);
      OverlayUndo(m.(overlay := m.overlay[e.key := e.was]), log[..|log| - 1]);
    }
  }

  /** The overlay refines a logged map, with its own rule for which writes are logged. */
  lemma {:induction false} OverlayRefines(m: Mem, c: Call)
    requires c.RevertCall? ==> c.snap <= |m.log|
    ensures Abstract(MemDo(m, c)) == Do(Abstract(m), MemAction(m, c))
    ensures MemDo(m, c).tree == m.tree
  {
    match c
    case SetCall(_, _) => SetRefines(m, c);
    case DelCall(_) => DelRefines(m, c);
    case RevertCall(_) => RevertRefines(m, c);
  }

  lemma {:induction false} SetRefines(m: Mem, c: Call)
    requires c.SetCall?
    ensures Abstract(MemDo(m, c)) == Do(Abstract(m), MemAction(m, c)) && MemDo(m, c).tree == m.tree
  {
    OverlayPut(m, c.key, Some(c.bytes));
    assert Lookup(Effective(m), c.key) == RawBytes(m, c.key);
    assert Effective(MemDo(m, c)) == Effective(m.(overlay := m.overlay[c.key := Some(c.bytes)]));
  }

  lemma {:induction false} DelRefines(m: Mem, c: Call)
    requires c.DelCall?
    ensures Abstract(MemDo(m, c)) == Do(Abstract(m), MemAction(m, c)) && MemDo(m, c).tree == m.tree
  {
    OverlayPut(m, c.key, None);
    assert Lookup(Effective(m), c.key) == RawBytes(m, c.key);
    assert Effective(MemDo(m, c)) == Effective(m.(overlay := m.overlay[c.key := None]));
  }

  lemma {:induction false} RevertRefines(m: Mem, c: Call)
    requires c.RevertCall? && c.snap <= |m.log|
    ensures Abstract(MemDo(m, c)) == Do(Abstract(m), MemAction(m, c)) && MemDo(m, c).tree == m.tree
  {
    OverlayUndo(m, m.log[c.snap..]);
    assert Effective(MemDo(m, c)) == Effective(m.(overlay := RestoreAll(m.overlay, m.log[c.snap..])));
  }

  ghost predicate LogCovered(m: Mem) { forall k :: Names(m.log, k) ==> k in m.overlay }

  lemma {:induction false} RestoreKeepsKeys(overlay: map<Key, Option<Bytes>>, log: Log)
    ensures overlay.Keys <= RestoreAll(overlay, log).Keys
    decreases |log|
  {
    if log != [] {
      var e := log[|log| - 1];
      RestoreKeepsKeys(overlay[e.key := e.was], log[..|log| - 1]);
    }
  }

  lemma {:induction false} StaysCovered(m: Mem, c: Call)
    requires LogCovered(m) && (c.RevertCall? ==> c.snap <= |m.log|)
    ensures LogCovered(MemDo(m, c))
  {
    var m' := MemDo(m, c);
    if c.RevertCall? {
      RestoreKeepsKeys(m.overlay, m.log[c.snap..]);
    }
    forall k | Names(m'.log, k) ensures k in m'.overlay {
      var i :| 0 <= i < |m'.log| && m'.log[i].key == k;
      if i < |m.log| {
        assert m.log[i].key == k;
        assert Names(m.log, k);
        assert k in m.overlay.Keys;
      }
    }
  }

  ghost predicate LiveMem(m: Mem, calls: seq<Call>, snap: nat)
    decreases |calls|
  {
    && snap <= |m.log|
    && (calls != [] ==>
          && (calls[0].RevertCall? ==> snap <= calls[0].snap <= |m.log|)
          && LiveMem(MemDo(m, calls[0]), calls[1..], snap))
  }

  ghost function PerformMem(m: Mem, calls: seq<Call>, snap: nat): (m': Mem)
    requires LiveMem(m, calls, snap)
    ensures snap <= |m'.log|
    decreases |calls|
  {
    if calls == [] then m else PerformMem(MemDo(m, calls[0]), calls[1..], snap)
  }

  /** Some call deletes a committed key that the overlay has not touched yet. */
  ghost predicate DeletesUntouched(m: Mem, calls: seq<Call>, snap: nat)
    requires LiveMem(m, calls, snap)
    decreases |calls|
  {
    calls != [] &&
    (|| (calls[0].DelCall? && calls[0].key in m.tree && calls[0].key !in m.overlay)
     || DeletesUntouched(MemDo(m, calls[0]), calls[1..], snap))
  }

  lemma {:induction false} NamedLater(log: Log, snap: nat, k: Key)
    requires snap <= |log|
    ensures Names(log[snap..], k) ==> Names(log, k)
  {
    if Names(log[snap..], k) {
      var i :| 0 <= i < |log[snap..]| && log[snap..][i].key == k;
      assert log[snap + i].key == k;
    }
  }

  lemma {:induction false} OverlayEscape(m: Mem, c: Call, snap: nat)
    requires LogCovered(m) && snap <= |m.log| && (c.SetCall? ==> c.bytes != [])
    requires c.RevertCall? ==> snap <= c.snap <= |m.log|
    ensures Escapes(Abstract(m), MemAction(m, c), snap) <==> (c.DelCall? && c.key in m.tree && c.key !in m.overlay)
    ensures c.DelCall? && c.key in m.tree && c.key !in m.overlay ==> c.key in Recovered(Abstract(m), snap)
  {
    if !c.RevertCall? {
      assert Lookup(Effective(m), c.key) == RawBytes(m, c.key);
      NamedLater(m.log, snap, c.key);
      if c.DelCall? && c.key in m.tree && c.key !in m.overlay {
        UnnamedKeepsValue(Effective(m), m.log[snap..], c.key);
      }
    }
  }

  lemma {:induction false} OverlayRecovery(m: Mem, calls: seq<Call>, snap: nat)
    requires LiveMem(m, calls, snap) && LogCovered(m) && NonEmptySets(calls)
    ensures var r, r' := Recovered(Abstract(m), snap), Recovered(Abstract(PerformMem(m, calls, snap)), snap);
            && r'.Keys <= r.Keys
            && (DeletesUntouched(m, calls, snap) ==> r.Keys != r'.Keys)
            && (!DeletesUntouched(m, calls, snap) ==> r == r')
    decreases |calls|
  {
    if calls != [] {
      var c := calls[0];
      assert c in calls;
      OverlayRefines(m, c);
      StaysCovered(m, c);
      OverlayEscape(m, c, snap);
      StepChangesRecovery(Abstract(m), MemAction(m, c), snap);
      OverlayRecovery(MemDo(m, c), calls[1..], snap);
    }
  }

  /** A call that changes the overlay and is never undone: deleting a committed key that was not
      written before, or storing an empty encoding under a key that is absent and unlogged since the
      snapshot. */
  ghost predicate Unlogged(m: Mem, c: Call, snap: nat)
    requires snap <= |m.log|
  {
    || (c.DelCall? && c.key in m.tree && c.key !in m.overlay)
    || (c.SetCall? && c.bytes == [] && RawBytes(m, c.key).None? && !Names(m.log[snap..], c.key))
  }

  lemma {:induction false} UnloggedEscapes(m: Mem, c: Call, snap: nat)
    requires LogCovered(m) && snap <= |m.log| && (c.RevertCall? ==> snap <= c.snap <= |m.log|)
    ensures Escapes(Abstract(m), MemAction(m, c), snap) <==> Unlogged(m, c, snap)
  {
    if !c.RevertCall? {
      assert Lookup(Effective(m), c.key) == RawBytes(m, c.key);
      NamedLater(m.log, snap, c.key);
    }
  }

  /** What the last such call of a run left at `k`, if there was one. */
  ghost function LastUnlogged(m: Mem, calls: seq<Call>, snap: nat, k: Key): Option<Option<Bytes>>
    requires LiveMem(m, calls, snap)
    decreases |calls|
  {
    if calls == [] then None
    else
      var later := LastUnlogged(MemDo(m, calls[0]), calls[1..], snap, k);
      if later.Some? || !Unlogged(m, calls[0], snap) || calls[0].key != k then later
      else Some(if calls[0].SetCall? then Some(calls[0].bytes) else None)
  }

  lemma {:induction false} KeyRecovery(m: Mem, calls: seq<Call>, snap: nat, k: Key)
    requires LiveMem(m, calls, snap) && LogCovered(m)
    ensures var last := LastUnlogged(m, calls, snap, k);
      Lookup(Recovered(Abstract(PerformMem(m, calls, snap)), snap), k)
      == if last.Some? then last.value else Lookup(Recovered(Abstract(m), snap), k)
    decreases |calls|
  {
    if calls != [] {
      var c := calls[0];
      OverlayRefines(m, c);
      StaysCovered(m, c);
      UnloggedEscapes(m, c, snap);
      StepChangesRecovery(Abstract(m), MemAction(m, c), snap);
      KeyRecovery(MemDo(m, c), calls[1..], snap, k);
    }
  }

  /** In the overlay, for any interleaving of Set, Del and nested reverts that keeps a snapshot live,
      reverting to it restores exactly the map that held when it was taken, if and only if every
      unlogged call was either followed by another on its key or left what the key held then. */
  lemma RevertRestoresOverlay(m: Mem, calls: seq<Call>)
    requires LiveMem(m, calls, |m.log|) && LogCovered(m)
    ensures Effective(MemDo(PerformMem(m, calls, |m.log|), RevertCall(|m.log|))) == Effective(m) <==>
      forall k ::
        LastUnlogged(m, calls, |m.log|, k).Some? ==> LastUnlogged(m, calls, |m.log|, k).value == RawBytes(m, k)
  {
    var snap := |m.log|;
    var r := Recovered(Abstract(PerformMem(m, calls, snap)), snap);
    OverlayRefines(PerformMem(m, calls, snap), RevertCall(snap));
    assert m.log[snap..] == [];
    forall k
      ensures Lookup(r, k) == Lookup(Effective(m), k) <==>
        (LastUnlogged(m, calls, snap, k).Some? ==> LastUnlogged(m, calls, snap, k).value == RawBytes(m, k))
    {
      KeyRecovery(m, calls, snap, k);
      assert Lookup(Effective(m), k) == RawBytes(m, k);
    }
    if forall k :: LastUnlogged(m, calls, snap, k).Some? ==> LastUnlogged(m, calls, snap, k).value == RawBytes(m, k) {
      forall k ensures Lookup(r, k) == Lookup(Effective(m), k) {
        assert LastUnlogged(m, calls, snap, k).Some? ==> LastUnlogged(m, calls, snap, k).value == RawBytes(m, k);
      }
      SameLookups(r, Effective(m));
    }
  }

  /** For encodings that are never empty: if and only if no call in between deleted a committed key
      before first writing it. */
  lemma RevertRestoresEncoded(m: Mem, calls: seq<Call>)
    requires LiveMem(m, calls, |m.log|) && LogCovered(m) && NonEmptySets(calls)
    ensures Effective(MemDo(PerformMem(m, calls, |m.log|), RevertCall(|m.log|))) == Effective(m)
            <==> !DeletesUntouched(m, calls, |m.log|)
  {
    OverlayRecovery(m, calls, |m.log|);
    OverlayRefines(PerformMem(m, calls, |m.log|), RevertCall(|m.log|));
    assert m.log[|m.log|..] == [];
  }

  /** Such a run exists: delete a committed key and revert. */
  lemma UntouchedDeletionIsLost(k: Key, b: Bytes)
    ensures var m := Mem(map[k := b], map[], []);
            Effective(MemDo(MemDo(m, DelCall(k)), RevertCall(0))) != Effective(m)
  {
    var m := Mem(map[k := b], map[], []);
    var m' := MemDo(MemDo(m, DelCall(k)), RevertCall(0));
    assert Lookup(Effective(m), k) == RawBytes(m, k) == Some(b);
    assert Lookup(Effective(m'), k) == RawBytes(m', k) == None;
  }

  // ----- prefix scans

  predicate HasPrefix(k: Key, p: Bytes) { |p| <= |k| && k[..|p|] == p }

  /** Keys with a given prefix are contiguous from the prefix on. */
  lemma {:induction false} PrefixIsContiguous(p: Bytes, k: Key, k': Key)
    requires Compare(p, k) <= 0 && Compare(k, k') <= 0 && HasPrefix(k', p)
    ensures HasPrefix(k, p)
  {
    if p != [] {
      assert k != [] && k' != [];
      assert k'[0] == k'[..|p|][0] == p[0];
      assert k[0] == p[0];
      assert k'[1..][..|p| - 1] == k'[..|p|][1..] == p[1..];
      PrefixIsContiguous(p[1..], k[1..], k'[1..]);
      assert k[..|p|] == [k[0]] + k[1..][..|p| - 1];
    }
  }

  /** What the tree's iterator yields: all keys from `start` on, in ascending order. */
  ghost predicate Iterates(t: Tree, start: Bytes, keys: seq<Key>) {
    && (forall i, j :: 0 <= i < j < |keys| ==> Compare(keys[i], keys[j]) < 0)
    && (forall k :: k in keys <==> k in t && Compare(start, k) <= 0)
  }

  lemma {:induction false} PrefixStartsTheRange(p: Bytes, k: Key)
    requires HasPrefix(k, p)
    ensures Compare(p, k) <= 0
  {
    if p != [] {
      assert k[0] == k[..|p|][0] == p[0];
      assert k[1..][..|p| - 1] == k[..|p|][1..] == p[1..];
      PrefixStartsTheRange(p[1..], k[1..]);
    }
  }

  /** Seek stops at the first key without the prefix and still visits every key that has it. */
  method Seek<Item>(c: Codec<Item>, t: Tree, prefix: Bytes, keys: seq<Key>) returns (found: seq<(Key, Item)>)
    requires Iterates(t, prefix, keys)
    ensures |found| <= |keys| && forall i :: 0 <= i < |found| ==> found[i].0 == keys[i]
    ensures forall i :: 0 <= i < |found| ==> found[i].0 in t && found[i].1 == c.decode(found[i].0, t[found[i].0])
    ensures forall k :: k in t && HasPrefix(k, prefix) <==> exists i :: 0 <= i < |found| && found[i].0 == k
  {
    found := [];
    var i := 0;
    while i < |keys| && HasPrefix(keys[i], prefix)
      invariant 0 <= i <= |keys| && |found| == i
      invariant forall j :: 0 <= j < i ==> HasPrefix(keys[j], prefix) && found[j].0 == keys[j]
      invariant forall j :: 0 <= j < i ==> found[j].0 in t && found[j].1 == c.decode(found[j].0, t[found[j].0])
    {
      assert keys[i] in keys;
      found := found + [(keys[i], c.decode(keys[i], t[keys[i]]))];
      i := i + 1;
    }
    forall k ensures k in t && HasPrefix(k, prefix) <==> exists j :: 0 <= j < |found| && found[j].0 == k {
      if k in t && HasPrefix(k, prefix) {
        PrefixStartsTheRange(prefix, k);
        assert k in keys;
        var j :| 0 <= j < |keys| && keys[j] == k;
        if j >= i {
          assert keys[i] in keys;
          CompareIsZeroIffEqual(keys[i], k);
          PrefixIsContiguous(prefix, keys[i], k);
        }
        assert found[j].0 == k;
      }
      if exists j :: 0 <= j < |found| && found[j].0 == k {
        var j :| 0 <= j < |found| && found[j].0 == k;
        assert keys[j] in keys;
      }
    }
  }
}
