/** ledger/v1: MutableLedger, MemLedger and StateLedger as objects, each proved to behave as the
    plain maps of Ledger. */
module StateLedger {
  import opened Base
  import opened UndoLog
  import opened Ledger

  /** The committed tier. The tree holds bytes; `cachedObjs` holds decoded objects of some keys. */
  class MutableLedger<Item> {
    const codec: Codec<Item>
    var tree: Tree
    var versions: seq<Tree>
    var revisions: Log
    var cachedObjs: map<Key, Item>

    /** Every cached object is the decoding of the bytes in the tree. */
    ghost predicate Valid()
      reads this
    {
      forall k <- cachedObjs :: k in tree && cachedObjs[k] == codec.decode(k, tree[k])
    }

    ghost function View(): Logged<Key, Bytes>
      reads this
    {
      Logged(tree, revisions)
    }

    constructor (c: Codec<Item>)
      ensures Valid() && View() == Logged(map[], []) && versions == [] && codec == c
    {
      codec, tree, versions, revisions, cachedObjs := c, map[], [], [], map[];
    }

    /** Get never differs from decoding the tree's bytes, whether the cache is hit or not. */
    method Get(key: Key) returns (r: Result<Item, LedgerError>)
      requires Valid()
      modifies this`cachedObjs
      ensures Valid() && r == Read(codec, tree, key)
    {
      if key in cachedObjs {
        return Success(cachedObjs[key]);
      }
      if key !in tree {
        return Failure(NotFoundResult);
      }
      var item := codec.decode(key, tree[key]);
      cachedObjs := cachedObjs[key := item];
      return Success(item);
    }

    method Set(key: Key, item: Item)
      requires Valid() && RoundTrips(codec, key, item)
      modifies this
      ensures Valid() && versions == old(versions)
      ensures View() == Do(old(View()), TreeAction(old(View()), SetCall(key, codec.encode(item))))
      ensures Read(codec, tree, key) == Success(item)
    {
      var oldVal := Lookup(tree, key);
      var newVal := codec.encode(item);
      tree := tree[key := newVal];
      if Differs(oldVal, newVal) {
        revisions := revisions + [Revision(key, oldVal)];
      }
      cachedObjs := cachedObjs[key := item];
    }

    method Del(key: Key)
      requires Valid()
      modifies this
      ensures Valid() && versions == old(versions)
      ensures View() == Do(old(View()), TreeAction(old(View()), DelCall(key)))
      ensures Read(codec, tree, key).Failure?
    {
      if key in tree {
        revisions := revisions + [Revision(key, Some(tree[key]))];
      }
      tree := tree - {key};
      cachedObjs := cachedObjs - {key};
    }

    method Snapshot() returns (snap: nat)
      ensures snap == |revisions|
    {
      snap := |revisions|;
    }

    method RevertToSnapshot(snap: nat)
      requires Valid() && snap <= |revisions|
      modifies this
      ensures Valid() && versions == old(versions)
      ensures View() == Do(old(View()), RevertTo(snap))
    {
      var restores := revisions[snap..];
      var i := |restores|;
      assert restores[..i] == restores;
      while i > 0
        invariant 0 <= i <= |restores| && Valid()
        invariant revisions == old(revisions) && versions == old(versions)
        invariant Undo(tree, restores[..i]) == Undo(old(tree), restores)
      {
        i := i - 1;
        var kv := restores[i];
        assert restores[..i + 1][..i] == restores[..i] && restores[..i + 1][i] == kv;
        if kv.was.Some? {
          tree := tree[kv.key := kv.was.value];
          cachedObjs := cachedObjs[kv.key := codec.decode(kv.key, kv.was.value)];
        } else {
          tree := tree - {kv.key};
          cachedObjs := cachedObjs - {kv.key};
        }
      }
      revisions := revisions[..snap];
    }

    /** Saving a version empties the cache. `revisionList.reset` works on a copy, so the undo log
        stays: a snapshot taken before Commit is still live after it. */
    method Commit() returns (version: nat)
      requires Valid()
      modifies this
      ensures Valid() && View() == old(View())
      ensures versions == old(versions) + [tree] && version == |versions|
    {
      versions := versions + [tree];
      cachedObjs := map[];
      version := |versions|;
    }
  }

  /** The speculative tier over one saved version of the tree. */
  class MemLedger<Item> {
    const codec: Codec<Item>
    const immuTree: Tree
    var memStorage: map<Key, Option<Bytes>>
    var revisions: Log

    ghost function View(): Mem
      reads this
    {
      Mem(immuTree, memStorage, revisions)
    }

    constructor (c: Codec<Item>, t: Tree)
      ensures View() == Mem(t, map[], []) && codec == c
      ensures Effective(View()) == t && LogCovered(View())
    {
      codec, immuTree, memStorage, revisions := c, t, map[], [];
      new;
      forall k ensures Lookup(Effective(View()), k) == Lookup(t, k) {
        assert Lookup(Effective(View()), k) == RawBytes(View(), k);
      }
      SameLookups(Effective(View()), t);
    }

    method Get(key: Key) returns (r: Result<Item, LedgerError>)
      ensures r == Read(codec, Effective(View()), key)
    {
      assert Lookup(Effective(View()), key) == RawBytes(View(), key);
      var bz := if key in memStorage then memStorage[key] else Lookup(immuTree, key);
      if bz.None? {
        return Failure(NotFoundResult);
      }
      return Success(codec.decode(key, bz.value));
    }

    method Set(key: Key, item: Item)
      modifies this
      ensures View() == MemDo(old(View()), SetCall(key, codec.encode(item)))
    {
      var oldVal := if key in memStorage then memStorage[key] else Lookup(immuTree, key);
      var newVal := codec.encode(item);
      if Differs(oldVal, newVal) {
        revisions := revisions + [Revision(key, oldVal)];
      }
      memStorage := memStorage[key := Some(newVal)];
    }

    method Del(key: Key)
      modifies this
      ensures View() == MemDo(old(View()), DelCall(key))
    {
      if key in memStorage {
        revisions := revisions + [Revision(key, memStorage[key])];
      }
      memStorage := memStorage[key := None];
    }

    method Snapshot() returns (snap: nat)
      ensures snap == |revisions|
    {
      snap := |revisions|;
    }

    method RevertToSnapshot(snap: nat)
      requires snap <= |revisions|
      modifies this
      ensures View() == MemDo(old(View()), RevertCall(snap))
    {
      var restores := revisions[snap..];
      var i := |restores|;
      assert restores[..i] == restores;
      while i > 0
        invariant 0 <= i <= |restores| && revisions == old(revisions)
        invariant RestoreAll(memStorage, restores[..i]) == RestoreAll(old(memStorage), restores)
      {
        i := i - 1;
        assert restores[..i + 1][..i] == restores[..i] && restores[..i + 1][i] == restores[i];
        memStorage := memStorage[restores[i].key := restores[i].was];
      }
      revisions := revisions[..snap];
    }
  }

  /** Two tiers: `exec` calls go to the committed tier, the others to the overlay. */
  class StateLedger<Item> {
    const commitLedger: MutableLedger<Item>
    var imitableLedger: MemLedger<Item>

    ghost predicate Valid()
      reads this, commitLedger, imitableLedger
    {
      && commitLedger.Valid()
      && imitableLedger.codec == commitLedger.codec
      && LogCovered(imitableLedger.View())
    }

    /** What each tier reads. */
    ghost function Committed(): Tree reads this, commitLedger { commitLedger.tree }

    ghost function Speculative(): Tree reads this, imitableLedger { Effective(imitableLedger.View()) }

    constructor (c: Codec<Item>)
      ensures Valid() && fresh(commitLedger) && fresh(imitableLedger)
      ensures Committed() == map[] && Speculative() == map[]
    {
      commitLedger := new MutableLedger(c);
      imitableLedger := new MemLedger(c, map[]);
    }

    method Get(key: Key, exec: bool) returns (r: Result<Item, LedgerError>)
      requires Valid()
      modifies commitLedger`cachedObjs
      ensures Valid() && Speculative() == old(Speculative())
      ensures r == Read(commitLedger.codec, if exec then Committed() else Speculative(), key)
    {
      if exec { r := commitLedger.Get(key); } else { r := imitableLedger.Get(key); }
    }

    /** A write reaches only its own tier. */
    method Set(key: Key, item: Item, exec: bool)
      requires Valid() && RoundTrips(commitLedger.codec, key, item)
      modifies commitLedger, imitableLedger
      ensures Valid()
      ensures exec ==>
        Committed() == old(Committed())[key := commitLedger.codec.encode(item)] && Speculative() == old(Speculative())
      ensures !exec ==>
        Speculative() == old(Speculative())[key := commitLedger.codec.encode(item)] && Committed() == old(Committed())
    {
      if exec {
        commitLedger.Set(key, item);
      } else {
        var b := SetCall(key, imitableLedger.codec.encode(item));
        OverlayRefines(imitableLedger.View(), b);
        StaysCovered(imitableLedger.View(), b);
        imitableLedger.Set(key, item);
      }
    }

    method Del(key: Key, exec: bool)
      requires Valid()
      modifies commitLedger, imitableLedger
      ensures Valid()
      ensures exec ==> Committed() == old(Committed()) - {key} && Speculative() == old(Speculative())
      ensures !exec ==> Speculative() == old(Speculative()) - {key} && Committed() == old(Committed())
    {
      if exec {
        commitLedger.Del(key);
      } else {
        OverlayRefines(imitableLedger.View(), DelCall(key));
        StaysCovered(imitableLedger.View(), DelCall(key));
        imitableLedger.Del(key);
      }
    }

    /** After Commit both tiers read the same map: the one the committed tier held before. */
    method Commit() returns (version: nat)
      requires Valid()
      modifies this, commitLedger
      ensures Valid() && fresh(imitableLedger)
      ensures Committed() == old(Committed()) == Speculative()
      ensures commitLedger.versions == old(commitLedger.versions) + [Committed()] && version == |commitLedger.versions|
    {
      version := commitLedger.Commit();
      imitableLedger := new MemLedger(commitLedger.codec, commitLedger.versions[version - 1]);
    }
  }
}
