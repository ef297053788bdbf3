/** ctrlers/vpower/ctrler_valset.go and the two orders of delegatee.go: choosing the validators
    of the next block and telling the consensus engine what changed. */
module ValidatorSet {
  import opened Base
  import opened Stake

  type Order = (Delegatee, Delegatee) -> bool

  /** OrderByPowerDelegatees.Less: more power first, then more self power, then the smaller key. */
  predicate PowerLess(a: Delegatee, b: Delegatee) {
    if a.sum != b.sum then a.sum > b.sum
    else if a.self != b.self then a.self > b.self
    else Compare(a.pubKey, b.pubKey) < 0
  }

  /** OrderByPubDelegatees.Less. */
  predicate PubLess(a: Delegatee, b: Delegatee) { Compare(a.pubKey, b.pubKey) < 0 }

  ghost predicate DistinctKeys(ds: seq<Delegatee>) {
    forall i, j :: 0 <= i < j < |ds| ==> ds[i].pubKey != ds[j].pubKey
  }

  /** A strict order that compares any two delegatees with different keys. */
  ghost predicate OrdersKeys(less: Order) {
    && (forall a, b :: less(a, b) ==> !less(b, a))
    && (forall a, b, c :: less(a, b) && less(b, c) ==> less(a, c))
    && (forall a: Delegatee, b: Delegatee :: a.pubKey != b.pubKey ==> less(a, b) || less(b, a))
  }

  lemma PubLessOrdersKeys()
    ensures OrdersKeys(PubLess)
  {
    forall a: Delegatee, b: Delegatee
      ensures Compare(a.pubKey, b.pubKey) == -Compare(b.pubKey, a.pubKey)
      ensures Compare(a.pubKey, b.pubKey) == 0 ==> a.pubKey == b.pubKey
    {
      CompareIsAntisymmetric(a.pubKey, b.pubKey);
      CompareIsZeroIffEqual(a.pubKey, b.pubKey);
    }
    forall a, b, c | PubLess(a, b) && PubLess(b, c) ensures PubLess(a, c) {
      CompareIsTransitive(a.pubKey, b.pubKey, c.pubKey);
    }
  }

  /** The power order is a strict total order on delegatees with different keys. */
  lemma PowerLessOrdersKeys()
    ensures OrdersKeys(PowerLess)
  {
    PubLessOrdersKeys();
    forall a, b, c | PowerLess(a, b) && PowerLess(b, c) ensures PowerLess(a, c) {
      if a.sum == b.sum == c.sum && a.self == b.self == c.self {
        assert PubLess(a, b) && PubLess(b, c);
        assert PubLess(a, c);
      }
    }
    forall a, b | PowerLess(a, b) ensures !PowerLess(b, a) {
      assert PubLess(a, b) ==> !PubLess(b, a);
    }
    forall a: Delegatee, b: Delegatee | a.pubKey != b.pubKey ensures PowerLess(a, b) || PowerLess(b, a) {
      assert PubLess(a, b) || PubLess(b, a);
    }
  }

  // ----- sorting

  ghost predicate Sorted(less: Order, s: seq<Delegatee>) {
    forall i, j :: 0 <= i < j < |s| ==> less(s[i], s[j])
  }

  function Insert(less: Order, x: Delegatee, s: seq<Delegatee>): seq<Delegatee> {
    if s == [] then [x]
    else if less(x, s[0]) then [x] + s
    else [s[0]] + Insert(less, x, s[1..])
  }

  /** `sort.Sort`, as some sorting function. */
  function Sort(less: Order, s: seq<Delegatee>): seq<Delegatee> {
    if s == [] then [] else Insert(less, s[0], Sort(less, s[1..]))
  }

  lemma {:induction false} InsertPermutes(less: Order, x: Delegatee, s: seq<Delegatee>)
    ensures multiset(Insert(less, x, s)) == multiset{x} + multiset(s)
  {
    if s != [] && !less(x, s[0]) {
      InsertPermutes(less, x, s[1..]);
      assert s == [s[0]] + s[1..];
    }
  }

  lemma {:induction false} SortPermutes(less: Order, s: seq<Delegatee>)
    ensures multiset(Sort(less, s)) == multiset(s)
  {
    if s != [] {
      SortPermutes(less, s[1..]);
      InsertPermutes(less, s[0], Sort(less, s[1..]));
      assert s == [s[0]] + s[1..];
    }
  }

  lemma {:induction false} InsertSorts(less: Order, x: Delegatee, s: seq<Delegatee>)
    requires OrdersKeys(less) && Sorted(less, s) && forall y <- s :: y.pubKey != x.pubKey
    ensures Sorted(less, Insert(less, x, s))
  {
    if s != [] {
      if less(x, s[0]) {
        var r := [x] + s;
        forall i, j | 0 <= i < j < |r| ensures less(r[i], r[j]) {
          if i == 0 && j > 1 { assert less(s[0], s[j - 1]); }
        }
      } else {
        InsertSorts(less, x, s[1..]);
        var t := Insert(less, x, s[1..]);
        InsertPermutes(less, x, s[1..]);
        forall y <- t ensures less(s[0], y) {
          assert y in multiset(t);
          assert y == x || y in s[1..];
        }
      }
    }
  }

  ghost predicate SameElements(a: seq<Delegatee>, b: seq<Delegatee>) { multiset(a) == multiset(b) }

  lemma {:induction false} MembersAgree(a: seq<Delegatee>, b: seq<Delegatee>, x: Delegatee)
    requires SameElements(a, b)
    ensures x in a <==> x in b
  {
    assert x in multiset(a) <==> x in multiset(b);
  }

  lemma {:induction false} SortSorts(less: Order, s: seq<Delegatee>)
    requires OrdersKeys(less) && DistinctKeys(s)
    ensures Sorted(less, Sort(less, s)) && SameElements(Sort(less, s), s)
  {
    SortPermutes(less, s);
    if s != [] {
      var t := Sort(less, s[1..]);
      SortSorts(less, s[1..]);
      forall y <- t ensures y.pubKey != s[0].pubKey {
        MembersAgree(t, s[1..], y);
      }
      InsertSorts(less, s[0], t);
    }
  }

  /** Two sorted arrangements of the same elements are the same sequence. */
  lemma {:induction false} SortedIsUnique(less: Order, a: seq<Delegatee>, b: seq<Delegatee>)
    requires (forall x, y :: less(x, y) ==> !less(y, x))
    requires Sorted(less, a) && Sorted(less, b) && SameElements(a, b)
    ensures a == b
  {
    hide Sorted;
    assert |a| == |multiset(a)| && |b| == |multiset(b)|;
    if a != [] {
      SortedHeadsAgree(less, a, b);
      TailElements(a);
      TailElements(b);
      SortedTail(less, a);
      SortedTail(less, b);
      SortedIsUnique(less, a[1..], b[1..]);
      assert a == [a[0]] + a[1..] && b == [b[0]] + b[1..];
    }
  }

  lemma {:induction false} TailElements(a: seq<Delegatee>)
    requires a != []
    ensures multiset(a[1..]) == multiset(a) - multiset{a[0]}
  {
    assert a == [a[0]] + a[1..];
  }

  lemma {:induction false} SortedTail(less: Order, a: seq<Delegatee>)
    requires Sorted(less, a) && a != []
    ensures Sorted(less, a[1..])
  {
  }

  lemma {:induction false} SortedHeadsAgree(less: Order, a: seq<Delegatee>, b: seq<Delegatee>)
    requires (forall x, y :: less(x, y) ==> !less(y, x))
    requires Sorted(less, a) && Sorted(less, b) && SameElements(a, b) && a != [] && b != []
    ensures a[0] == b[0]
  {
    MembersAgree(a, b, a[0]);
    MembersAgree(a, b, b[0]);
    var i :| 0 <= i < |b| && b[i] == a[0];
    var j :| 0 <= j < |a| && a[j] == b[0];
  }

  // ----- selection

  function Min(a: nat, b: nat): nat { if a < b then a else b }

  /** selectValidators: the first `maxVals` in power order. */
  function Select(ds: seq<Delegatee>, maxVals: nat): seq<Delegatee> {
    var s := Sort(PowerLess, ds);
    s[..Min(|s|, maxVals)]
  }

  lemma PermutedKeysAreDistinct(a: seq<Delegatee>, b: seq<Delegatee>)
    requires DistinctKeys(a) && SameElements(a, b)
    ensures DistinctKeys(b)
  {
    forall i, j | 0 <= i < j < |b| ensures b[i].pubKey != b[j].pubKey {
      MembersAgree(a, b, b[i]);
      MembersAgree(a, b, b[j]);
      var p :| 0 <= p < |a| && a[p] == b[i];
      var q :| 0 <= q < |a| && a[q] == b[j];
      if p == q {
        CountAtLeastTwo(b, i, j);
        CountAtMostOne(a, p);
        assert false;
      }
    }
  }

  lemma CountAtLeastTwo(b: seq<Delegatee>, i: nat, j: nat)
    requires i < j < |b| && b[i] == b[j]
    ensures multiset(b)[b[i]] >= 2
  {
    assert b == b[..j] + b[j..];
    assert b[i] in b[..j] && b[j] in b[j..];
    assert b[i] in multiset(b[..j]) && b[j] in multiset(b[j..]);
  }

  lemma CountAtMostOne(a: seq<Delegatee>, p: nat)
    requires DistinctKeys(a) && p < |a|
    ensures multiset(a)[a[p]] <= 1
  {
    assert a == a[..p] + [a[p]] + a[p + 1..];
    assert a[p] !in a[..p] && a[p] !in a[p + 1..];
    assert a[p] !in multiset(a[..p]) && a[p] !in multiset(a[p + 1..]);
  }

  /** The selection does not depend on the order in which the delegatees are listed. */
  lemma SelectionIgnoresOrder(ds: seq<Delegatee>, ds': seq<Delegatee>, maxVals: nat)
    requires DistinctKeys(ds) && SameElements(ds, ds')
    ensures Select(ds, maxVals) == Select(ds', maxVals)
  {
    PowerLessOrdersKeys();
    PermutedKeysAreDistinct(ds, ds');
    SortSorts(PowerLess, ds);
    SortSorts(PowerLess, ds');
    SortedIsUnique(PowerLess, Sort(PowerLess, ds), Sort(PowerLess, ds'));
  }

  /** Every selected delegatee outranks every one left out, and nothing is lost or invented. */
  lemma SelectedOutrankTheRest(ds: seq<Delegatee>, maxVals: nat) returns (rest: seq<Delegatee>)
    requires DistinctKeys(ds)
    ensures var sel := Select(ds, maxVals);
            && |sel| == Min(|ds|, maxVals)
            && multiset(sel) + multiset(rest) == multiset(ds)
            && forall x <- sel, y <- rest :: PowerLess(x, y)
  {
    PowerLessOrdersKeys();
    SortSorts(PowerLess, ds);
    var s := Sort(PowerLess, ds);
    assert |s| == |multiset(s)| == |ds|;
    var k := Min(|s|, maxVals);
    rest := s[k..];
    assert s == s[..k] + s[k..];
  }

  /** A running node keeps its validators in key order; a restarted one keeps them in power order. */
  function RunningValidators(ds: seq<Delegatee>, maxVals: nat): seq<Delegatee> {
    Sort(PubLess, Select(ds, maxVals))
  }

  function ReloadedValidators(ds: seq<Delegatee>, maxVals: nat): seq<Delegatee> { Select(ds, maxVals) }

  /** Reloading after a restart rebuilds the same set of validators, however the ledger lists the
      delegatees. The order is the same exactly when power order is also key order. */
  lemma RestartRebuildsTheSet(ds: seq<Delegatee>, ds': seq<Delegatee>, maxVals: nat)
    requires DistinctKeys(ds) && SameElements(ds, ds')
    ensures SameElements(RunningValidators(ds, maxVals), ReloadedValidators(ds', maxVals))
    ensures RunningValidators(ds, maxVals) == ReloadedValidators(ds', maxVals) <==> Sorted(PubLess, Select(ds, maxVals))
  {
    var sel := Select(ds, maxVals);
    SelectionIgnoresOrder(ds, ds', maxVals);
    PubLessOrdersKeys();
    SortPermutes(PubLess, sel);
    SelectedKeysAreDistinct(ds, maxVals);
    SortSorts(PubLess, sel);
    if Sorted(PubLess, sel) {
      SortedIsUnique(PubLess, sel, Sort(PubLess, sel));
    }
  }

  lemma SelectedKeysAreDistinct(ds: seq<Delegatee>, maxVals: nat)
    requires DistinctKeys(ds)
    ensures DistinctKeys(Select(ds, maxVals))
  {
    SortPermutes(PowerLess, ds);
    PermutedKeysAreDistinct(ds, Sort(PowerLess, ds));
  }

  // ----- the difference between two validator sets

  datatype Update = Update(pubKey: PubKey, power: int)

  function Removals(ds: seq<Delegatee>): seq<Update> {
    if ds == [] then [] else [Update(ds[0].pubKey, 0)] + Removals(ds[1..])
  }

  function Additions(ds: seq<Delegatee>): seq<Update> {
    if ds == [] then [] else [Update(ds[0].pubKey, ds[0].sum)] + Additions(ds[1..])
  }

  /** The merge of two key-sorted lists into removals, additions and changes. */
  function Diff(last: seq<Delegatee>, next: seq<Delegatee>): seq<Update>
    decreases |last| + |next|
  {
    if last == [] then Additions(next)
    else if next == [] then Removals(last)
    else
      var c := Compare(last[0].pubKey, next[0].pubKey);
      if c < 0 then [Update(last[0].pubKey, 0)] + Diff(last[1..], next)
      else if c > 0 then [Update(next[0].pubKey, next[0].sum)] + Diff(last, next[1..])
      else (if last[0].sum != next[0].sum then [Update(next[0].pubKey, next[0].sum)] else []) + Diff(last[1..],
          next[1..])
  }

  /** The power listed for a key, if the key is listed. */
  function PowerAt(ds: seq<Delegatee>, k: PubKey): Option<int> {
    if ds == [] then None else if ds[0].pubKey == k then Some(ds[0].sum) else PowerAt(ds[1..], k)
  }

  function UpdateAt(us: seq<Update>, k: PubKey): Option<int> {
    if us == [] then None else if us[0].pubKey == k then Some(us[0].power) else UpdateAt(us[1..], k)
  }

  ghost predicate KeySorted(ds: seq<Delegatee>) {
    |ds| <= 1 || (PubLess(ds[0], ds[1]) && KeySorted(ds[1..]))
  }

  lemma {:induction false} SortedIsKeySorted(ds: seq<Delegatee>)
    requires Sorted(PubLess, ds)
    ensures KeySorted(ds)
  {
    if |ds| > 1 { SortedIsKeySorted(ds[1..]); }
  }

  /** A key below the first of a sorted list is not listed. */
  lemma {:induction false} BelowFirstIsAbsent(ds: seq<Delegatee>, k: PubKey)
    requires KeySorted(ds) && (ds != [] ==> Compare(k, ds[0].pubKey) < 0)
    ensures PowerAt(ds, k) == None
  {
    if ds != [] {
      CompareIsZeroIffEqual(k, ds[0].pubKey);
      if |ds| > 1 { CompareIsTransitive(k, ds[0].pubKey, ds[1].pubKey); }
      BelowFirstIsAbsent(ds[1..], k);
    }
  }

  lemma {:induction false} HeadAbsentFromTail(ds: seq<Delegatee>)
    requires ds != [] && KeySorted(ds)
    ensures KeySorted(ds[1..]) && PowerAt(ds[1..], ds[0].pubKey) == None
  {
    BelowFirstIsAbsent(ds[1..], ds[0].pubKey);
  }

  /** What an update for key `k` must say: nothing if nothing changed, else the new power or 0. */
  function WantedUpdate(last: seq<Delegatee>, next: seq<Delegatee>, k: PubKey): Option<int> {
    if PowerAt(last, k) == PowerAt(next, k) then None
    else if PowerAt(next, k).Some? then PowerAt(next, k) else Some(0)
  }

  lemma {:induction false} AdditionsAreWanted(ds: seq<Delegatee>, k: PubKey)
    requires KeySorted(ds)
    ensures UpdateAt(Additions(ds), k) == WantedUpdate([], ds, k)
  {
    if ds != [] {
      HeadAbsentFromTail(ds);
      AdditionsAreWanted(ds[1..], k);
      assert Additions(ds)[1..] == Additions(ds[1..]);
    }
  }

  lemma {:induction false} RemovalsAreWanted(ds: seq<Delegatee>, k: PubKey)
    requires KeySorted(ds)
    ensures UpdateAt(Removals(ds), k) == WantedUpdate(ds, [], k)
  {
    if ds != [] {
      HeadAbsentFromTail(ds);
      RemovalsAreWanted(ds[1..], k);
      assert Removals(ds)[1..] == Removals(ds[1..]);
    }
  }

  /** The difference names a key exactly when its membership or power changed, with its new power
      (0 for a removal). */
  lemma {:induction false} DiffIsMinimal(last: seq<Delegatee>, next: seq<Delegatee>, k: PubKey)
    requires KeySorted(last) && KeySorted(next)
    ensures UpdateAt(Diff(last, next), k) == WantedUpdate(last, next, k)
    decreases |last| + |next|
  {
    hide Compare; hide KeySorted;
    if last == [] {
      AdditionsAreWanted(next, k);
    } else if next == [] {
      RemovalsAreWanted(last, k);
    } else {
      var a, b := last[0].pubKey, next[0].pubKey;
      CompareIsZeroIffEqual(a, b);
      CompareIsAntisymmetric(a, b);
      HeadAbsentFromTail(last);
      HeadAbsentFromTail(next);
      var us := Diff(last, next);
      if Compare(a, b) < 0 {
        BelowFirstIsAbsent(next, a);
        DiffIsMinimal(last[1..], next, k);
        assert us[1..] == Diff(last[1..], next);
      } else if Compare(a, b) > 0 {
        BelowFirstIsAbsent(last, b);
        DiffIsMinimal(last, next[1..], k);
        assert us[1..] == Diff(last, next[1..]);
      } else {
        DiffIsMinimal(last[1..], next[1..], k);
        if last[0].sum != next[0].sum {
          assert us[1..] == Diff(last[1..], next[1..]);
        } else {
          assert us == Diff(last[1..], next[1..]);
        }
      }
    }
  }

  ghost predicate AfterKey(k: PubKey, ds: seq<Delegatee>) { ds == [] || Compare(k, ds[0].pubKey) < 0 }

  ghost predicate UpdatesAfter(k: PubKey, us: seq<Update>)
    decreases |us|
  {
    us == [] || (Compare(k, us[0].pubKey) < 0 && UpdatesAfter(us[0].pubKey, us[1..]))
  }

  /** Strictly increasing keys. */
  ghost predicate Increasing(us: seq<Update>) { us == [] || UpdatesAfter(us[0].pubKey, us[1..]) }

  lemma {:induction false} ListsAreIncreasing(k: PubKey, ds: seq<Delegatee>)
    requires KeySorted(ds) && AfterKey(k, ds)
    ensures UpdatesAfter(k, Additions(ds)) && UpdatesAfter(k, Removals(ds))
    decreases |ds|
  {
    if ds != [] {
      ListsAreIncreasing(ds[0].pubKey, ds[1..]);
      assert Additions(ds)[1..] == Additions(ds[1..]) && Removals(ds)[1..] == Removals(ds[1..]);
    }
  }

  lemma UpdatesAfterWeaken(j: PubKey, k: PubKey, us: seq<Update>)
    requires Compare(j, k) < 0 && UpdatesAfter(k, us)
    ensures UpdatesAfter(j, us)
  {
    if us != [] { CompareIsTransitive(j, k, us[0].pubKey); }
  }

  lemma {:induction false} DiffIsAfter(k: PubKey, last: seq<Delegatee>, next: seq<Delegatee>)
    requires KeySorted(last) && KeySorted(next) && AfterKey(k, last) && AfterKey(k, next)
    ensures UpdatesAfter(k, Diff(last, next))
    decreases |last| + |next|
  {
    if last == [] {
      ListsAreIncreasing(k, next);
    } else if next == [] {
      ListsAreIncreasing(k, last);
    } else {
      var a, b := last[0].pubKey, next[0].pubKey;
      CompareIsZeroIffEqual(a, b);
      CompareIsAntisymmetric(a, b);
      var us := Diff(last, next);
      if Compare(a, b) < 0 {
        DiffIsAfter(a, last[1..], next);
        assert us[1..] == Diff(last[1..], next);
      } else if Compare(a, b) > 0 {
        DiffIsAfter(b, last, next[1..]);
        assert us[1..] == Diff(last, next[1..]);
      } else {
        DiffIsAfter(a, last[1..], next[1..]);
        if last[0].sum != next[0].sum {
          assert us[1..] == Diff(last[1..], next[1..]);
        } else {
          assert us == Diff(last[1..], next[1..]);
          UpdatesAfterWeaken(k, a, us);
        }
      }
    }
  }

  /** Updates come in strictly increasing key order, so no key is named twice. */
  lemma {:induction false} DiffIsIncreasing(last: seq<Delegatee>, next: seq<Delegatee>)
    requires KeySorted(last) && KeySorted(next)
    ensures Increasing(Diff(last, next))
    decreases |last| + |next|
  {
    var us := Diff(last, next);
    if last == [] || next == [] {
      var ds := if last == [] then next else last;
      if ds != [] {
        ListsAreIncreasing(ds[0].pubKey, ds[1..]);
        assert Additions(ds)[1..] == Additions(ds[1..]) && Removals(ds)[1..] == Removals(ds[1..]);
      }
    } else {
      var a, b := last[0].pubKey, next[0].pubKey;
      CompareIsZeroIffEqual(a, b);
      CompareIsAntisymmetric(a, b);
      if Compare(a, b) < 0 {
        DiffIsAfter(a, last[1..], next);
        assert us[1..] == Diff(last[1..], next);
      } else if Compare(a, b) > 0 {
        DiffIsAfter(b, last, next[1..]);
        assert us[1..] == Diff(last, next[1..]);
      } else if last[0].sum != next[0].sum {
        DiffIsAfter(a, last[1..], next[1..]);
        assert us[1..] == Diff(last[1..], next[1..]);
      } else {
        DiffIsIncreasing(last[1..], next[1..]);
        assert us == Diff(last[1..], next[1..]);
      }
    }
  }

  // ----- what the consensus engine makes of the updates

  /** The validator set as the consensus engine holds it. */
  type Powers = map<PubKey, int>

  function PowersOf(ds: seq<Delegatee>): Powers {
    if ds == [] then map[] else PowersOf(ds[1..])[ds[0].pubKey := ds[0].sum]
  }

  /** Each update sets a power; power 0 removes the validator. */
  function ApplyUpdates(m: Powers, us: seq<Update>): Powers
    decreases |us|
  {
    if us == [] then m
    else ApplyUpdates(if us[0].power == 0 then m - {us[0].pubKey} else m[us[0].pubKey := us[0].power], us[1..])
  }

  lemma {:induction false} PowersOfLooksUp(ds: seq<Delegatee>, k: PubKey)
    ensures Lookup(PowersOf(ds), k) == PowerAt(ds, k)
  {
    if ds != [] { PowersOfLooksUp(ds[1..], k); }
  }

  lemma {:induction false} NotNamedBelow(k: PubKey, us: seq<Update>)
    requires UpdatesAfter(k, us)
    ensures UpdateAt(us, k) == None
  {
    if us != [] {
      CompareIsZeroIffEqual(k, us[0].pubKey);
      UpdatesAfterWeaken(k, us[0].pubKey, us[1..]);
      NotNamedBelow(k, us[1..]);
    }
  }

  lemma {:induction false} ApplyLooksUp(m: Powers, us: seq<Update>, k: PubKey)
    requires Increasing(us)
    ensures var u := UpdateAt(us, k);
            Lookup(ApplyUpdates(m, us), k) == if u.None? then Lookup(m, k) else if u.value == 0 then None else u
    decreases |us|
  {
    if us != [] {
      var m' := if us[0].power == 0 then m - {us[0].pubKey} else m[us[0].pubKey := us[0].power];
      ApplyLooksUp(m', us[1..], k);
      NotNamedBelow(us[0].pubKey, us[1..]);
    }
  }

  /** No validator enters, or changes, to power 0. */
  ghost predicate NoNewZero(last: seq<Delegatee>, next: seq<Delegatee>) {
    forall d <- next :: d.sum == 0 ==> PowerAt(last, d.pubKey) == Some(0)
  }

  lemma {:induction false} ListedAt(ds: seq<Delegatee>, d: Delegatee)
    requires KeySorted(ds) && d in ds
    ensures PowerAt(ds, d.pubKey) == Some(d.sum)
  {
    HeadAbsentFromTail(ds);
    if d != ds[0] {
      ListedAt(ds[1..], d);
    }
  }

  lemma {:induction false} ListedBy(ds: seq<Delegatee>, k: PubKey) returns (d: Delegatee)
    requires PowerAt(ds, k).Some?
    ensures d in ds && d.pubKey == k && PowerAt(ds, k) == Some(d.sum)
  {
    if ds[0].pubKey == k { d := ds[0]; } else { d := ListedBy(ds[1..], k); }
  }

  lemma DiffLookup(last: seq<Delegatee>, next: seq<Delegatee>, k: PubKey)
    requires KeySorted(last) && KeySorted(next)
    ensures var u := WantedUpdate(last, next, k);
            Lookup(ApplyUpdates(PowersOf(last), Diff(last, next)), k) ==
            if u.None? then PowerAt(last, k) else if u.value == 0 then None else u
  {
    DiffIsIncreasing(last, next);
    ApplyLooksUp(PowersOf(last), Diff(last, next), k);
    DiffIsMinimal(last, next, k);
    PowersOfLooksUp(last, k);
  }

  /** Applying the difference to the old set gives exactly the new set if and only if no validator
      enters with power 0 or falls to it (the engine reads power 0 as a removal). */
  lemma DiffIsExact(last: seq<Delegatee>, next: seq<Delegatee>)
    requires KeySorted(last) && KeySorted(next)
    ensures ApplyUpdates(PowersOf(last), Diff(last, next)) == PowersOf(next) <==> NoNewZero(last, next)
  {
    var got, want := ApplyUpdates(PowersOf(last), Diff(last, next)), PowersOf(next);
    if NoNewZero(last, next) {
      forall k ensures Lookup(got, k) == Lookup(want, k) {
        DiffLookup(last, next, k);
        PowersOfLooksUp(next, k);
        if PowerAt(next, k) == Some(0) {
          var d := ListedBy(next, k);
        }
      }
      SameLookups(got, want);
    } else {
      var d :| d in next && d.sum == 0 && PowerAt(last, d.pubKey) != Some(0);
      DiffLookup(last, next, d.pubKey);
      PowersOfLooksUp(next, d.pubKey);
      ListedAt(next, d);
      assert Lookup(got, d.pubKey) != Lookup(want, d.pubKey);
    }
  }

  // ----- the methods

  lemma InsertPasses(less: Order, x: Delegatee, s: seq<Delegatee>, n: nat)
    requires n < |s| && !less(x, s[n])
    ensures s[..n] + Insert(less, x, s[n..]) == s[..n + 1] + Insert(less, x, s[n + 1..])
  {
    assert s[n..][0] == s[n] && s[n..][1..] == s[n + 1..] && s[..n] + [s[n]] == s[..n + 1];
  }

  lemma InsertStops(less: Order, x: Delegatee, s: seq<Delegatee>, n: nat)
    requires n <= |s| && (n == |s| || less(x, s[n]))
    ensures s[..n] + Insert(less, x, s[n..]) == s[..n] + [x] + s[n..]
  {
    assert s[n..] != [] ==> s[n..][0] == s[n];
  }

  /** `x` standing behind the first `n` of `rest`. */
  function Placed(head: seq<Delegatee>, rest: seq<Delegatee>, n: nat, x: Delegatee): seq<Delegatee>
    requires n <= |rest|
  {
    head + rest[..n] + [x] + rest[n..]
  }

  lemma PlacedAt(head: seq<Delegatee>, rest: seq<Delegatee>, n: nat, x: Delegatee)
    requires n <= |rest|
    ensures var s, k := Placed(head, rest, n, x), |head| + n;
      && |s| == |head| + |rest| + 1 && s[k] == x
      && (n < |rest| ==> s[k + 1] == rest[n] && s[k := s[k + 1]][k + 1 := x] == Placed(head, rest, n + 1, x))
  {
  }

  method SwapNext(a: array<Delegatee>, k: nat)
    requires k + 1 < a.Length
    modifies a
    ensures a[..] == old(a[..])[k := old(a[..])[k + 1]][k + 1 := old(a[..])[k]]
  {
    a[k], a[k + 1] := a[k + 1], a[k];
  }

  /** Move the element at `i` up, by swaps, to its place in the sorted rest. */
  method InsertInPlace(less: Order, a: array<Delegatee>, i: nat)
    requires i < a.Length
    modifies a
    ensures a[..] == old(a[..i]) + Insert(less, old(a[i]), old(a[i + 1..]))
  {
    ghost var head, x, rest := a[..i], a[i], a[i + 1..];
    var n := 0;
    assert a[..] == Placed(head, rest, 0, x) && rest[..0] + Insert(less, x, rest[0..]) == Insert(less, x, rest) by {
      assert rest[0..] == rest;
    }
    hide Insert;
    hide Placed;
    while i + n + 1 < a.Length && !less(a[i + n], a[i + n + 1])
      invariant n <= |rest| && a[..] == Placed(head, rest, n, x)
      invariant Insert(less, x, rest) == rest[..n] + Insert(less, x, rest[n..])
    {
      PlacedAt(head, rest, n, x);
      InsertPasses(less, x, rest, n);
      SwapNext(a, i + n);
      n := n + 1;
    }
    PlacedAt(head, rest, n, x);
    InsertStops(less, x, rest, n);
    PlacedInOrder(head, rest, n, x);
  }

  lemma PlacedInOrder(head: seq<Delegatee>, rest: seq<Delegatee>, n: nat, x: Delegatee)
    requires n <= |rest|
    ensures Placed(head, rest, n, x) == head + (rest[..n] + [x] + rest[n..])
  {
  }

  /** sort.Sort on an array: sorted whenever the order tells the elements apart, a permutation, and
      for such elements the only possible outcome. */
  method SortInPlace(less: Order, a: array<Delegatee>)
    modifies a
    ensures SameElements(a[..], old(a[..]))
    ensures OrdersKeys(less) && DistinctKeys(old(a[..])) ==> Sorted(less, a[..])
    ensures a[..] == Sort(less, old(a[..]))
  {
    ghost var s := a[..];
    var i := a.Length;
    assert s[i..] == [];
    while i > 0
      invariant 0 <= i <= a.Length && a[..i] == s[..i] && a[i..] == Sort(less, s[i..])
    {
      i := i - 1;
      assert s[i..][0] == s[i] == a[..i + 1][i] && s[i..][1..] == s[i + 1..];
      assert a[..i] == a[..i + 1][..i] == s[..i];
      InsertInPlace(less, a, i);
      assert a[..i] == a[..][..i] == s[..i] && a[i..] == a[..][i..];
    }
    assert s[0..] == s && a[0..] == a[..];
    SortPermutes(less, s);
    if OrdersKeys(less) && DistinctKeys(s) { SortSorts(less, s); }
  }

  method SelectValidators(delegatees: array<Delegatee>, maxVals: nat) returns (ret: array<Delegatee>)
    modifies delegatees
    ensures fresh(ret) && ret[..] == Select(old(delegatees[..]), maxVals)
    ensures SameElements(delegatees[..], old(delegatees[..]))
  {
    SortPermutes(PowerLess, delegatees[..]);
    SortInPlace(PowerLess, delegatees);
    var n := Min(delegatees.Length, maxVals);
    ret := new Delegatee[n](i requires 0 <= i < n reads delegatees => delegatees[i]);
    assert ret[..] == delegatees[..][..n];
  }

  method ValidatorUpdates(lastVals: array<Delegatee>, newVals: array<Delegatee>) returns (ups: seq<Update>)
    requires lastVals != newVals
    modifies lastVals, newVals
    ensures lastVals[..] == Sort(PubLess, old(lastVals[..])) && newVals[..] == Sort(PubLess, old(newVals[..]))
    ensures ups == Diff(lastVals[..], newVals[..])
  {
    SortInPlace(PubLess, lastVals);
    SortInPlace(PubLess, newVals);
    ups := MergeUpdates(lastVals[..], newVals[..]);
  }

  lemma {:induction false} DiffStep(last: seq<Delegatee>, next: seq<Delegatee>, i: nat, j: nat)
    requires i < |last| && j < |next|
    ensures var c := Compare(last[i].pubKey, next[j].pubKey);
            Diff(last[i..], next[j..]) ==
            if c < 0 then [Update(last[i].pubKey, 0)] + Diff(last[i + 1..], next[j..])
            else if c > 0 then [Update(next[j].pubKey, next[j].sum)] + Diff(last[i..], next[j + 1..])
            else (if last[i].sum != next[j].sum then [Update(next[j].pubKey,
                next[j].sum)] else []) + Diff(last[i + 1..], next[j + 1..])
  {
    assert last[i..][1..] == last[i + 1..] && next[j..][1..] == next[j + 1..];
  }

  lemma {:induction false} ListStep(ds: seq<Delegatee>, i: nat)
    requires i < |ds|
    ensures Removals(ds[i..]) == [Update(ds[i].pubKey, 0)] + Removals(ds[i + 1..])
    ensures Additions(ds[i..]) == [Update(ds[i].pubKey, ds[i].sum)] + Additions(ds[i + 1..])
  {
    assert ds[i..][1..] == ds[i + 1..];
  }

  lemma {:induction false} DiffEnds(last: seq<Delegatee>, next: seq<Delegatee>)
    requires last == [] || next == []
    ensures Diff(last, next) == Removals(last) + Additions(next)
  {
  }

  lemma {:induction false} Regroup(a: seq<Update>, b: seq<Update>, c: seq<Update>)
    ensures a + (b + c) == (a + b) + c
  {
  }

  method MergeUpdates(lastVals: seq<Delegatee>, newVals: seq<Delegatee>) returns (ups: seq<Update>)
    ensures ups == Diff(lastVals, newVals)
  {
    hide Diff; hide Compare;
    ups := [];
    var i, j := 0, 0;
    assert lastVals[0..] == lastVals && newVals[0..] == newVals;
    while i < |lastVals| && j < |newVals|
      invariant 0 <= i <= |lastVals| && 0 <= j <= |newVals|
      invariant Diff(lastVals, newVals) == ups + Diff(lastVals[i..], newVals[j..])
    {
      DiffStep(lastVals, newVals, i, j);
      var c := Compare(lastVals[i].pubKey, newVals[j].pubKey);
      var u: seq<Update>;
      if c < 0 {
        u := [Update(lastVals[i].pubKey, 0)];
        i := i + 1;
      } else if c == 0 {
        u := if lastVals[i].sum != newVals[j].sum then [Update(newVals[j].pubKey, newVals[j].sum)] else [];
        i, j := i + 1, j + 1;
      } else {
        u := [Update(newVals[j].pubKey, newVals[j].sum)];
        j := j + 1;
      }
      Regroup(ups, u, Diff(lastVals[i..], newVals[j..]));
      ups := ups + u;
    }
    DiffEnds(lastVals[i..], newVals[j..]);
    var tail := ListRest(lastVals, i, newVals, j);
    ups := ups + tail;
  }

  /** The two loops after the merge: what is left of either list. */
  method ListRest(lastVals: seq<Delegatee>, i0: nat, newVals: seq<Delegatee>, j0: nat) returns (ups: seq<Update>)
    requires i0 <= |lastVals| && j0 <= |newVals|
    ensures ups == Removals(lastVals[i0..]) + Additions(newVals[j0..])
  {
    ups := [];
    var i, j := i0, j0;
    while i < |lastVals|
      invariant i0 <= i <= |lastVals|
      invariant Removals(lastVals[i0..]) == ups + Removals(lastVals[i..])
    {
      ListStep(lastVals, i);
      Regroup(ups, [Update(lastVals[i].pubKey, 0)], Removals(lastVals[i + 1..]));
      ups := ups + [Update(lastVals[i].pubKey, 0)];
      i := i + 1;
    }
    ghost var removed := Removals(lastVals[i0..]);
    while j < |newVals|
      invariant j0 <= j <= |newVals|
      invariant removed + Additions(newVals[j0..]) == ups + Additions(newVals[j..])
    {
      ListStep(newVals, j);
      Regroup(ups, [Update(newVals[j].pubKey, newVals[j].sum)], Additions(newVals[j + 1..]));
      ups := ups + [Update(newVals[j].pubKey, newVals[j].sum)];
      j := j + 1;
    }
  }
}
