/** Ascending enumeration of a set of keys, as a ledger scan visits them. */
module Keys {

  predicate Ascending(s: seq<nat>) { forall i, j :: 0 <= i < j < |s| ==> s[i] < s[j] }

  ghost function Least(s: set<nat>): (m: nat)
    requires s != {}
    ensures m in s && forall b <- s :: m <= b
    decreases |s|
  {
    var x :| x in s;
    var rest := s - {x};
    assert forall b <- s :: b == x || b in rest;
    if rest == {} then x
    else
      var y := Least(rest);
      if x < y then x else y
  }

  /** The elements of a set, smallest first. */
  ghost function Ordered(s: set<nat>): seq<nat>
    decreases |s|
  {
    if s == {} then [] else [Least(s)] + Ordered(s - {Least(s)})
  }

  lemma {:induction false} OrderedIsAscending(s: set<nat>)
    ensures Ascending(Ordered(s))
    ensures forall a :: a in Ordered(s) <==> a in s
    decreases |s|
  {
    if s != {} {
      var rest := s - {Least(s)};
      OrderedIsAscending(rest);
      var r := Ordered(rest);
      forall i, j | 0 <= i < j < |r| + 1 ensures ([Least(s)] + r)[i] < ([Least(s)] + r)[j] {
        assert r[j - 1] in r;
      }
      forall a ensures a in [Least(s)] + r <==> a in s { assert a in [Least(s)] + r <==> a == Least(s) || a in r; }
    }
  }

  method SortedKeys(keys: set<nat>) returns (sorted: seq<nat>)
    ensures sorted == Ordered(keys)
  {
    sorted := [];
    var rest := keys;
    while rest != {}
      invariant sorted + Ordered(rest) == Ordered(keys)
      decreases |rest|
    {
      assert Least(rest) in rest;
      var a :| a in rest && forall b <- rest :: a <= b;
      assert a == Least(rest);
      sorted := sorted + [a];
      rest := rest - {a};
    }
  }
}
