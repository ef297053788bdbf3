/** types/merkle/tree.go: the array-based Merkle tree, its proofs and their verification.
    The hash function is a parameter `h`; a missing node (`nil` in Go) is `None`. */
module Merkle {
  import opened Base

  type Node = Option<Bytes>

  function BytesOf(n: Node): Bytes {
    if n.Some? then n.value else []
  }

  function HashPair(h: Bytes -> Bytes, left: Node, right: Node): Node {
    if left.None? && right.None? then None else Some(h(BytesOf(left) + BytesOf(right)))
  }

  /** `bits.Len`: the number of bits needed to write `x`. */
  function BitLen(x: nat): nat {
    if x == 0 then 0 else 1 + BitLen(x / 2)
  }

  function Shift(k: nat): (p: nat) {
    if k == 0 then 1 else 2 * Shift(k - 1)
  }

  function NextPowerOf2(n: nat): nat {
    if n <= 1 then 1 else Shift(BitLen(n - 1))
  }

  predicate IsPowerOf2(m: nat)
    decreases m
  {
    m == 1 || (m > 1 && m % 2 == 0 && IsPowerOf2(m / 2))
  }

  lemma {:induction false} ShiftIsPowerOf2(k: nat)
    ensures Shift(k) >= 1 && IsPowerOf2(Shift(k))
  {
    if k > 0 {
      ShiftIsPowerOf2(k - 1);
      assert Shift(k) / 2 == Shift(k - 1);
    }
  }

  lemma {:induction false} BitLenBrackets(x: nat)
    requires x > 0
    ensures Shift(BitLen(x)) <= 2 * x && x < Shift(BitLen(x))
  {
    if x > 1 {
      BitLenBrackets(x / 2);
    } else {
      assert BitLen(1) == 1 + BitLen(0) == 1;
      assert Shift(1) == 2 * Shift(0) == 2;
    }
  }

  /** The leaf row is the least power of two that holds all the leaves. */
  lemma LeafRowFits(n: nat)
    ensures IsPowerOf2(NextPowerOf2(n)) && n <= NextPowerOf2(n)
    ensures n >= 1 ==> NextPowerOf2(n) < 2 * n
  {
    if n > 1 {
      ShiftIsPowerOf2(BitLen(n - 1));
      BitLenBrackets(n - 1);
    }
  }

  function LeafNode(h: Bytes -> Bytes, leaf: Node, preHashed: bool): Node {
    if preHashed then leaf else Some(h(BytesOf(leaf)))
  }

  /** The node array of a tree over `leaves`: the last row holds the leaves (padded with `None`)
      and every inner node is the hash of its two children. */
  ghost predicate IsTreeOver(h: Bytes -> Bytes, nodes: seq<Node>, leafCount: nat, leaves: seq<Node>, preHashed: bool) {
    && leafCount == NextPowerOf2(|leaves|)
    && |nodes| == 2 * leafCount
    && |leaves| <= leafCount
    && (forall k :: leafCount <= k < 2 * leafCount ==>
          nodes[k] == if k - leafCount < |leaves| then LeafNode(h, leaves[k - leafCount], preHashed) else None)
    && Hashed(h, nodes, leafCount, 1)
  }

  ghost predicate Hashed(h: Bytes -> Bytes, nodes: seq<Node>, leafCount: nat, from: nat)
    requires |nodes| == 2 * leafCount
  {
    forall i: nat :: from <= i < leafCount ==> HashOfChildren(h, nodes, i)
  }

  ghost predicate HashOfChildren(h: Bytes -> Bytes, nodes: seq<Node>, i: int)
    requires 0 <= i && 2 * i + 1 < |nodes|
  {
    nodes[i] == HashPair(h, nodes[2 * i], nodes[2 * i + 1])
  }

  lemma HashingKeepsLaterNodes(h: Bytes -> Bytes, nodes: seq<Node>, leafCount: nat, i: nat)
    requires |nodes| == 2 * leafCount && 1 <= i < leafCount
    requires Hashed(h, nodes, leafCount, i + 1)
    ensures Hashed(h, nodes[i := HashPair(h, nodes[2 * i], nodes[2 * i + 1])], leafCount, i)
  {
    var nodes' := nodes[i := HashPair(h, nodes[2 * i], nodes[2 * i + 1])];
    forall k: nat | i <= k < leafCount ensures HashOfChildren(h, nodes', k) {
      assert k > i ==> HashOfChildren(h, nodes, k);
    }
  }

  function Sibling(i: nat): nat {
    if i % 2 == 0 then i + 1 else i - 1
  }

  /** The sibling hashes on the way from node `i` up to the root. */
  function ProofFrom(nodes: seq<Node>, i: nat): seq<Node>
    requires i < |nodes| && |nodes| % 2 == 0
    decreases i
  {
    if i <= 1 then [] else [nodes[Sibling(i)]] + ProofFrom(nodes, i / 2)
  }

  /** The root reached from `current` at position `index` of its row. */
  function Climb(h: Bytes -> Bytes, index: nat, current: Node, siblings: seq<Node>): Node
    decreases |siblings|
  {
    if siblings == [] then current
    else Climb(h, index / 2,
               if index % 2 == 0 then HashPair(h, current, siblings[0]) else HashPair(h, siblings[0], current),
               siblings[1..])
  }

  /** `VerifyProof` compares byte by byte, so a missing root equals an empty one. */
  predicate Verifies(h: Bytes -> Bytes, index: nat, data: Node, siblings: seq<Node>, root: Node, preHashed: bool) {
    BytesOf(Climb(h, index, LeafNode(h, data, preHashed), siblings)) == BytesOf(root)
  }

  /** Climbing from any node of the tree ends at the root. The position within the row
      and the node number agree in every bit that is looked at. */
  lemma {:induction false} ClimbReachesRoot(h: Bytes -> Bytes, nodes: seq<Node>, leafCount: nat, row: nat, j: nat)
    requires |nodes| == 2 * leafCount && Hashed(h, nodes, leafCount, 1)
    requires IsPowerOf2(row) && j < row <= leafCount
    ensures Climb(h, j, nodes[row + j], ProofFrom(nodes, row + j)) == nodes[1]
    decreases row
  {
    if row > 1 {
      HalfwayUp(row, j);
      ClimbOneLevel(h, nodes, leafCount, row + j, j);
      ClimbReachesRoot(h, nodes, leafCount, row / 2, j / 2);
    }
  }

  lemma HalfwayUp(row: nat, j: nat)
    requires row > 1 && row % 2 == 0 && j < row
    ensures (row + j) % 2 == j % 2 && (row + j) / 2 == row / 2 + j / 2 && j / 2 < row / 2
  {
  }

  lemma {:induction false} ClimbOneLevel(h: Bytes -> Bytes, nodes: seq<Node>, leafCount: nat, i: nat, j: nat)
    requires |nodes| == 2 * leafCount && Hashed(h, nodes, leafCount, 1)
    requires 1 < i < |nodes| && i % 2 == j % 2
    ensures Climb(h, j, nodes[i], ProofFrom(nodes, i)) == Climb(h, j / 2, nodes[i / 2], ProofFrom(nodes, i / 2))
  {
    var proof := ProofFrom(nodes, i);
    assert proof[0] == nodes[Sibling(i)] && proof[1..] == ProofFrom(nodes, i / 2);
    assert HashOfChildren(h, nodes, i / 2);
    assert i == if i % 2 == 0 then 2 * (i / 2) else 2 * (i / 2) + 1;
  }

  /** Every proof for every index in range verifies, for any number of leaves and any hash. */
  lemma {:induction false} EveryProofVerifies(h: Bytes -> Bytes, nodes: seq<Node>, leafCount: nat, leaves: seq<Node>,
          preHashed: bool, index: nat)
    requires IsTreeOver(h, nodes, leafCount, leaves, preHashed) && index < leafCount
    ensures Verifies(h, index, nodes[leafCount + index], ProofFrom(nodes, leafCount + index), nodes[1], true)
    ensures index < |leaves| ==>
              Verifies(h, index, leaves[index], ProofFrom(nodes, leafCount + index), nodes[1], preHashed)
  {
    LeafRowFits(|leaves|);
    ClimbReachesRoot(h, nodes, leafCount, leafCount, index);
  }

  /** The string hashed at one level: the climbing hash on its side, the sibling on the other. */
  function Join(index: nat, c: Bytes, sibling: Node): Bytes {
    if index % 2 == 0 then c + BytesOf(sibling) else BytesOf(sibling) + c
  }

  /** The strings hashed by a climb, from the leaf row upwards. */
  function Preimages(h: Bytes -> Bytes, index: nat, c: Bytes, s: seq<Node>): (r: seq<Bytes>)
    ensures |r| == |s|
    decreases |s|
  {
    if s == [] then [] else
      var x := Join(index, c, s[0]);
      [x] + Preimages(h, index / 2, h(x), s[1..])
  }

  /** Level by level, the two lists hold no collision of `h`. */
  ghost predicate NoCollision(h: Bytes -> Bytes, xs: seq<Bytes>, ys: seq<Bytes>)
    requires |xs| == |ys|
  {
    forall i :: 0 <= i < |xs| ==> h(xs[i]) == h(ys[i]) ==> xs[i] == ys[i]
  }

  lemma JoinsDiffer(index: nat, c: Bytes, a: Node, c': Bytes, a': Node)
    requires |c| == |c'| && Join(index, c, a) == Join(index, c', a')
    ensures c == c' && BytesOf(a) == BytesOf(a')
  {
    var x, n := Join(index, c, a), |c|;
    if index % 2 == 0 {
      assert c == x[..n] == c' && BytesOf(a) == x[n..] == BytesOf(a');
    } else {
      var m := |x| - n;
      assert c == x[m..] == c' && BytesOf(a) == x[..m] == BytesOf(a');
    }
  }

  lemma ClimbStep(h: Bytes -> Bytes, index: nat, c: Bytes, s: seq<Node>)
    requires s != []
    ensures Climb(h, index, Some(c), s) == Climb(h, index / 2, Some(h(Join(index, c, s[0]))), s[1..])
  {
  }

  /** Binding: when two climbs from one index with equally long proofs reach one root, either some
      level of the two hashes different strings to the same value, or the climbs agree throughout. */
  lemma {:induction false} ClimbsAgree(h: Bytes -> Bytes, index: nat, c: Bytes, s: seq<Node>, c': Bytes, s': seq<Node>)
    requires |c| == 32 && |c'| == 32 && |s| == |s'|
    requires forall b: Bytes :: |h(b)| == 32
    requires BytesOf(Climb(h, index, Some(c), s)) == BytesOf(Climb(h, index, Some(c'), s'))
    requires NoCollision(h, Preimages(h, index, c, s), Preimages(h, index, c', s'))
    ensures c == c' && forall i :: 0 <= i < |s| ==> BytesOf(s[i]) == BytesOf(s'[i])
    decreases |s|
  {
    if s != [] {
      var x, y := Join(index, c, s[0]), Join(index, c', s'[0]);
      var xs, ys := Preimages(h, index, c, s), Preimages(h, index, c', s');
      ClimbStep(h, index, c, s);
      ClimbStep(h, index, c', s');
      forall i | 0 <= i < |s| - 1 && h(xs[1..][i]) == h(ys[1..][i]) ensures xs[1..][i] == ys[1..][i] {
        assert h(xs[i + 1]) == h(ys[i + 1]);
      }
      ClimbsAgree(h, index / 2, h(x), s[1..], h(y), s'[1..]);
      assert h(xs[0]) == h(ys[0]);
      JoinsDiffer(index, c, s[0], c', s'[0]);
    }
  }

  /** Two different leaf hashes that reach one root from one index with equally long proofs exhibit
      a collision: at level `i` the two climbs hash different strings to the same value. */
  lemma DifferentLeavesCollide(h: Bytes -> Bytes, index: nat, c: Bytes, s: seq<Node>, c': Bytes, s': seq<Node>)
    returns (i: nat)
    requires |c| == 32 && |c'| == 32 && c != c' && |s| == |s'|
    requires forall b: Bytes :: |h(b)| == 32
    requires BytesOf(Climb(h, index, Some(c), s)) == BytesOf(Climb(h, index, Some(c'), s'))
    ensures i < |s|
    ensures var x, y := Preimages(h, index, c, s)[i], Preimages(h, index, c', s')[i]; x != y && h(x) == h(y)
  {
    var xs, ys := Preimages(h, index, c, s), Preimages(h, index, c', s');
    if NoCollision(h, xs, ys) { ClimbsAgree(h, index, c, s, c', s'); }
    i :| 0 <= i < |xs| && h(xs[i]) == h(ys[i]) && xs[i] != ys[i];
  }

  /** The strings that VerifyProof hashes: the data, then one string per level. */
  function HashedStrings(h: Bytes -> Bytes, index: nat, data: Node, s: seq<Node>): (r: seq<Bytes>)
    ensures |r| == |s| + 1
  {
    [BytesOf(data)] + Preimages(h, index, h(BytesOf(data)), s)
  }

  /** As long as the strings hashed by two accepted verifications hold no collision, a root and an
      index determine the data, and the proof of a given length. */
  lemma AcceptedLeavesAgree(h: Bytes -> Bytes, index: nat, d: Node, s: seq<Node>, d': Node, s': seq<Node>, root: Node)
    requires |s| == |s'| && forall b: Bytes :: |h(b)| == 32
    requires Verifies(h, index, d, s, root, false) && Verifies(h, index, d', s', root, false)
    requires NoCollision(h, HashedStrings(h, index, d, s), HashedStrings(h, index, d', s'))
    ensures BytesOf(d) == BytesOf(d') && forall i :: 0 <= i < |s| ==> BytesOf(s[i]) == BytesOf(s'[i])
  {
    var c, c' := h(BytesOf(d)), h(BytesOf(d'));
    var xs, ys := Preimages(h, index, c, s), Preimages(h, index, c', s');
    var xs1, ys1 := HashedStrings(h, index, d, s), HashedStrings(h, index, d', s');
    forall i | 0 <= i < |xs| && h(xs[i]) == h(ys[i]) ensures xs[i] == ys[i] {
      assert xs[i] == xs1[i + 1] && ys[i] == ys1[i + 1];
    }
    ClimbsAgree(h, index, c, s, c', s');
    assert xs1[0] == BytesOf(d) && ys1[0] == BytesOf(d') && h(xs1[0]) == h(ys1[0]);
  }

  /** Binding stops at missing nodes. A pre-hashed `nil` leaf and a 32-byte leaf can share root,
      index and proof length, and next to a `nil` sibling the index itself is not bound. No
      property of the hash function is involved. */
  lemma MissingNodesAreNotBound(h: Bytes -> Bytes, c: Bytes)
    requires |c| == 32
    ensures exists root :: Verifies(h, 0, None, [Some(c)], root, true) && Verifies(h, 0, Some(c), [None], root, true)
    ensures exists root :: Verifies(h, 0, Some(c), [None], root, true) && Verifies(h, 1, Some(c), [None], root, true)
  {
    var root := Some(h(c));
    assert c + [] == c && [] + c == c;
    assert Climb(h, 0, None, [Some(c)]) == HashPair(h, None, Some(c)) == root;
    assert Climb(h, 0, Some(c), [None]) == HashPair(h, Some(c), None) == root;
    assert Climb(h, 1, Some(c), [None]) == HashPair(h, None, Some(c)) == root;
    assert Verifies(h, 0, None, [Some(c)], root, true) && Verifies(h, 0, Some(c), [None], root, true);
    assert Verifies(h, 1, Some(c), [None], root, true);
  }

  datatype ProofError = IndexOutOfRange | LengthMismatch | HashMismatch

  class MerkleTree {
    const nodes: array<Node>
    const leafCount: nat

    ghost predicate TreeOver(h: Bytes -> Bytes, leaves: seq<Node>, preHashed: bool)
      reads nodes
    {
      IsTreeOver(h, nodes[..], leafCount, leaves, preHashed)
    }

    /** newMerkleTree: fill the leaf row, then hash upwards. */
    constructor (h: Bytes -> Bytes, leaves: seq<Node>, preHashed: bool)
      ensures TreeOver(h, leaves, preHashed) && fresh(nodes)
    {
      var n := NextPowerOf2(|leaves|);
      LeafRowFits(|leaves|);
      var a := new Node[2 * n](_ => None);
      leafCount, nodes := n, a;
      new;
      FillLeaves(h, a, n, leaves, preHashed);
      HashUpwards(h, a, n);
    }

    static method FillLeaves(h: Bytes -> Bytes, a: array<Node>, n: nat, leaves: seq<Node>, preHashed: bool)
      requires a.Length == 2 * n && |leaves| <= n
      modifies a
      ensures forall k :: n <= k < 2 * n ==>
                a[k] == if k - n < |leaves| then LeafNode(h, leaves[k - n], preHashed) else old(a[k])
    {
      var i := 0;
      while i < |leaves|
        invariant 0 <= i <= |leaves|
        invariant forall k :: n <= k < 2 * n ==>
                    a[k] == if k - n < i then LeafNode(h, leaves[k - n], preHashed) else old(a[k])
      {
        a[n + i] := LeafNode(h, leaves[i], preHashed);
        i := i + 1;
      }
    }

    static method HashUpwards(h: Bytes -> Bytes, a: array<Node>, n: nat)
      requires a.Length == 2 * n
      modifies a
      ensures Hashed(h, a[..], n, 1)
      ensures forall k :: n <= k < 2 * n ==> a[k] == old(a[k])
    {
      var i := n - 1;
      while i >= 1
        invariant n >= 1 ==> 0 <= i < n
        invariant forall k :: n <= k < 2 * n ==> a[k] == old(a[k])
        invariant n >= 1 ==> Hashed(h, a[..], n, i + 1)
      {
        HashingKeepsLaterNodes(h, a[..], n, i);
        a[i] := HashPair(h, a[2 * i], a[2 * i + 1]);
        i := i - 1;
      }
    }

    method Proof(index: int) returns (r: Result<(Node, seq<Node>), ProofError>)
      requires nodes.Length == 2 * leafCount
      ensures r.Success? <==> 0 <= index < leafCount
      ensures r.Success? ==> r.value == (nodes[leafCount + index], ProofFrom(nodes[..], leafCount + index))
    {
      if index < 0 || index >= leafCount {
        return Failure(IndexOutOfRange);
      }
      var proof: seq<Node> := [];
      var nodeIdx := leafCount + index;
      while nodeIdx > 1
        invariant 0 <= nodeIdx < nodes.Length
        invariant proof + ProofFrom(nodes[..], nodeIdx) == ProofFrom(nodes[..], leafCount + index)
      {
        proof := proof + [nodes[Sibling(nodeIdx)]];
        nodeIdx := nodeIdx / 2;
      }
      assert proof + [] == proof;
      return Success((nodes[leafCount + index], proof));
    }

    static method VerifyProof(h: Bytes -> Bytes, index: nat, data: Node, siblings: seq<Node>, root: Node,
        preHashed: bool)
      returns (r: Result<(), ProofError>)
      ensures r.Success? <==> Verifies(h, index, data, siblings, root, preHashed)
    {
      var current := LeafNode(h, data, preHashed);
      var nodeIdx := index;
      var k := 0;
      while k < |siblings|
        invariant 0 <= k <= |siblings| && nodeIdx >= 0
        invariant Climb(h, nodeIdx, current, siblings[k..])
               == Climb(h, index, LeafNode(h, data, preHashed), siblings)
      {
        if nodeIdx % 2 == 0 {
          current := HashPair(h, current, siblings[k]);
        } else {
          current := HashPair(h, siblings[k], current);
        }
        nodeIdx := nodeIdx / 2;
        k := k + 1;
      }
      var a, b := BytesOf(current), BytesOf(root);
      if |a| != |b| {
        return Failure(LengthMismatch);
      }
      var i := 0;
      while i < |a|
        invariant 0 <= i <= |a| && a[..i] == b[..i]
      {
        if a[i] != b[i] {
          return Failure(HashMismatch);
        }
        i := i + 1;
      }
      return Success(());
    }
  }
}
