/**
 * The transaction Merkle root (`crates/kcoin-protocol/src/block.rs`): a loop that rebuilds one level
 * at a time, compared with the binary tree it computes the root of.
 */
module Merkle {
  type Hash = nat

  /** The three domain-separated hash functions under the root. */
  datatype Hashing = Hashing(emptyRoot: Hash, leaf: Hash -> Hash, node: (Hash, Hash) -> Hash)

  ghost predicate CollisionFree(h: Hashing)
  {
    && (forall x, y :: h.leaf(x) == h.leaf(y) ==> x == y)
    && (forall a, b, c, d {:trigger h.node(a, b), h.node(c, d)} :: h.node(a, b) == h.node(c, d) ==> a == c && b == d)
    && (forall x, a, b {:trigger h.leaf(x), h.node(a, b)} :: h.leaf(x) != h.node(a, b))
    && (forall x :: h.leaf(x) != h.emptyRoot)
    && (forall a, b :: h.node(a, b) != h.emptyRoot)
  }

  datatype Tree = Leaf(id: Hash) | Node(left: Tree, right: Tree)
  {
    function Root(h: Hashing): Hash
    {
      match this
      case Leaf(id) => h.leaf(id)
      case Node(left, right) => h.node(left.Root(h), right.Root(h))
    }

    /** The leaves from left to right. */
    function Frontier(): seq<Hash>
    {
      match this
      case Leaf(id) => [id]
      case Node(left, right) => left.Frontier() + right.Frontier()
    }

    ghost predicate Perfect(depth: nat)
    {
      match this
      case Leaf(_) => depth == 0
      case Node(left, right) => depth > 0 && left.Perfect(depth - 1) && right.Perfect(depth - 1)
    }
  }

  // ---------------------------------------------------------------- the tree

  /** One level up: neighbours are joined, and a node without a right neighbour is its own. */
  function Join(forest: seq<Tree>): seq<Tree>
  {
    if forest == [] then []
    else if |forest| == 1 then [Node(forest[0], forest[0])]
    else [Node(forest[0], forest[1])] + Join(forest[2..])
  }

  lemma {:induction false} JoinLength(forest: seq<Tree>)
    ensures |Join(forest)| == (|forest| + 1) / 2
    decreases |forest|
  {
    if |forest| > 1 {
      JoinLength(forest[2..]);
    }
  }

  function Grow(forest: seq<Tree>): Tree
    requires forest != []
    decreases |forest|
  {
    JoinLength(forest);
    if |forest| == 1 then forest[0] else Grow(Join(forest))
  }

  function Leaves(ids: seq<Hash>): (forest: seq<Tree>)
    ensures |forest| == |ids|
  {
    seq(|ids|, i requires 0 <= i < |ids| => Leaf(ids[i]))
  }

  function TreeOf(ids: seq<Hash>): Tree
    requires ids != []
  {
    Grow(Leaves(ids))
  }

  function MerkleRoot(h: Hashing, ids: seq<Hash>): Hash
  {
    if ids == [] then h.emptyRoot else TreeOf(ids).Root(h)
  }

  function Roots(h: Hashing, forest: seq<Tree>): (roots: seq<Hash>)
    ensures |roots| == |forest|
  {
    seq(|forest|, i requires 0 <= i < |forest| => forest[i].Root(h))
  }

  // ---------------------------------------------------------------- the loop

  /** `merkle_root`: the level-by-level loop computes the root of the tree. */
  method ComputeMerkleRoot(h: Hashing, ids: seq<Hash>) returns (root: Hash)
    ensures root == MerkleRoot(h, ids)
  {
    if ids == [] {
      return h.emptyRoot;
    }
    var level := seq(|ids|, i requires 0 <= i < |ids| => h.leaf(ids[i]));
    ghost var forest := Leaves(ids);
    while |level| > 1
      invariant forest != [] && level == Roots(h, forest)
      invariant Grow(forest) == TreeOf(ids)
      decreases |level|
    {
      JoinLength(forest);
      level := NextLevel(h, level, forest);
      forest := Join(forest);
    }
    return level[0];
  }

  method NextLevel(h: Hashing, level: seq<Hash>, ghost forest: seq<Tree>) returns (next: seq<Hash>)
    requires level == Roots(h, forest)
    ensures next == Roots(h, Join(forest))
  {
    next := [];
    var i := 0;
    while i < |level|
      invariant 0 <= i <= |level|
      invariant next + Roots(h, Join(forest[i..])) == Roots(h, Join(forest))
      decreases |level| - i
    {
      var left := level[i];
      var right := if i + 1 < |level| then level[i + 1] else left;
      ghost var step := if i + 1 < |level| then i + 2 else i + 1;
      JoinStep(h, forest, i);
      assert next + ([h.node(left, right)] + Roots(h, Join(forest[step..])))
        == (next + [h.node(left, right)]) + Roots(h, Join(forest[step..]));
      next := next + [h.node(left, right)];
      i := if i + 1 < |level| then i + 2 else i + 1;
    }
    assert forest[i..] == [];
  }

  lemma JoinStep(h: Hashing, forest: seq<Tree>, i: nat)
    requires i < |forest|
    ensures var right := if i + 1 < |forest| then forest[i + 1] else forest[i];
      var rest := if i + 1 < |forest| then forest[i + 2..] else forest[i + 1..];
      Roots(h, Join(forest[i..])) == [h.node(forest[i].Root(h), right.Root(h))] + Roots(h, Join(rest))
  {
    var tail := forest[i..];
    if i + 1 < |forest| {
      assert tail[2..] == forest[i + 2..];
      assert Join(tail) == [Node(forest[i], forest[i + 1])] + Join(forest[i + 2..]);
    } else {
      assert forest[i + 1..] == [];
      assert Join(tail) == [Node(forest[i], forest[i])];
    }
  }

  // ---------------------------------------------------------------- frontiers

  function Leafage(forest: seq<Tree>): seq<Hash>
  {
    if forest == [] then [] else forest[0].Frontier() + Leafage(forest[1..])
  }

  lemma {:induction false} JoinExtends(forest: seq<Tree>)
    ensures Leafage(forest) <= Leafage(Join(forest))
    ensures forall x :: x in Leafage(Join(forest)) ==> x in Leafage(forest)
    decreases |forest|
  {
    if |forest| == 1 {
      var pair := Node(forest[0], forest[0]);
      assert Join(forest) == [pair] && Join(forest)[1..] == [] && forest[1..] == [];
      assert Leafage([pair]) == pair.Frontier() + [];
      assert Leafage(forest) == forest[0].Frontier() + [];
    } else if |forest| > 1 {
      var pair, rest := Node(forest[0], forest[1]), forest[2..];
      JoinExtends(rest);
      assert Join(forest)[1..] == Join(rest);
      assert forest[1..][1..] == rest && forest[1..][0] == forest[1];
      assert Leafage(forest) == forest[0].Frontier() + (forest[1].Frontier() + Leafage(rest));
      assert Leafage(Join(forest)) == pair.Frontier() + Leafage(Join(rest));
      assert Leafage(forest) == pair.Frontier() + Leafage(rest);
    }
  }

  lemma {:induction false} GrowExtends(forest: seq<Tree>)
    requires forest != []
    ensures Leafage(forest) <= Grow(forest).Frontier()
    ensures forall x :: x in Grow(forest).Frontier() ==> x in Leafage(forest)
    decreases |forest|
  {
    JoinLength(forest);
    if |forest| == 1 {
      assert forest[1..] == [];
      assert Leafage(forest) == forest[0].Frontier() + [];
    } else {
      JoinExtends(forest);
      GrowExtends(Join(forest));
    }
  }

  lemma {:induction false} LeavesLeafage(ids: seq<Hash>)
    ensures Leafage(Leaves(ids)) == ids
    decreases |ids|
  {
    if ids != [] {
      LeavesLeafage(ids[1..]);
      assert Leaves(ids)[1..] == Leaves(ids[1..]);
      assert Leaves(ids)[0].Frontier() == [ids[0]];
      assert ids == [ids[0]] + ids[1..];
    }
  }

  ghost predicate AllPerfect(forest: seq<Tree>, depth: nat)
  {
    forall i :: 0 <= i < |forest| ==> forest[i].Perfect(depth)
  }

  lemma {:induction false} JoinPerfect(forest: seq<Tree>, depth: nat)
    requires AllPerfect(forest, depth)
    ensures AllPerfect(Join(forest), depth + 1)
    decreases |forest|
  {
    if |forest| > 1 {
      JoinPerfect(forest[2..], depth);
      assert Join(forest) == [Node(forest[0], forest[1])] + Join(forest[2..]);
    }
  }

  lemma {:induction false} GrowPerfect(forest: seq<Tree>, depth: nat) returns (height: nat)
    requires forest != [] && AllPerfect(forest, depth)
    ensures Grow(forest).Perfect(height)
    decreases |forest|
  {
    JoinLength(forest);
    if |forest| == 1 {
      return depth;
    }
    JoinPerfect(forest, depth);
    height := GrowPerfect(Join(forest), depth + 1);
  }

  function Pow2(n: nat): nat
  {
    if n == 0 then 1 else 2 * Pow2(n - 1)
  }

  lemma {:induction false} PerfectSize(t: Tree, depth: nat)
    requires t.Perfect(depth)
    ensures |t.Frontier()| == Pow2(depth)
    decreases t
  {
    if t.Node? {
      PerfectSize(t.left, depth - 1);
      PerfectSize(t.right, depth - 1);
    }
  }

  /**
   * The loop's tree is perfect: its frontier has power-of-two length, starts with the list and
   * repeats only members of the list behind it.
   */
  lemma FrontierPadsList(ids: seq<Hash>) returns (depth: nat)
    requires ids != []
    ensures TreeOf(ids).Perfect(depth)
    ensures |TreeOf(ids).Frontier()| == Pow2(depth)
    ensures ids <= TreeOf(ids).Frontier()
    ensures forall x :: x in TreeOf(ids).Frontier() ==> x in ids
  {
    LeavesLeafage(ids);
    GrowExtends(Leaves(ids));
    depth := GrowPerfect(Leaves(ids), 0);
    PerfectSize(TreeOf(ids), depth);
  }

  // ---------------------------------------------------------------- binding

  lemma {:induction false} RootBindsTree(h: Hashing, s: Tree, t: Tree)
    requires CollisionFree(h) && s.Root(h) == t.Root(h)
    ensures s == t
    decreases s
  {
    match (s, t)
    case (Node(a, b), Node(c, d)) =>
      RootBindsTree(h, a, c);
      RootBindsTree(h, b, d);
    case _ =>
  }

  lemma {:induction false} PerfectFromFrontier(s: Tree, t: Tree, depth: nat)
    requires s.Perfect(depth) && t.Perfect(depth) && s.Frontier() == t.Frontier()
    ensures s == t
    decreases s
  {
    if s.Node? {
      PerfectSize(s.left, depth - 1);
      PerfectSize(t.left, depth - 1);
      var half := Pow2(depth - 1);
      assert s.left.Frontier() == s.Frontier()[..half] && t.left.Frontier() == t.Frontier()[..half];
      assert s.right.Frontier() == s.Frontier()[half..] && t.right.Frontier() == t.Frontier()[half..];
      PerfectFromFrontier(s.left, t.left, depth - 1);
      PerfectFromFrontier(s.right, t.right, depth - 1);
    }
  }

  lemma {:induction false} Pow2Injective(a: nat, b: nat)
    requires Pow2(a) == Pow2(b)
    ensures a == b
    decreases a
  {
    if a > 0 && b > 0 {
      Pow2Injective(a - 1, b - 1);
    }
  }

  /** Exactly when two lists have the same root: when padding makes them the same list. */
  lemma SameRootIffSameFrontier(h: Hashing, a: seq<Hash>, b: seq<Hash>)
    requires CollisionFree(h) && a != [] && b != []
    ensures MerkleRoot(h, a) == MerkleRoot(h, b) <==> TreeOf(a).Frontier() == TreeOf(b).Frontier()
  {
    if MerkleRoot(h, a) == MerkleRoot(h, b) {
      RootBindsTree(h, TreeOf(a), TreeOf(b));
    }
    if TreeOf(a).Frontier() == TreeOf(b).Frontier() {
      var d := FrontierPadsList(a);
      var e := FrontierPadsList(b);
      Pow2Injective(d, e);
      PerfectFromFrontier(TreeOf(a), TreeOf(b), d);
    }
  }

  ghost predicate Distinct(ids: seq<Hash>)
  {
    forall i, j :: 0 <= i < j < |ids| ==> ids[i] != ids[j]
  }

  lemma EmptyRootIsOwn(h: Hashing, ids: seq<Hash>)
    requires CollisionFree(h)
    ensures MerkleRoot(h, ids) == h.emptyRoot <==> ids == []
  {
    if ids != [] {
      var t := TreeOf(ids);
      assert t.Root(h) == if t.Leaf? then h.leaf(t.id) else h.node(t.left.Root(h), t.right.Root(h));
    }
  }

  /** Lists of equal length are bound by the root, whatever repeats in them. */
  lemma SameLengthBinding(h: Hashing, a: seq<Hash>, b: seq<Hash>)
    requires CollisionFree(h) && |a| == |b| && MerkleRoot(h, a) == MerkleRoot(h, b)
    ensures a == b
  {
    if a != [] {
      SameRootIffSameFrontier(h, a, b);
      var d := FrontierPadsList(a);
      var e := FrontierPadsList(b);
      assert a == TreeOf(a).Frontier()[..|a|];
    }
  }

  lemma LongerRepeats(a: seq<Hash>, b: seq<Hash>)
    requires a != [] && |a| < |b| && TreeOf(a).Frontier() == TreeOf(b).Frontier()
    ensures !Distinct(b)
  {
    var d := FrontierPadsList(a);
    var e := FrontierPadsList(b);
    var full := TreeOf(a).Frontier();
    assert b[|a|] == full[|a|];
    assert full[|a|] in a;
    var k :| 0 <= k < |a| && a[k] == full[|a|];
    assert b[k] == full[k] == a[k];
  }

  /** Merkle binding: the root determines a duplicate-free list. */
  lemma DistinctBinding(h: Hashing, a: seq<Hash>, b: seq<Hash>)
    requires CollisionFree(h) && Distinct(a) && Distinct(b) && MerkleRoot(h, a) == MerkleRoot(h, b)
    ensures a == b
  {
    EmptyRootIsOwn(h, a);
    EmptyRootIsOwn(h, b);
    if a != [] && b != [] {
      SameRootIffSameFrontier(h, a, b);
      if |a| < |b| {
        LongerRepeats(a, b);
      } else if |b| < |a| {
        LongerRepeats(b, a);
      } else {
        SameLengthBinding(h, a, b);
      }
    }
  }

  /** Without distinctness the root does not bind: repeating the last of three leaves it unchanged. */
  lemma RepeatedTailCollides(h: Hashing, a: Hash, b: Hash, c: Hash)
    ensures MerkleRoot(h, [a, b, c]) == MerkleRoot(h, [a, b, c, c])
  {
    var three, four := Leaves([a, b, c]), Leaves([a, b, c, c]);
    assert three[2..] == [Leaf(c)] && four[2..] == [Leaf(c), Leaf(c)];
    var top := [Node(Leaf(a), Leaf(b)), Node(Leaf(c), Leaf(c))];
    assert Join(three) == top;
    assert Join(four[2..]) == [Node(Leaf(c), Leaf(c))];
    assert Join(four) == top;
    assert Grow(three) == Grow(top) && Grow(four) == Grow(top);
  }
}
