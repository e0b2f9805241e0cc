/**
 The off-chain reference tree: built layer by layer, with Merkle proofs. It agrees
 with the full tree the frontier stands for, its proofs are complete and sound, and
 its root binds the leaves. A node hash on a finite field cannot be injective, so the
 binding results speak only of the pairs the two compared trees or paths do hash.
 */
module ReferenceTree {
  import opened Binary
  import opened FieldEncoding
  import opened NoteTree

  /** A node and its sibling, in order. */
  type Pair = (Field, Field)

  /** No pair on one side shares its parent with a different pair on the other. */
  ghost predicate Separates(h: Hash, ps: set<Pair>, qs: set<Pair>) {
    forall p, q :: p in ps && q in qs && h(p.0, p.1) == h(q.0, q.1) ==> p == q
  }

  // ----- layers -----

  /** Parents of a layer; an odd last node is paired with the empty subtree z. */
  function NextLayer(h: Hash, layer: seq<Field>, z: Field): (next: seq<Field>)
    ensures |next| == (|layer| + 1) / 2
  {
    seq((|layer| + 1) / 2, i requires 0 <= i < (|layer| + 1) / 2 =>
      h(layer[2 * i], if 2 * i + 1 < |layer| then layer[2 * i + 1] else z))
  }

  function LayerAt(h: Hash, leaves: seq<Field>, d: nat): seq<Field> {
    if d == 0 then leaves else StepLayer(h, LayerAt(h, leaves, d - 1), d - 1)
  }

  /** Node i of layer d, empty subtrees included. */
  function NodeAt(h: Hash, leaves: seq<Field>, d: nat, i: nat): Field {
    NodeIn(h, LayerAt(h, leaves, d), d, i)
  }

  function NodeIn(h: Hash, layer: seq<Field>, d: nat, i: nat): Field {
    if i < |layer| then layer[i] else Zero(h, d)
  }

  lemma StepNode(h: Hash, layer: seq<Field>, d: nat, i: nat)
    ensures NodeIn(h, StepLayer(h, layer, d), d + 1, i) == h(NodeIn(h, layer, d, 2 * i), NodeIn(h, layer, d, 2 * i + 1))
  {
    var next := NextLayer(h, layer, Zero(h, d));
    if i < |next| {
      assert next[i] == h(layer[2 * i], if 2 * i + 1 < |layer| then layer[2 * i + 1] else Zero(h, d));
    }
  }

  lemma ParentNode(h: Hash, leaves: seq<Field>, d: nat, i: nat)
    ensures NodeAt(h, leaves, d + 1, i) == h(NodeAt(h, leaves, d, 2 * i), NodeAt(h, leaves, d, 2 * i + 1))
  {
    hide StepLayer, Zero;
    StepNode(h, LayerAt(h, leaves, d), d, i);
  }

  /** Parents of a layer cut at an even position. */
  lemma ParentsSplit(h: Hash, layer: seq<Field>, z: Field, k: nat)
    requires 2 * k <= |layer|
    ensures NextLayer(h, layer, z) == NextLayer(h, layer[..2 * k], z) + NextLayer(h, layer[2 * k..], z)
    ensures |NextLayer(h, layer[..2 * k], z)| == k
  {
    var whole, left, right := NextLayer(h, layer, z), NextLayer(h, layer[..2 * k], z), NextLayer(h, layer[2 * k..], z);
    forall i | 0 <= i < |right| ensures whole[k + i] == right[i] {
      assert layer[2 * k..][2 * i] == layer[2 * (k + i)];
    }
  }

  lemma RootOfPair(h: Hash, base: nat, nodes: seq<Field>)
    requires |nodes| <= 2
    ensures TreeRoot(h, base, 1, nodes) == TreeRoot(h, base + 1, 0, NextLayer(h, nodes, Zero(h, base)))
  {
    assert Pow2(0) == 1;
  }

  /** Replacing a layer by its parents leaves the root of the tree unchanged. */
  lemma {:induction false} RootOfParents(h: Hash, base: nat, d: nat, nodes: seq<Field>)
    requires |nodes| <= Pow2(d + 1)
    ensures |NextLayer(h, nodes, Zero(h, base))| <= Pow2(d)
    ensures TreeRoot(h, base, d + 1, nodes) == TreeRoot(h, base + 1, d, NextLayer(h, nodes, Zero(h, base)))
    decreases d
  {
    hide NextLayer, Zero;
    if d == 0 {
      RootOfPair(h, base, nodes);
    } else if |nodes| <= Pow2(d) {
      RootOfParents(h, base, d - 1, nodes);
    } else {
      ParentsSplit(h, nodes, Zero(h, base), Pow2(d - 1));
      RootOfParents(h, base, d - 1, nodes[..Pow2(d)]);
      RootOfParents(h, base, d - 1, nodes[Pow2(d)..]);
      RootOfTwo(h, base + 1, d - 1, NextLayer(h, nodes[..Pow2(d)], Zero(h, base)), NextLayer(h, nodes[Pow2(d)..], Zero(h, base)));
    }
  }

  lemma RootOfTwo(h: Hash, base: nat, d: nat, left: seq<Field>, right: seq<Field>)
    requires |left| == Pow2(d) && 0 < |right| <= Pow2(d)
    ensures TreeRoot(h, base, d + 1, left + right) == h(TreeRoot(h, base, d, left), TreeRoot(h, base, d, right))
  {
    assert (left + right)[..Pow2(d)] == left && (left + right)[Pow2(d)..] == right;
  }

  lemma {:induction false} SingleEmptyNode(h: Hash, base: nat, d: nat)
    ensures TreeRoot(h, base, d, [Zero(h, base)]) == Zero(h, base + d)
  {
    if d > 0 {
      SingleEmptyNode(h, base, d - 1);
    }
  }

  /** One layer up: an empty layer of parents is replaced by one empty subtree. */
  function StepLayer(h: Hash, layer: seq<Field>, d: nat): seq<Field> {
    var next := NextLayer(h, layer, Zero(h, d));
    if next == [] then [Zero(h, d + 1)] else next
  }

  lemma RootOfStep(h: Hash, layer: seq<Field>, d: nat, height: nat)
    requires |layer| <= Pow2(height + 1)
    ensures |StepLayer(h, layer, d)| <= Pow2(height)
    ensures TreeRoot(h, d, height + 1, layer) == TreeRoot(h, d + 1, height, StepLayer(h, layer, d))
  {
    hide TreeRoot, Pow2;
    RootOfParents(h, d, height, layer);
    EmptyTreeRoot(h, d + 1, height);
    SingleEmptyNode(h, d + 1, height);
  }

  method PairUp(h: Hash, layer: seq<Field>, z: Field) returns (next: seq<Field>)
    ensures next == NextLayer(h, layer, z)
  {
    next := [];
    var i := 0;
    while i < |layer|
      invariant 0 <= i <= |layer| + 1 && i % 2 == 0
      invariant |next| == i / 2 && i / 2 <= (|layer| + 1) / 2
      invariant forall k :: 0 <= k < |next| ==> next[k] == NextLayer(h, layer, z)[k]
      decreases |layer| - i
    {
      next := next + [h(layer[i], if i + 1 < |layer| then layer[i + 1] else z)];
      i := i + 2;
    }
    assert next == NextLayer(h, layer, z);
  }

  method ParentLayer(h: Hash, layer: seq<Field>, d: nat) returns (parents: seq<Field>)
    ensures parents == StepLayer(h, layer, d)
  {
    var next := PairUp(h, layer, Zero(h, d));
    parents := if |next| > 0 then next else [Zero(h, d + 1)];
  }

  /** `buildTree`: the layers bottom-up, and the root, which is the root of the full tree. */
  method BuildTree(h: Hash, leaves: seq<Field>, depth: nat) returns (layers: seq<seq<Field>>, root: Field)
    ensures |layers| == depth + 1
    ensures forall d :: 0 <= d <= depth ==> layers[d] == LayerAt(h, leaves, d)
    ensures |leaves| <= Pow2(depth) ==> root == TreeRoot(h, 0, depth, leaves)
  {
    hide NextLayer, Zero, TreeRoot, Pow2, StepLayer;
    layers := [];
    var layer := leaves;
    for d := 0 to depth
      invariant |layers| == d && layer == LayerAt(h, leaves, d)
      invariant forall k :: 0 <= k < d ==> layers[k] == LayerAt(h, leaves, k)
    {
      layers := layers + [layer];
      layer := ParentLayer(h, layer, d);
    }
    layers := layers + [layer];
    root := if |layer| > 0 then layer[0] else Zero(h, depth);
    assert root == NodeIn(h, layer, depth, 0);
    if |leaves| <= Pow2(depth) {
      LayersReachTreeRoot(h, leaves, 0, depth);
    }
  }

  // ----- proofs -----

  /** The other child of the same parent: `i ^ 1`. */
  function Sibling(i: nat): nat {
    if i % 2 == 0 then i + 1 else i - 1
  }

  /** Folding a leaf with path elements; direction 1 means the running node is the right child. */
  function FoldProof(h: Hash, node: Field, elements: seq<Field>, directions: seq<nat>): Field
    requires |elements| == |directions|
    decreases |elements|
  {
    if elements == [] then node
    else FoldProof(h, if directions[0] == 1 then h(elements[0], node) else h(node, elements[0]), elements[1..], directions[1..])
  }

  function Directions(index: nat, depth: nat): (r: seq<nat>)
    ensures |r| == depth
    decreases depth
  {
    if depth == 0 then [] else [index % 2] + Directions(index / 2, depth - 1)
  }

  /** The siblings from layer d upwards on the way from node `index`. */
  function PathFrom(h: Hash, leaves: seq<Field>, d: nat, index: nat, height: nat): (r: seq<Field>)
    ensures |r| == height
    decreases height
  {
    if height == 0 then [] else [NodeAt(h, leaves, d, Sibling(index))] + PathFrom(h, leaves, d + 1, index / 2, height - 1)
  }

  lemma Regroup<T>(before: seq<T>, x: T, after: seq<T>)
    ensures before + ([x] + after) == (before + [x]) + after
  {
  }

  /** `merkleProof`. */
  method MerkleProof(h: Hash, leaves: seq<Field>, layers: seq<seq<Field>>, depth: nat, index: nat)
    returns (elements: seq<Field>, directions: seq<nat>)
    requires |layers| == depth + 1 && forall d :: 0 <= d <= depth ==> layers[d] == LayerAt(h, leaves, d)
    ensures elements == PathFrom(h, leaves, 0, index, depth) && directions == Directions(index, depth)
  {
    hide LayerAt;
    elements, directions := [], [];
    var idx := index;
    for d := 0 to depth
      invariant |elements| == d && |directions| == d
      invariant PathFrom(h, leaves, 0, index, depth) == elements + PathFrom(h, leaves, d, idx, depth - d)
      invariant Directions(index, depth) == directions + Directions(idx, depth - d)
    {
      var layer := layers[d];
      Regroup(elements, NodeAt(h, leaves, d, Sibling(idx)), PathFrom(h, leaves, d + 1, idx / 2, depth - d - 1));
      Regroup(directions, idx % 2, Directions(idx / 2, depth - d - 1));
      elements := elements + [if Sibling(idx) < |layer| then layer[Sibling(idx)] else Zero(h, d)];
      directions := directions + [idx % 2];
      idx := idx / 2;
    }
  }

  lemma {:induction false} FoldReachesNode(h: Hash, leaves: seq<Field>, d: nat, index: nat, height: nat)
    ensures FoldProof(h, NodeAt(h, leaves, d, index), PathFrom(h, leaves, d, index, height), Directions(index, height))
      == NodeAt(h, leaves, d + height, Shift(index, height))
    decreases height
  {
    hide NodeAt;
    if height > 0 {
      var path, dirs := PathFrom(h, leaves, d, index, height), Directions(index, height);
      assert path[1..] == PathFrom(h, leaves, d + 1, index / 2, height - 1) && dirs[1..] == Directions(index / 2, height - 1);
      ParentNode(h, leaves, d, index / 2);
      FoldReachesNode(h, leaves, d + 1, index / 2, height - 1);
    }
  }

  lemma {:induction false} ShiftedOut(n: nat, i: nat)
    requires n < Pow2(i)
    ensures Shift(n, i) == 0
    decreases i
  {
    if i > 0 {
      ShiftedOut(n / 2, i - 1);
    }
  }

  /** The root computed by layers is the root of the full tree. */
  lemma {:induction false} LayersReachTreeRoot(h: Hash, leaves: seq<Field>, d: nat, height: nat)
    requires |LayerAt(h, leaves, d)| <= Pow2(height)
    ensures NodeAt(h, leaves, d + height, 0) == TreeRoot(h, d, height, LayerAt(h, leaves, d))
    decreases height
  {
    hide StepLayer;
    if height > 0 {
      RootOfStep(h, LayerAt(h, leaves, d), d, height - 1);
      LayersReachTreeRoot(h, leaves, d + 1, height - 1);
    }
  }

  /** Completeness: the proof of every position, occupied or empty, folds to the root. */
  lemma ProofFoldsToRoot(h: Hash, leaves: seq<Field>, depth: nat, index: nat)
    requires |leaves| <= Pow2(depth) && index < Pow2(depth)
    ensures FoldProof(h, NodeAt(h, leaves, 0, index), PathFrom(h, leaves, 0, index, depth), Directions(index, depth))
      == TreeRoot(h, 0, depth, leaves)
  {
    hide NodeAt, PathFrom, FoldProof, Directions, TreeRoot, Pow2, Shift;
    FoldReachesNode(h, leaves, 0, index, depth);
    ShiftedOut(index, depth);
    LayersReachTreeRoot(h, leaves, 0, depth);
  }

  /** The pair a fold step hashes. */
  function PairOf(node: Field, element: Field, direction: nat): Pair {
    if direction == 1 then (element, node) else (node, element)
  }

  /** Every pair that is hashed while a leaf is folded with path elements. */
  function FoldPairs(h: Hash, node: Field, elements: seq<Field>, directions: seq<nat>): set<Pair>
    requires |elements| == |directions|
    decreases |elements|
  {
    if elements == [] then {}
    else
      var p := PairOf(node, elements[0], directions[0]);
      {p} + FoldPairs(h, h(p.0, p.1), elements[1..], directions[1..])
  }

  lemma {:induction false} FoldInjective(h: Hash, a: Field, p: seq<Field>, b: Field, q: seq<Field>, directions: seq<nat>)
    requires |p| == |q| == |directions|
    requires FoldProof(h, a, p, directions) == FoldProof(h, b, q, directions)
    requires Separates(h, FoldPairs(h, a, p, directions), FoldPairs(h, b, q, directions))
    ensures a == b && p == q
    decreases |p|
  {
    if p != [] {
      var x, y := PairOf(a, p[0], directions[0]), PairOf(b, q[0], directions[0]);
      assert x in FoldPairs(h, a, p, directions) && y in FoldPairs(h, b, q, directions);
      FoldInjective(h, h(x.0, x.1), p[1..], h(y.0, y.1), q[1..], directions[1..]);
      assert p == [p[0]] + p[1..] && q == [q[0]] + q[1..];
    }
  }

  /**
   Soundness: whatever folds to the root at a position is the leaf there, with the
   genuine path, unless a pair on its path and a different one on the genuine path
   have the same parent.
   */
  lemma ProofBindsLeaf(h: Hash, leaves: seq<Field>, depth: nat, index: nat, leaf: Field, elements: seq<Field>)
    requires |leaves| <= Pow2(depth) && index < Pow2(depth) && |elements| == depth
    requires FoldProof(h, leaf, elements, Directions(index, depth)) == TreeRoot(h, 0, depth, leaves)
    requires var genuine := PathFrom(h, leaves, 0, index, depth);
      Separates(h, FoldPairs(h, leaf, elements, Directions(index, depth)), FoldPairs(h, NodeAt(h, leaves, 0, index), genuine, Directions(index, depth)))
    ensures leaf == NodeAt(h, leaves, 0, index) && elements == PathFrom(h, leaves, 0, index, depth)
  {
    ProofFoldsToRoot(h, leaves, depth, index);
    FoldInjective(h, leaf, elements, NodeAt(h, leaves, 0, index), PathFrom(h, leaves, 0, index, depth), Directions(index, depth));
  }

  // ----- what a root binds -----

  function LeafOr0(leaves: seq<Field>, i: nat): Field {
    if i < |leaves| then leaves[i] else 0
  }

  predicate SamePadded(xs: seq<Field>, ys: seq<Field>, size: nat) {
    forall i :: 0 <= i < size ==> LeafOr0(xs, i) == LeafOr0(ys, i)
  }

  function Front(xs: seq<Field>, m: nat): (r: seq<Field>)
    ensures |r| <= m
  {
    if |xs| <= m then xs else xs[..m]
  }

  function Back(xs: seq<Field>, m: nat): seq<Field> {
    if |xs| <= m then [] else xs[m..]
  }

  lemma RootOfHalves(h: Hash, d: nat, xs: seq<Field>)
    requires |xs| <= Pow2(d + 1)
    ensures |Back(xs, Pow2(d))| <= Pow2(d)
    ensures TreeRoot(h, 0, d + 1, xs) == h(TreeRoot(h, 0, d, Front(xs, Pow2(d))), TreeRoot(h, 0, d, Back(xs, Pow2(d))))
  {
    EmptyTreeRoot(h, 0, d);
  }

  lemma HalvesAt(xs: seq<Field>, m: nat, i: nat)
    requires i < m
    ensures LeafOr0(Front(xs, m), i) == LeafOr0(xs, i) && LeafOr0(Back(xs, m), i) == LeafOr0(xs, m + i)
  {
  }

  lemma PaddedHalves(xs: seq<Field>, ys: seq<Field>, m: nat)
    ensures SamePadded(xs, ys, 2 * m) <==>
      SamePadded(Front(xs, m), Front(ys, m), m) && SamePadded(Back(xs, m), Back(ys, m), m)
  {
    hide LeafOr0;
    forall i | 0 <= i < 2 * m
      ensures LeafOr0(xs, i) == (if i < m then LeafOr0(Front(xs, m), i) else LeafOr0(Back(xs, m), i - m))
      ensures LeafOr0(ys, i) == (if i < m then LeafOr0(Front(ys, m), i) else LeafOr0(Back(ys, m), i - m))
    {
      HalvesAt(xs, m, if i < m then i else i - m);
      HalvesAt(ys, m, if i < m then i else i - m);
    }
    if SamePadded(xs, ys, 2 * m) {
      forall i | 0 <= i < m ensures LeafOr0(Back(xs, m), i) == LeafOr0(Back(ys, m), i) {
        assert LeafOr0(xs, m + i) == LeafOr0(ys, m + i);
      }
      forall i | 0 <= i < m ensures LeafOr0(Front(xs, m), i) == LeafOr0(Front(ys, m), i) {
        assert LeafOr0(xs, i) == LeafOr0(ys, i);
      }
    }
  }

  lemma SingleLeafRoot(h: Hash, xs: seq<Field>, ys: seq<Field>)
    requires |xs| <= 1 && |ys| <= 1
    ensures SamePadded(xs, ys, 1) <==> TreeRoot(h, 0, 0, xs) == TreeRoot(h, 0, 0, ys)
  {
    assert SamePadded(xs, ys, 1) <==> LeafOr0(xs, 0) == LeafOr0(ys, 0);
  }

  /** Every pair of children in the padded tree of height d over the leaves. */
  function NodePairs(h: Hash, d: nat, xs: seq<Field>): set<Pair>
    requires |xs| <= Pow2(d)
    decreases d
  {
    if d == 0 then {}
    else
      RootOfHalves(h, d - 1, xs);
      var left, right := Front(xs, Pow2(d - 1)), Back(xs, Pow2(d - 1));
      {(TreeRoot(h, 0, d - 1, left), TreeRoot(h, 0, d - 1, right))} + NodePairs(h, d - 1, left) + NodePairs(h, d - 1, right)
  }

  lemma {:induction false} SamePaddedSameRoot(h: Hash, d: nat, xs: seq<Field>, ys: seq<Field>)
    requires |xs| <= Pow2(d) && |ys| <= Pow2(d) && SamePadded(xs, ys, Pow2(d))
    ensures TreeRoot(h, 0, d, xs) == TreeRoot(h, 0, d, ys) && NodePairs(h, d, xs) == NodePairs(h, d, ys)
    decreases d
  {
    hide Front, Back, SamePadded, TreeRoot;
    if d == 0 {
      SingleLeafRoot(h, xs, ys);
    } else {
      var m := Pow2(d - 1);
      RootOfHalves(h, d - 1, xs);
      RootOfHalves(h, d - 1, ys);
      PaddedHalves(xs, ys, m);
      SamePaddedSameRoot(h, d - 1, Front(xs, m), Front(ys, m));
      SamePaddedSameRoot(h, d - 1, Back(xs, m), Back(ys, m));
    }
  }

  /**
   Two leaf sequences have the same root exactly when they agree after zero padding,
   unless a pair of children in one tree and a different one in the other have the same
   parent: equal roots of different contents yield such pairs.
   */
  lemma {:induction false} RootBindsPaddedLeaves(h: Hash, d: nat, xs: seq<Field>, ys: seq<Field>)
    requires |xs| <= Pow2(d) && |ys| <= Pow2(d) && Separates(h, NodePairs(h, d, xs), NodePairs(h, d, ys))
    ensures TreeRoot(h, 0, d, xs) == TreeRoot(h, 0, d, ys) <==> SamePadded(xs, ys, Pow2(d))
    decreases d
  {
    hide Front, Back, SamePadded, TreeRoot;
    if d == 0 {
      SingleLeafRoot(h, xs, ys);
    } else {
      var m := Pow2(d - 1);
      RootOfHalves(h, d - 1, xs);
      RootOfHalves(h, d - 1, ys);
      PaddedHalves(xs, ys, m);
      var p := (TreeRoot(h, 0, d - 1, Front(xs, m)), TreeRoot(h, 0, d - 1, Back(xs, m)));
      var q := (TreeRoot(h, 0, d - 1, Front(ys, m)), TreeRoot(h, 0, d - 1, Back(ys, m)));
      assert p in NodePairs(h, d, xs) && q in NodePairs(h, d, ys);
      RootBindsPaddedLeaves(h, d - 1, Front(xs, m), Front(ys, m));
      RootBindsPaddedLeaves(h, d - 1, Back(xs, m), Back(ys, m));
    }
  }

  /** Sequences of one length with one root are equal; lengths matter, since a zero leaf looks like no leaf. */
  lemma RootBindsLeaves(h: Hash, d: nat, xs: seq<Field>, ys: seq<Field>)
    requires |xs| == |ys| <= Pow2(d) && TreeRoot(h, 0, d, xs) == TreeRoot(h, 0, d, ys)
    requires Separates(h, NodePairs(h, d, xs), NodePairs(h, d, ys))
    ensures xs == ys
    ensures TreeRoot(h, 0, d, []) == TreeRoot(h, 0, d, [0])
  {
    RootBindsPaddedLeaves(h, d, xs, ys);
    forall i | 0 <= i < |xs| ensures xs[i] == ys[i] {
      assert LeafOr0(xs, i) == LeafOr0(ys, i);
    }
    EmptyTreeRoot(h, 0, d);
    SingleEmptyNode(h, 0, d);
  }

  /** The separating condition is needed and can be met: both outcomes occur already at height one. */
  lemma SeparationIsTheCondition(h: Hash, a: Field, b: Field, c: Field, d: Field)
    ensures TreeRoot(h, 0, 1, [a, b]) == h(a, b) && NodePairs(h, 1, [a, b]) == {(a, b)}
    ensures Separates(h, NodePairs(h, 1, [a, b]), NodePairs(h, 1, [c, d])) <==> (h(a, b) == h(c, d) ==> (a, b) == (c, d))
    ensures !Separates(h, NodePairs(h, 1, [a, b]), NodePairs(h, 1, [c, d])) ==>
      TreeRoot(h, 0, 1, [a, b]) == TreeRoot(h, 0, 1, [c, d]) && [a, b] != [c, d]
  {
    PairTree(h, a, b);
    PairTree(h, c, d);
    assert [a, b][0] == a && [a, b][1] == b && [c, d][0] == c && [c, d][1] == d;
  }

  lemma PairTree(h: Hash, a: Field, b: Field)
    ensures TreeRoot(h, 0, 1, [a, b]) == h(a, b) && NodePairs(h, 1, [a, b]) == {(a, b)}
  {
    var xs := [a, b];
    assert Pow2(1) == 2 && Pow2(0) == 1;
    RootOfHalves(h, 0, xs);
    assert Front(xs, 1) == [a] && Back(xs, 1) == [b];
    assert TreeRoot(h, 0, 0, [a]) == a && TreeRoot(h, 0, 0, [b]) == b;
    assert NodePairs(h, 0, [a]) == {} && NodePairs(h, 0, [b]) == {};
  }
}
