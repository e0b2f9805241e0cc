/**
 The confidential note tree: a compact frontier with binary-carry append, and the
 full zero-padded Merkle tree of fixed depth that it stands for. The node hash is a
 parameter; nothing is assumed about it.
 */
module NoteTree {
  import opened Common
  import opened Binary
  import opened FieldEncoding

  type Hash = (Field, Field) -> Field

  const MERKLE_TREE_DEPTH: nat := 32
  const MAX_TREE_SIZE: nat := 0x1_0000_0000

  // ----- the full tree -----

  /** Root of an empty subtree of height k. */
  function Zero(h: Hash, k: nat): Field {
    if k == 0 then 0 else h(Zero(h, k - 1), Zero(h, k - 1))
  }

  /** Root of the tree of height d over nodes of height `base`, padded with empty subtrees. */
  function TreeRoot(h: Hash, base: nat, d: nat, nodes: seq<Field>): Field
    requires |nodes| <= Pow2(d)
    decreases d
  {
    if d == 0 then (if nodes == [] then Zero(h, base) else nodes[0])
    else if |nodes| <= Pow2(d - 1) then h(TreeRoot(h, base, d - 1, nodes), Zero(h, base + d - 1))
    else h(TreeRoot(h, base, d - 1, nodes[..Pow2(d - 1)]), TreeRoot(h, base, d - 1, nodes[Pow2(d - 1)..]))
  }

  lemma {:induction false} EmptyTreeRoot(h: Hash, base: nat, d: nat)
    ensures TreeRoot(h, base, d, []) == Zero(h, base + d)
  {
    if d > 0 {
      EmptyTreeRoot(h, base, d - 1);
    }
  }

  /** Two complete halves joined by one node. */
  lemma JoinHalves(h: Hash, d: nat, left: seq<Field>, right: seq<Field>)
    requires |left| == Pow2(d) && |right| <= Pow2(d)
    ensures TreeRoot(h, 0, d + 1, left + right) == h(TreeRoot(h, 0, d, left), TreeRoot(h, 0, d, right))
  {
    if right == [] {
      assert left + right == left;
      EmptyTreeRoot(h, 0, d);
    } else {
      assert (left + right)[..Pow2(d)] == left && (left + right)[Pow2(d)..] == right;
    }
  }

  // ----- stored states -----

  /** A stored tree: size, one text per occupied level, root text. */
  datatype TreeState = TreeState(treeSize: int, frontier: seq<Option<string>>, root: string)

  type Levels = seq<Option<Field>>

  /** Which levels of a tree of this size are occupied: the binary digits of the size. */
  predicate Shape(size: nat, levels: Levels) {
    && size <= MAX_TREE_SIZE
    && |levels| == (if size < MAX_TREE_SIZE then 32 else 33)
    && forall i :: 0 <= i < |levels| ==> (levels[i].Some? <==> Bit(size, i) == 1)
  }

  /** The first leaf of the complete block that level i of the frontier covers. */
  function BlockStart(n: nat, i: nat): (r: nat)
    ensures r <= BlockEnd(n, i)
    ensures Bit(n, i) == 1 ==> BlockEnd(n, i) - r == Pow2(i)
  {
    LowStep(n, i);
    n - Low(n, i + 1)
  }

  function BlockEnd(n: nat, i: nat): (r: nat)
    ensures r <= n
  {
    n - Low(n, i)
  }

  /** Level i of the frontier of a leaf sequence: the root of its complete block of 2^i leaves. */
  function LevelOf(h: Hash, leaves: seq<Field>, i: nat): (r: Option<Field>)
    ensures r.Some? <==> Bit(|leaves|, i) == 1
  {
    if Bit(|leaves|, i) == 1
    then Some(TreeRoot(h, 0, i, leaves[BlockStart(|leaves|, i)..BlockEnd(|leaves|, i)]))
    else None
  }

  function LevelsOf(h: Hash, leaves: seq<Field>): (r: Levels)
    ensures |leaves| < MAX_TREE_SIZE ==> Shape(|leaves|, r)
  {
    seq(32, i requires 0 <= i < 32 => LevelOf(h, leaves, i))
  }

  function Serialize(levels: Levels): seq<Option<string>> {
    seq(|levels|, i requires 0 <= i < |levels| =>
      match levels[i] case None => None case Some(x) => Some(PrintDecimal(x)))
  }

  /** The one stored state that stands for a leaf sequence. */
  function StateOf(h: Hash, leaves: seq<Field>): TreeState
    requires |leaves| < MAX_TREE_SIZE
  {
    MaxIsPow2();
    TreeState(|leaves|, Serialize(LevelsOf(h, leaves)), PrintDecimal(TreeRoot(h, 0, 32, leaves)))
  }

  lemma MaxIsPow2()
    ensures Pow2(32) == MAX_TREE_SIZE
  {
    assert Pow2(8) == 256;
    assert Pow2(16) == 65536;
    assert Pow2(24) == 16777216;
  }

  // ----- reading a stored state -----

  function ParseTreeSize(size: int): Result<nat> {
    if size < 0 || size >= MAX_TREE_SIZE then Err("INVALID_MERKLE_TREE_STATE") else Ok(size)
  }

  predicate LevelAccepted(size: nat, entry: Option<string>, level: nat) {
    if Bit(size, level) == 1 then entry.Some? && NormalizeFieldElement(entry.value).Ok? else entry.None?
  }

  /** `parseMerkleFrontier`: exactly 32 levels, occupied by field elements exactly where the size says. */
  function ParseFrontier(size: int, frontier: seq<Option<string>>): (r: Result<Levels>)
    ensures r.Ok? ==> 0 <= size < MAX_TREE_SIZE && Shape(size, r.value)
  {
    var parsed := ParseTreeSize(size);
    if parsed.Err? then Err(parsed.code)
    else if |frontier| != 32 || exists i :: 0 <= i < 32 && !LevelAccepted(size, frontier[i], i) then Err("INVALID_MERKLE_TREE_STATE")
    else
      Ok(seq(32, i requires 0 <= i < 32 =>
        match frontier[i] case None => None case Some(text) => assert LevelAccepted(size, frontier[i], i); Some(NormalizeFieldElement(text).value)))
  }

  /** The fold of `merkleRootFromFrontier` from one level upwards. */
  function FoldRoot(h: Hash, levels: Levels, level: nat, hash: Field): Field
    requires level <= |levels|
    decreases |levels| - level
  {
    if level == |levels| then hash
    else FoldRoot(h, levels, level + 1,
      match levels[level] case None => h(hash, Zero(h, level)) case Some(x) => h(x, hash))
  }

  function RootFromFrontier(h: Hash, size: int, frontier: seq<Option<string>>): Result<Field> {
    match ParseFrontier(size, frontier)
    case Err(e) => Err(e)
    case Ok(levels) => Ok(FoldRoot(h, levels, 0, Zero(h, 0)))
  }

  // ----- appending -----

  /** The carry loop of one append, from one level upwards. */
  function Carry(h: Hash, size: nat, levels: Levels, carry: Field, level: nat): Levels
    requires size < MAX_TREE_SIZE && |levels| == 32 && level <= 32
    requires forall i :: level <= i < 32 ==> (levels[i].Some? <==> Bit(size, i) == 1)
    decreases 32 - level
  {
    if level == 32 then levels + [Some(carry)]
    else if Bit(size, level) == 1 then Carry(h, size, levels[level := None], h(levels[level].value, carry), level + 1)
    else levels[level := Some(carry)]
  }

  lemma {:induction false} CarryShape(h: Hash, size: nat, levels: Levels, carry: Field, level: nat)
    requires size < MAX_TREE_SIZE && |levels| == 32 && level <= 32
    requires forall i :: level <= i < 32 ==> (levels[i].Some? <==> Bit(size, i) == 1)
    requires forall i :: 0 <= i < level ==> levels[i].None?
    requires Low(size, level) + 1 == Pow2(level)
    ensures Shape(size + 1, Carry(h, size, levels, carry, level))
    decreases 32 - level
  {
    hide Low, Shift;
    MaxIsPow2();
    var next := size + 1;
    SmallNumber(size, 32);
    if level == 32 || Bit(size, level) == 0 {
      forall i: nat | i <= 32 ensures Bit(next, i) == if i < level then 0 else if i == level then 1 else Bit(size, i) {
        IncrementDigits(size, level, i);
      }
      if level < 32 {
        RoomBelow(size, level, 32);
      }
    } else {
      LowStep(size, level);
      CarryShape(h, size, levels[level := None], h(levels[level].value, carry), level + 1);
    }
  }

  /** The frontier after one leaf. */
  function Push(h: Hash, size: nat, levels: Levels, leaf: Field): (r: Levels)
    requires size < MAX_TREE_SIZE && Shape(size, levels)
    ensures Shape(size + 1, r)
  {
    CarryShape(h, size, levels, leaf, 0);
    Carry(h, size, levels, leaf, 0)
  }

  // ----- the frontier refines the full tree -----

  /** Reading back what was written: a serialized frontier parses to itself. */
  lemma ParseSerialized(size: nat, levels: Levels)
    requires size < MAX_TREE_SIZE && Shape(size, levels)
    ensures ParseFrontier(size, Serialize(levels)) == Ok(levels)
  {
    var texts := Serialize(levels);
    forall i | 0 <= i < 32
      ensures LevelAccepted(size, texts[i], i)
      ensures levels[i].Some? ==> NormalizeFieldElement(texts[i].value) == Ok(levels[i].value)
    {
      assert Bit(size, i) == 0 || Bit(size, i) == 1;
      if levels[i].Some? {
        NormalizePrinted(levels[i].value);
      }
    }
    assert ParseFrontier(size, texts).Ok?;
    assert ParseFrontier(size, texts).value == levels;
  }

  /** The leaves beyond the last complete block of height `level`. */
  function Remainder(leaves: seq<Field>, level: nat): (r: seq<Field>)
    ensures |r| < Pow2(level)
  {
    leaves[BlockEnd(|leaves|, level)..]
  }

  /** One level of the root fold. */
  lemma FoldStep(h: Hash, leaves: seq<Field>, level: nat)
    ensures TreeRoot(h, 0, level + 1, Remainder(leaves, level + 1)) ==
      var hash := TreeRoot(h, 0, level, Remainder(leaves, level));
      match LevelOf(h, leaves, level) case None => h(hash, Zero(h, level)) case Some(x) => h(x, hash)
  {
    var n := |leaves|;
    LowStep(n, level);
    var rest, more := Remainder(leaves, level), Remainder(leaves, level + 1);
    if Bit(n, level) == 1 {
      var block := leaves[BlockStart(n, level)..BlockEnd(n, level)];
      assert more == block + rest;
      JoinHalves(h, level, block, rest);
    } else {
      assert Bit(n, level) == 0;
      assert more == rest;
    }
  }

  /**
   The root fold: after the low `level` levels the running hash is the root of the
   leaves beyond the last block of that height, padded to height `level`.
   */
  lemma {:induction false} FoldIsTreeRoot(h: Hash, leaves: seq<Field>, level: nat)
    requires |leaves| < Pow2(32) && level <= 32
    ensures FoldRoot(h, LevelsOf(h, leaves), level, TreeRoot(h, 0, level, Remainder(leaves, level))) == TreeRoot(h, 0, 32, leaves)
    decreases 32 - level
  {
    hide Low, Shift, Bit, TreeRoot, Pow2, LevelOf;
    if level == 32 {
      SmallNumber(|leaves|, 32);
      assert Remainder(leaves, level) == leaves;
    } else {
      FoldStep(h, leaves, level);
      FoldIsTreeRoot(h, leaves, level + 1);
    }
  }

  /** The stored state of a leaf sequence reproduces the root of the full tree over it. */
  lemma FrontierReproducesRoot(h: Hash, leaves: seq<Field>)
    requires |leaves| < MAX_TREE_SIZE
    ensures Pow2(32) == MAX_TREE_SIZE
    ensures RootFromFrontier(h, |leaves|, StateOf(h, leaves).frontier) == Ok(TreeRoot(h, 0, 32, leaves))
  {
    MaxIsPow2();
    ParseSerialized(|leaves|, LevelsOf(h, leaves));
    assert Remainder(leaves, 0) == [];
    FoldIsTreeRoot(h, leaves, 0);
  }

  /** One level of the frontier after an append whose carry stops at `level`. */
  lemma CarriedLevel(h: Hash, leaves: seq<Field>, leaf: Field, level: nat, i: nat)
    requires Low(|leaves|, level) + 1 == Pow2(level) && Bit(|leaves|, level) == 0
    requires Pow2(level) <= |leaves| + 1
    ensures LevelOf(h, leaves + [leaf], i) ==
      if i < level then None
      else if i == level then Some(TreeRoot(h, 0, level, Tail(leaves, leaf, level)))
      else LevelOf(h, leaves, i)
  {
    hide Low, Shift, Bit, TreeRoot, Pow2;
    var n, grown := |leaves|, leaves + [leaf];
    IncrementDigits(n, level, i);
    IncrementDigits(n, level, i + 1);
    if i == level {
      assert grown[BlockStart(n + 1, level)..BlockEnd(n + 1, level)] == Tail(leaves, leaf, level);
    } else if i > level {
      assert grown[BlockStart(n + 1, i)..BlockEnd(n + 1, i)] == leaves[BlockStart(n, i)..BlockEnd(n, i)];
    }
  }

  /** The last 2^level leaves after an append, whose root the carry loop holds at `level`. */
  function Tail(leaves: seq<Field>, leaf: Field, level: nat): (r: seq<Field>)
    requires Pow2(level) <= |leaves| + 1
    ensures |r| == Pow2(level)
  {
    (leaves + [leaf])[|leaves| + 1 - Pow2(level)..]
  }

  /** One carry: an occupied level joins the running carry. */
  lemma CarryStep(h: Hash, leaves: seq<Field>, leaf: Field, level: nat)
    requires Low(|leaves|, level) + 1 == Pow2(level) && Bit(|leaves|, level) == 1
    ensures Pow2(level) <= Pow2(level + 1) <= |leaves| + 1
    ensures Low(|leaves|, level + 1) + 1 == Pow2(level + 1)
    ensures TreeRoot(h, 0, level + 1, Tail(leaves, leaf, level + 1)) ==
      h(LevelOf(h, leaves, level).value, TreeRoot(h, 0, level, Tail(leaves, leaf, level)))
  {
    var n := |leaves|;
    LowStep(n, level);
    var block := leaves[BlockStart(n, level)..BlockEnd(n, level)];
    assert Tail(leaves, leaf, level + 1) == block + Tail(leaves, leaf, level);
    JoinHalves(h, level, block, Tail(leaves, leaf, level));
  }

  /**
   The carry loop in mid-flight: below `level` the frontier is cleared, from `level`
   on it is still the old one, and the carry is the root of the last 2^level leaves.
   */
  lemma {:induction false} CarryRefines(h: Hash, leaves: seq<Field>, leaf: Field, levels: Levels, carry: Field, level: nat)
    requires |leaves| + 1 < MAX_TREE_SIZE && |levels| == 32 && level < 32
    requires Low(|leaves|, level) + 1 == Pow2(level) && Pow2(level) <= |leaves| + 1
    requires forall i :: level <= i < 32 ==> levels[i] == LevelOf(h, leaves, i) && (levels[i].Some? <==> Bit(|leaves|, i) == 1)
    requires forall i :: 0 <= i < level ==> levels[i] == None
    requires carry == TreeRoot(h, 0, level, Tail(leaves, leaf, level))
    ensures Carry(h, |leaves|, levels, carry, level) == LevelsOf(h, leaves + [leaf])
    decreases 32 - level
  {
    hide Low, Shift, TreeRoot, LevelOf, Pow2;
    if Bit(|leaves|, level) == 1 {
      CarryStep(h, leaves, leaf, level);
      MaxIsPow2();
      CarryRefines(h, leaves, leaf, levels[level := None], h(levels[level].value, carry), level + 1);
    } else {
      assert Bit(|leaves|, level) == 0;
      var result := levels[level := Some(carry)];
      forall i | 0 <= i < 32 ensures result[i] == LevelOf(h, leaves + [leaf], i) {
        CarriedLevel(h, leaves, leaf, level, i);
      }
      assert result == LevelsOf(h, leaves + [leaf]);
    }
  }

  // ----- whole appends -----

  /** Pushes the leaves in order; the first text that is no field element stops the append. */
  function PushAll(h: Hash, size: nat, levels: Levels, leaves: seq<string>): (r: Result<Levels>)
    requires size + |leaves| <= MAX_TREE_SIZE && Shape(size, levels)
    ensures r.Ok? ==> Shape(size + |leaves|, r.value)
    decreases |leaves|
  {
    if leaves == [] then Ok(levels)
    else
      match NormalizeFieldElement(leaves[0])
      case Err(e) => Err(e)
      case Ok(leaf) =>
        PushAll(h, size + 1, Push(h, size, levels, leaf), leaves[1..])
  }

  /** `appendMerkleLeaves`, errors included, in the order the source raises them. */
  function AppendLeaves(h: Hash, treeSize: int, frontier: seq<Option<string>>, expectedRoot: Option<string>, leaves: seq<string>): Result<TreeState> {
    match ParseFrontier(treeSize, frontier)
    case Err(e) => Err(e)
    case Ok(levels) =>
      if expectedRoot.Some? && PrintDecimal(FoldRoot(h, levels, 0, Zero(h, 0))) != expectedRoot.value then Err("MERKLE_FRONTIER_ROOT_MISMATCH")
      else if leaves == [] then Err("INVALID_MERKLE_APPEND")
      else if treeSize + |leaves| > MAX_TREE_SIZE then Err("MERKLE_TREE_FULL")
      else
        match PushAll(h, treeSize, levels, leaves)
        case Err(e) => Err(e)
        case Ok(grown) =>
          match RootFromFrontier(h, treeSize + |leaves|, Serialize(grown))
          case Err(e) => Err(e)
          case Ok(root) => Ok(TreeState(treeSize + |leaves|, Serialize(grown), PrintDecimal(root)))
  }

  function Texts(leaves: seq<Field>): seq<string> {
    seq(|leaves|, i requires 0 <= i < |leaves| => PrintDecimal(leaves[i]))
  }

  lemma TextsSplit(leaves: seq<Field>)
    requires leaves != []
    ensures |Texts(leaves)| == |leaves| && NormalizeFieldElement(Texts(leaves)[0]) == Ok(leaves[0])
    ensures Texts(leaves)[1..] == Texts(leaves[1..])
  {
    NormalizePrinted(leaves[0]);
  }

  /** One append moves the frontier of a sequence to the frontier of the sequence with the leaf added. */
  lemma PushOneRefines(h: Hash, leaves: seq<Field>, leaf: Field)
    requires |leaves| + 1 < MAX_TREE_SIZE
    ensures Push(h, |leaves|, LevelsOf(h, leaves), leaf) == LevelsOf(h, leaves + [leaf])
  {
    assert Tail(leaves, leaf, 0) == [leaf];
    assert Pow2(0) == 1;
    CarryRefines(h, leaves, leaf, LevelsOf(h, leaves), leaf, 0);
  }

  lemma {:induction false} PushRefines(h: Hash, leaves: seq<Field>, more: seq<Field>)
    requires |leaves| + |more| < MAX_TREE_SIZE
    ensures PushAll(h, |leaves|, LevelsOf(h, leaves), Texts(more)) == Ok(LevelsOf(h, leaves + more))
    decreases |more|
  {
    hide LevelOf, TreeRoot, Bit, Pow2, Push;
    if more == [] {
      assert leaves + more == leaves;
    } else {
      TextsSplit(more);
      PushOneRefines(h, leaves, more[0]);
      PushRefines(h, leaves + [more[0]], more[1..]);
      assert leaves + more == (leaves + [more[0]]) + more[1..];
    }
  }

  /** Appending to the state of a leaf sequence gives the state of the longer sequence. */
  lemma AppendRefinesFullTree(h: Hash, leaves: seq<Field>, more: seq<Field>)
    requires more != [] && |leaves| + |more| < MAX_TREE_SIZE
    ensures var before := StateOf(h, leaves);
      AppendLeaves(h, before.treeSize, before.frontier, Some(before.root), Texts(more)) == Ok(StateOf(h, leaves + more))
  {
    hide LevelOf, LevelsOf, TreeRoot, Bit, Pow2, Push, Shape, ParseFrontier, FoldRoot, Serialize, PrintDecimal;
    ParseSerialized(|leaves|, LevelsOf(h, leaves));
    FrontierReproducesRoot(h, leaves);
    PushRefines(h, leaves, more);
    FrontierReproducesRoot(h, leaves + more);
  }

  /**
   The capacity check admits a final size of exactly 2^32, but the root of such a
   tree cannot be recomputed: appending field elements to a genuine state succeeds
   exactly when there is a leaf and the final size stays below 2^32.
   */
  lemma AppendCapacity(h: Hash, leaves: seq<Field>, more: seq<Field>)
    requires |leaves| < MAX_TREE_SIZE
    ensures var before := StateOf(h, leaves);
      var r := AppendLeaves(h, before.treeSize, before.frontier, Some(before.root), Texts(more));
      && (r.Ok? <==> more != [] && |leaves| + |more| < MAX_TREE_SIZE)
      && (|leaves| + |more| == MAX_TREE_SIZE ==> r == Err("INVALID_MERKLE_TREE_STATE"))
      && (|leaves| + |more| > MAX_TREE_SIZE ==> r == Err("MERKLE_TREE_FULL"))
  {
    ParseSerialized(|leaves|, LevelsOf(h, leaves));
    FrontierReproducesRoot(h, leaves);
    if more != [] && |leaves| + |more| < MAX_TREE_SIZE {
      AppendRefinesFullTree(h, leaves, more);
    } else if |leaves| + |more| == MAX_TREE_SIZE {
      PushPrinted(h, |leaves|, LevelsOf(h, leaves), more);
    }
  }

  lemma {:induction false} PushPrinted(h: Hash, size: nat, levels: Levels, more: seq<Field>)
    requires size + |more| <= MAX_TREE_SIZE && Shape(size, levels)
    ensures PushAll(h, size, levels, Texts(more)).Ok?
    decreases |more|
  {
    hide Shape, Push, NormalizeFieldElement;
    if more != [] {
      TextsSplit(more);
      PushPrinted(h, size + 1, Push(h, size, levels, more[0]), more[1..]);
    }
  }

  // ----- batches -----

  function Concat(batches: seq<seq<Field>>): seq<Field> {
    if batches == [] then [] else batches[0] + Concat(batches[1..])
  }

  /** A run of appends, each checking the root the previous one returned. */
  function AppendBatches(h: Hash, state: TreeState, batches: seq<seq<Field>>): Result<TreeState>
    decreases |batches|
  {
    if batches == [] then Ok(state)
    else
      match AppendLeaves(h, state.treeSize, state.frontier, Some(state.root), Texts(batches[0]))
      case Err(e) => Err(e)
      case Ok(next) => AppendBatches(h, next, batches[1..])
  }

  /** However the leaves are split into batches, the final state is the one of the whole sequence. */
  lemma {:induction false} BatchingIsIrrelevant(h: Hash, leaves: seq<Field>, batches: seq<seq<Field>>)
    requires forall i :: 0 <= i < |batches| ==> batches[i] != []
    requires |leaves| + |Concat(batches)| < MAX_TREE_SIZE
    ensures AppendBatches(h, StateOf(h, leaves), batches) == Ok(StateOf(h, leaves + Concat(batches)))
    decreases |batches|
  {
    hide StateOf, AppendLeaves, Texts;
    if batches == [] {
      assert leaves + Concat(batches) == leaves;
    } else {
      AppendRefinesFullTree(h, leaves, batches[0]);
      BatchingIsIrrelevant(h, leaves + batches[0], batches[1..]);
      assert leaves + Concat(batches) == (leaves + batches[0]) + Concat(batches[1..]);
    }
  }

  // ----- the loops of the source -----

  method MerkleZeros(h: Hash) returns (zeros: seq<Field>)
    ensures |zeros| == MERKLE_TREE_DEPTH + 1
    ensures forall k :: 0 <= k <= MERKLE_TREE_DEPTH ==> zeros[k] == Zero(h, k)
  {
    zeros := [0];
    for level := 1 to MERKLE_TREE_DEPTH + 1
      invariant |zeros| == level
      invariant forall k :: 0 <= k < level ==> zeros[k] == Zero(h, k)
    {
      zeros := zeros + [h(zeros[level - 1], zeros[level - 1])];
    }
  }

  method EmptyMerkleTreeState(h: Hash) returns (state: TreeState)
    ensures state == StateOf(h, [])
  {
    var zeros := MerkleZeros(h);
    state := TreeState(0, seq(32, _ => None), PrintDecimal(zeros[MERKLE_TREE_DEPTH]));
    EmptyTreeRoot(h, 0, 32);
    forall i | 0 <= i < 32 ensures LevelOf(h, [], i) == None {
      SmallNumber(0, i);
    }
    assert state.frontier == Serialize(LevelsOf(h, []));
  }

  method MerkleRootFromFrontier(h: Hash, treeSize: int, frontier: seq<Option<string>>) returns (r: Result<Field>)
    ensures r == RootFromFrontier(h, treeSize, frontier)
  {
    var levels := ParseFrontier(treeSize, frontier);
    if levels.Err? {
      return Err(levels.code);
    }
    var zeros := MerkleZeros(h);
    var hash := zeros[0];
    for level := 0 to MERKLE_TREE_DEPTH
      invariant FoldRoot(h, levels.value, 0, Zero(h, 0)) == FoldRoot(h, levels.value, level, hash)
    {
      hash := match levels.value[level] case None => h(hash, zeros[level]) case Some(x) => h(x, hash);
    }
    return Ok(hash);
  }

  /** One iteration of the append loop: the inner loop carries, then the level is filled. */
  method PushLeaf(h: Hash, size: nat, before: Levels, leaf: Field) returns (levels: Levels)
    requires size < MAX_TREE_SIZE && Shape(size, before)
    ensures levels == Push(h, size, before, leaf)
  {
    levels := before;
    var carry, level := leaf, 0;
    MaxIsPow2();
    SmallNumber(size, 32);
    while Shift(size, level) % 2 == 1
      invariant 0 <= level <= 32 && |levels| == 32
      invariant forall i :: level <= i < 32 ==> (levels[i].Some? <==> Bit(size, i) == 1)
      invariant Carry(h, size, before, leaf, 0) == Carry(h, size, levels, carry, level)
      decreases 32 - level
    {
      carry := h(levels[level].value, carry);
      levels := levels[level := None];
      level := level + 1;
    }
    levels := if level < |levels| then levels[level := Some(carry)] else levels + [Some(carry)];
  }

  method AppendMerkleLeaves(h: Hash, treeSize: int, frontier: seq<Option<string>>, expectedRoot: Option<string>, leaves: seq<string>)
    returns (r: Result<TreeState>)
    ensures r == AppendLeaves(h, treeSize, frontier, expectedRoot, leaves)
  {
    hide Push, FoldRoot, Bit, Pow2, PrintDecimal, NormalizeFieldElement, Serialize;
    var parsed := ParseFrontier(treeSize, frontier);
    if parsed.Err? {
      return Err(parsed.code);
    }
    if expectedRoot.Some? {
      var current := MerkleRootFromFrontier(h, treeSize, frontier);
      if PrintDecimal(current.value) != expectedRoot.value {
        return Err("MERKLE_FRONTIER_ROOT_MISMATCH");
      }
    }
    if |leaves| == 0 {
      return Err("INVALID_MERKLE_APPEND");
    }
    if treeSize + |leaves| > MAX_TREE_SIZE {
      return Err("MERKLE_TREE_FULL");
    }
    var size, levels := treeSize, parsed.value;
    for next := 0 to |leaves|
      invariant size == treeSize + next && Shape(size, levels)
      invariant PushAll(h, treeSize, parsed.value, leaves) == PushAll(h, size, levels, leaves[next..])
    {
      var leaf := NormalizeFieldElement(leaves[next]);
      if leaf.Err? {
        return Err(leaf.code);
      }
      levels := PushLeaf(h, size, levels, leaf.value);
      size := size + 1;
      assert leaves[next..][0] == leaves[next] && leaves[next..][1..] == leaves[next + 1..];
    }
    var root := MerkleRootFromFrontier(h, size, Serialize(levels));
    if root.Err? {
      return Err(root.code);
    }
    return Ok(TreeState(size, Serialize(levels), PrintDecimal(root.value)));
  }
}
