/**
 Publishing and applying roots, decided by the trees: which proposals of a root are taken,
 what a second person's decision makes of them, and what every proposal on file extends.
 */
module ConfidentialRailPublications {
  import opened Common
  import opened FieldEncoding
  import opened NoteTree
  import opened ConfidentialRail
  import opened ConfidentialRailSafety
  import opened ConfidentialRailRoots
  import G = ConfidentialRailGovernance

  /** The leaves of the context's finalized transactions, and with the transaction's own outputs after them. */
  function Before(c: Config, s: State, x: string): seq<Field>
    requires x in s.transfers && s.transfers[x].receipt.Some?
  {
    LeavesOf(c, s.transfers, s.attestations, s.transfers[x].receipt.value.contextId)
  }

  function After(c: Config, s: State, x: string): seq<Field>
    requires x in s.transfers && s.transfers[x].receipt.Some?
  {
    Before(c, s, x) + Leaves(c, s.transfers[x].receipt.value.outputs)
  }

  /** The root of the full tree over these leaves, as a field text. */
  function RootText(c: Config, leaves: seq<Field>): string
    requires |leaves| < MAX_TREE_SIZE
  {
    MaxIsPow2();
    PrintDecimal(TreeRoot(c.node, 0, 32, leaves))
  }

  /** The transaction waits for its root on an active product, and the tree has room for its outputs. */
  predicate Awaits(c: Config, w: World, s: State, x: string) {
    && x in s.transfers && s.transfers[x].phase == ROOT_PENDING && s.transfers[x].receipt.Some?
    && w.productActive(s.transfers[x].product) && |After(c, s, x)| < MAX_TREE_SIZE
  }

  predicate Unproposed(s: State, x: string) {
    forall p :: 0 <= p < |s.finalizations| && s.finalizations[p].transaction == x ==> s.finalizations[p].status == Cancelled
  }

  lemma StateText(c: Config, leaves: seq<Field>)
    requires |leaves| < MAX_TREE_SIZE
    ensures StateOf(c.node, leaves).root == RootText(c, leaves) && StateOf(c.node, leaves).treeSize == |leaves|
  {
    hide TreeRoot, LevelsOf, PrintDecimal, Serialize;
  }

  /** With the CURRENT row standing for these leaves, the server's own extension is the tree with the two outputs added, whenever it fits. */
  lemma ExtensionOf(c: Config, s: State, r: Receipt, leaves: seq<Field>)
    requires TreeIs(c, s.roots, r.contextId, leaves) && |r.outputs| == 2
    ensures var e := VerifiedExtension(c, s, r); var after := leaves + Leaves(c, r.outputs);
      && |leaves| < MAX_TREE_SIZE && |after| == |leaves| + 2 && (e.Ok? <==> |after| < MAX_TREE_SIZE)
      && (e.Err? ==> e.code == if |after| == MAX_TREE_SIZE then "INVALID_MERKLE_TREE_STATE" else "MERKLE_TREE_FULL")
      && (e.Ok? ==>
        && e.value.next.root == RootText(c, after) && e.value.next.treeSize == |after| && OnlyCurrent(s.roots, r.contextId, e.value.row)
        && s.roots[e.value.row].root == RootText(c, leaves) && s.roots[e.value.row].size == |leaves|)
  {
    hide AppendLeaves, StateOf, RootText;
    var more := Leaves(c, r.outputs);
    AppendCapacity(c.node, leaves, more);
    var n: nat :| OnlyCurrent(s.roots, r.contextId, n)
      && TreeState(s.roots[n].size, s.roots[n].frontier, s.roots[n].root) == StateOf(c.node, leaves);
    assert CurrentRoot(s.roots, r.contextId, |s.roots|) == Some(n);
    StateText(c, leaves);
    if VerifiedExtension(c, s, r).Ok? {
      ExtensionIsTheTree(c, s, r, leaves);
      StateText(c, leaves + more);
    }
  }

  lemma ExtensionExactly(c: Config, s: State, x: string)
    requires Settlement(c, s) && RootsGood(c, s) && x in s.transfers && s.transfers[x].receipt.Some?
    ensures var e := VerifiedExtension(c, s, s.transfers[x].receipt.value); var before, after := Before(c, s, x), After(c, s, x);
      && |before| < MAX_TREE_SIZE && |after| == |before| + 2 && (e.Ok? <==> |after| < MAX_TREE_SIZE)
      && (e.Err? ==> e.code == if |after| == MAX_TREE_SIZE then "INVALID_MERKLE_TREE_STATE" else "MERKLE_TREE_FULL")
      && (e.Ok? ==>
        && e.value.next.root == RootText(c, after) && e.value.next.treeSize == |after|
        && OnlyCurrent(s.roots, s.transfers[x].receipt.value.contextId, e.value.row)
        && s.roots[e.value.row].root == RootText(c, before) && s.roots[e.value.row].size == |before|)
  {
    TwoOutputs(c, s, x);
    assert Registered(s.contexts, s.transfers[x].receipt.value.contextId);
    assert TreeIs(c, s.roots, s.transfers[x].receipt.value.contextId, Before(c, s, x));
    hide Settlement, RootsGood, LeavesOf, TreeIs, VerifiedExtension, RootText, OnlyCurrent;
    ExtensionOf(c, s, s.transfers[x].receipt.value, Before(c, s, x));
  }

  lemma RootTextAccepted(c: Config, leaves: seq<Field>)
    requires |leaves| < MAX_TREE_SIZE
    ensures NormalizeFieldElement(RootText(c, leaves)).Ok?
  {
    MaxIsPow2();
    ParseOfPrint(TreeRoot(c.node, 0, 32, leaves));
  }

  /**
   A proposal of a root is taken exactly when the transaction waits for it, nobody else's
   proposal stands, and root and size are those of the full tree with its two outputs;
   it is then on file against the tree as it is.
   */
  lemma PublicationIff(c: Config, w: World, s: State, x: string, root: string, size: int, maker: string)
    requires Settlement(c, s) && RootsGood(c, s)
    ensures var (t, reply) := ProposeFinalization(c, w, s, x, root, size, maker);
      && (reply == Done <==> Awaits(c, w, s, x) && Unproposed(s, x) && root == RootText(c, After(c, s, x)) && size == |After(c, s, x)|)
      && t == (if reply == Done
        then s.(finalizations := s.finalizations + [Finalization(x, RootText(c, Before(c, s, x)), |Before(c, s, x)|, root, size, maker, None, Live)]) else s)
  {
    hide Settlement, RootsGood, Before, After, RootText, VerifiedExtension, NormalizeFieldElement;
    if x in s.transfers && s.transfers[x].receipt.Some? {
      ExtensionExactly(c, s, x);
      if |After(c, s, x)| < MAX_TREE_SIZE {
        RootTextAccepted(c, After(c, s, x));
      }
    }
  }

  /** The transaction's proposal on file. */
  predicate Pending(s: State, p: nat, x: string) {
    p < |s.finalizations| && s.finalizations[p].transaction == x && s.finalizations[p].status == Live
  }

  /** The proposal was made against the tree as it still is. */
  predicate Fresh(c: Config, s: State, x: string, q: Finalization)
    requires x in s.transfers && s.transfers[x].receipt.Some? && |Before(c, s, x)| < MAX_TREE_SIZE
  {
    q.baseRoot == RootText(c, Before(c, s, x)) && q.baseSize == |Before(c, s, x)|
  }

  /** Whoever did not make the proposal may decide it while the transaction waits. */
  predicate MayDecide(c: Config, w: World, s: State, x: string, q: Finalization, checker: string) {
    Awaits(c, w, s, x) && q.maker != checker
  }

  /**
   A decision applies a proposal exactly when it is someone else's, the tree is still the
   one it was made against, root and size are those of the tree with the two outputs, and
   the context never had that root; it cancels it exactly when that tree has moved on, and
   otherwise changes nothing. Applied, the new root joins the context and the transaction
   is settled; no other transaction is touched.
   */
  lemma DecisionIff(c: Config, w: World, s: State, p: nat, x: string, checker: string)
    requires Settlement(c, s) && RootsGood(c, s) && Pending(s, p, x)
    ensures var (t, reply) := Finalize(c, w, s, x, checker); var q := s.finalizations[p];
      && (reply == Done <==>
        && MayDecide(c, w, s, x, q, checker) && Fresh(c, s, x, q)
        && q.root == RootText(c, After(c, s, x)) && q.size == |After(c, s, x)| && !RootKnown(s.roots, s.transfers[x].receipt.value.contextId, q.root))
      && (if MayDecide(c, w, s, x, q, checker) && !Fresh(c, s, x, q)
        then reply == Error("STALE_ROOT_PUBLICATION") && t == s.(finalizations := s.finalizations[p := q.(status := Cancelled)])
        else reply != Done ==> t == s)
      && (reply == Done ==>
        && t.transfers == s.transfers[x := s.transfers[x].(phase := SETTLED)]
        && t.finalizations == s.finalizations[p := q.(status := Applied, checker := Some(checker))])
  {
    hide Settlement, RootsGood, Before, After, RootText, Finalize, RootKnown;
    if x in s.transfers && s.transfers[x].receipt.Some? {
      ExtensionExactly(c, s, x);
    }
    if MayDecide(c, w, s, x, s.finalizations[p], checker) {
      Decided(c, w, s, p, x, checker);
    } else {
      Undecided(c, w, s, p, x, checker);
    }
  }

  lemma Undecided(c: Config, w: World, s: State, p: nat, x: string, checker: string)
    requires Settlement(c, s) && RootsGood(c, s) && Pending(s, p, x) && !MayDecide(c, w, s, x, s.finalizations[p], checker)
    ensures Finalize(c, w, s, x, checker).0 == s && Finalize(c, w, s, x, checker).1 != Done
  {
    hide Settlement, RootsGood, Before, After, RootText, VerifiedExtension, LiveProposal, RootKnown, Settle;
    OnePending(c, s, p, x);
    if x in s.transfers && s.transfers[x].receipt.Some? {
      ExtensionExactly(c, s, x);
    }
  }

  lemma Decided(c: Config, w: World, s: State, p: nat, x: string, checker: string)
    requires Settlement(c, s) && RootsGood(c, s) && Pending(s, p, x) && MayDecide(c, w, s, x, s.finalizations[p], checker)
    requires |Before(c, s, x)| < MAX_TREE_SIZE
    ensures var (t, reply) := Finalize(c, w, s, x, checker); var q := s.finalizations[p];
      if !Fresh(c, s, x, q) then reply == Error("STALE_ROOT_PUBLICATION") && t == s.(finalizations := s.finalizations[p := q.(status := Cancelled)])
      else if q.root == RootText(c, After(c, s, x)) && q.size == |After(c, s, x)| && !RootKnown(s.roots, s.transfers[x].receipt.value.contextId, q.root)
        then reply == Done && t.transfers == s.transfers[x := s.transfers[x].(phase := SETTLED)]
          && t.finalizations == s.finalizations[p := q.(status := Applied, checker := Some(checker))]
      else reply != Done && t == s
  {
    hide Settlement, RootsGood, Before, After, RootText, VerifiedExtension, LiveProposal, RootKnown, Settle;
    OnePending(c, s, p, x);
    ExtensionExactly(c, s, x);
    SettleMoves(w, s, p, VerifiedExtension(c, s, s.transfers[x].receipt.value).value.next, checker);
  }

  lemma SettleMoves(w: World, s: State, p: nat, next: TreeState, checker: string)
    requires p < |s.finalizations| && s.finalizations[p].transaction in s.transfers
    requires s.transfers[s.finalizations[p].transaction].receipt.Some?
    ensures var t, q := Settle(w, s, p, next, checker), s.finalizations[p];
      && t.transfers == s.transfers[q.transaction := s.transfers[q.transaction].(phase := SETTLED)]
      && t.finalizations == s.finalizations[p := q.(status := Applied, checker := Some(checker))]
  {
  }

  lemma OnePending(c: Config, s: State, p: nat, x: string)
    requires RootsGood(c, s) && Pending(s, p, x)
    ensures LiveProposal(s.finalizations, x, |s.finalizations|) == Some(p)
  {
    hide AttestedGood, ContextsGood, Chained;
    assert OneLive(s.finalizations);
    hide LogGood;
  }

  // ----- every proposal on file -----

  /** The call at position i put the proposal on file, against the tree as it was and for the tree with its transaction's outputs. */
  ghost predicate PublishedAt(c: Config, events: seq<Event>, i: nat, p: nat, q: Finalization) {
    && i < |events| && p == |Run(c, events[..i]).finalizations| && events[i].action == DoProposeFinalization(q.transaction, q.root, q.size, q.maker)
    && Extending(c, events[i].world, Run(c, events[..i]), q)
  }

  ghost predicate Extending(c: Config, w: World, s: State, q: Finalization) {
    && Awaits(c, w, s, q.transaction) && Unproposed(s, q.transaction) && |Before(c, s, q.transaction)| < MAX_TREE_SIZE && Fresh(c, s, q.transaction, q)
    && q.root == RootText(c, After(c, s, q.transaction)) && q.size == |After(c, s, q.transaction)|
  }

  /**
   In every run each proposal on file, pending, cancelled or applied, was put there by one
   call naming exactly the root and size of the full tree, as it then was, with its
   transaction's two outputs added.
   */
  lemma {:induction false} ProposalsExtendTheTree(c: Config, events: seq<Event>, p: nat)
    requires p < |Run(c, events).finalizations|
    ensures exists i: nat :: PublishedAt(c, events, i, p, Run(c, events).finalizations[p])
  {
    hide Step, Extending;
    var m := |events| - 1;
    var front := events[..m];
    var s, q := Run(c, front), Run(c, events).finalizations[p];
    G.RunProposalsKnown(c, front);
    G.FinalizationsMove(c, s, events[m], p);
    if p < |s.finalizations| {
      ProposalsExtendTheTree(c, front, p);
      var i: nat :| PublishedAt(c, front, i, p, s.finalizations[p]);
      assert front[..i] == events[..i];
      SameTerms(c, events[i].world, Run(c, events[..i]), s.finalizations[p], q);
      assert PublishedAt(c, events, i, p, q);
    } else {
      RunSettles(c, front);
      RunKeepsRoots(c, front);
      ProposalExtends(c, s, events[m], p);
      assert PublishedAt(c, events, m, p, q);
    }
  }

  lemma SameTerms(c: Config, w: World, s: State, q: Finalization, r: Finalization)
    requires Extending(c, w, s, q) && r == q.(status := r.status, checker := r.checker)
    ensures Extending(c, w, s, r)
  {
    hide RootText, Before, After;
  }

  lemma ProposalExtends(c: Config, s: State, e: Event, p: nat)
    requires Settlement(c, s) && RootsGood(c, s) && p == |s.finalizations| && p < |Step(c, s, e).0.finalizations|
    requires e.action.DoProposeFinalization?
    ensures Extending(c, e.world, s, Step(c, s, e).0.finalizations[p])
  {
    hide Settlement, RootsGood, ProposeFinalization, Before, After, RootText;
    var x := e.action.transaction;
    PublicationIff(c, e.world, s, x, e.action.root, e.action.size, e.action.maker);
    if x in s.transfers && s.transfers[x].receipt.Some? {
      ExtensionExactly(c, s, x);
    }
  }
}
