/**
 The root chain of each context: one CURRENT root at all times, reproduced by its
 stored frontier, and equal to the Merkle root of the outputs of the finalized
 transactions in the order they were finalized.
 */
module ConfidentialRailRoots {
  import opened Common
  import opened FieldEncoding
  import opened NoteTree
  import opened ConfidentialRail
  import opened ConfidentialRailSafety

  /** The output leaves of a context's finalized transactions, in finalization order. */
  function LeavesOf(c: Config, transfers: map<string, Transfer>, log: seq<Attestation>, contextId: string): seq<Field> {
    if log == [] then []
    else
      var last := log[|log| - 1];
      LeavesOf(c, transfers, log[..|log| - 1], contextId)
        + if last.contextId == contextId && last.transaction in transfers && transfers[last.transaction].receipt.Some?
          then Leaves(c, transfers[last.transaction].receipt.value.outputs) else []
  }

  ghost predicate OnlyCurrent(roots: seq<RootRow>, contextId: string, i: nat) {
    IsCurrent(roots, i, contextId) && forall j: nat :: IsCurrent(roots, j, contextId) ==> j == i
  }

  /** The context has exactly one CURRENT root, and it is the tree over these leaves, frontier and all. */
  ghost predicate TreeIs(c: Config, roots: seq<RootRow>, contextId: string, leaves: seq<Field>) {
    && |leaves| < MAX_TREE_SIZE
    && exists i: nat :: OnlyCurrent(roots, contextId, i) && TreeState(roots[i].size, roots[i].frontier, roots[i].root) == StateOf(c.node, leaves)
  }

  /** Two contexts share no identifier, no product and circuit version, and no product while neither is retired. */
  predicate Apart(a: ContextRow, b: ContextRow) {
    a.contextId != b.contextId && (a.product == b.product ==> a.circuit != b.circuit && (a.retired || b.retired))
  }

  /** Contexts have distinct identifiers, and nothing mentions an identifier without a context. */
  ghost predicate ContextsGood(s: State) {
    && (forall i, j :: 0 <= i < j < |s.contexts| ==> Apart(s.contexts[i], s.contexts[j]))
    && (forall k :: 0 <= k < |s.attestations| ==> Registered(s.contexts, s.attestations[k].contextId))
    && (forall x :: x in s.transfers && s.transfers[x].receipt.Some? ==> Registered(s.contexts, s.transfers[x].receipt.value.contextId))
  }

  ghost predicate Registered(contexts: seq<ContextRow>, contextId: string) {
    exists i :: 0 <= i < |contexts| && contexts[i].contextId == contextId
  }

  ghost predicate AttestedGood(s: State, a: Attestation) {
    && a.transaction in s.transfers && s.transfers[a.transaction].receipt.Some? && s.transfers[a.transaction].phase == SETTLED
    && s.transfers[a.transaction].receipt.value.contextId == a.contextId && |s.transfers[a.transaction].receipt.value.outputs| == 2
    && a.proposal < |s.finalizations| && s.finalizations[a.proposal].transaction == a.transaction
    && s.finalizations[a.proposal].status == Applied
    && s.finalizations[a.proposal].checker.Some? && s.finalizations[a.proposal].checker.value != s.finalizations[a.proposal].maker
  }

  /** Finalized transactions are exactly the settled ones, once each, under a proposal two people agreed on. */
  ghost predicate LogGood(s: State) {
    && (forall k :: 0 <= k < |s.attestations| ==> AttestedGood(s, s.attestations[k]))
    && (forall k, l :: 0 <= k < l < |s.attestations| ==> s.attestations[k].transaction != s.attestations[l].transaction)
    && (forall x :: x in s.transfers && s.transfers[x].phase == SETTLED ==> exists k :: 0 <= k < |s.attestations| && s.attestations[k].transaction == x)
    && OneLive(s.finalizations)
  }

  /** At most one proposal of a transaction is pending or applied. */
  ghost predicate OneLive(fs: seq<Finalization>) {
    forall p, q :: 0 <= p < q < |fs| && fs[p].status != Cancelled && fs[q].status != Cancelled ==> fs[p].transaction != fs[q].transaction
  }

  /** Applied proposals stay as they are. */
  ghost predicate AppliedStay(fs: seq<Finalization>, later: seq<Finalization>) {
    |fs| <= |later| && forall p :: 0 <= p < |fs| && fs[p].status == Applied ==> later[p] == fs[p]
  }

  /** Proposal and result of the k-th finalization, against the leaves before it. */
  ghost predicate Linked(c: Config, s: State, k: nat)
    requires k < |s.attestations|
  {
    var a := s.attestations[k];
    var before, after := LeavesOf(c, s.transfers, s.attestations[..k], a.contextId), LeavesOf(c, s.transfers, s.attestations[..k + 1], a.contextId);
    && |before| < MAX_TREE_SIZE && |after| < MAX_TREE_SIZE && a.proposal < |s.finalizations|
    && s.finalizations[a.proposal].baseRoot == StateOf(c.node, before).root && s.finalizations[a.proposal].baseSize == |before|
    && s.finalizations[a.proposal].root == StateOf(c.node, after).root && s.finalizations[a.proposal].size == |after|
  }

  ghost predicate Chained(c: Config, s: State) {
    && (forall i :: 0 <= i < |s.contexts| ==>
      TreeIs(c, s.roots, s.contexts[i].contextId, LeavesOf(c, s.transfers, s.attestations, s.contexts[i].contextId)))
    && (forall k :: 0 <= k < |s.attestations| ==> Linked(c, s, k))
  }

  ghost predicate RootsGood(c: Config, s: State) {
    ContextsGood(s) && LogGood(s) && Chained(c, s)
  }

  /** Receipts already attested do not change, so neither do the leaves. */
  lemma {:induction false} LeavesStable(c: Config, before: map<string, Transfer>, after: map<string, Transfer>, log: seq<Attestation>, contextId: string)
    requires forall k :: 0 <= k < |log| ==>
      && log[k].transaction in before && before[log[k].transaction].receipt.Some?
      && log[k].transaction in after && after[log[k].transaction].receipt == before[log[k].transaction].receipt
    ensures LeavesOf(c, after, log, contextId) == LeavesOf(c, before, log, contextId)
  {
    if log != [] {
      LeavesStable(c, before, after, log[..|log| - 1], contextId);
    }
  }

  lemma LogStable(c: Config, s: State, t: State, k: nat, contextId: string)
    requires LogGood(s) && Extends(s, t) && k <= |s.attestations|
    ensures LeavesOf(c, t.transfers, s.attestations[..k], contextId) == LeavesOf(c, s.transfers, s.attestations[..k], contextId)
  {
    hide LeavesOf;
    forall i | 0 <= i < k
      ensures s.attestations[i].transaction in s.transfers && s.transfers[s.attestations[i].transaction].receipt.Some?
      ensures s.attestations[i].transaction in t.transfers && t.transfers[s.attestations[i].transaction].receipt == s.transfers[s.attestations[i].transaction].receipt
    {
      assert AttestedGood(s, s.attestations[i]);
    }
    LeavesStable(c, s.transfers, t.transfers, s.attestations[..k], contextId);
  }

  /** Steps that leave contexts, roots and attestations alone, and keep applied proposals. */
  lemma ChainStable(c: Config, s: State, t: State)
    requires LogGood(s) && Chained(c, s) && Extends(s, t)
    requires |t.contexts| == |s.contexts| && forall i :: 0 <= i < |s.contexts| ==> t.contexts[i].contextId == s.contexts[i].contextId
    requires t.attestations == s.attestations && AppliedStay(s.finalizations, t.finalizations)
    requires forall i: nat, x :: IsCurrent(t.roots, i, x) ==> IsCurrent(s.roots, i, x)
    requires forall i: nat, x :: IsCurrent(s.roots, i, x) ==> IsCurrent(t.roots, i, x) && t.roots[i] == s.roots[i]
    ensures Chained(c, t)
  {
    hide LeavesOf, Extends;
    forall i | 0 <= i < |t.contexts|
      ensures TreeIs(c, t.roots, t.contexts[i].contextId, LeavesOf(c, t.transfers, t.attestations, t.contexts[i].contextId))
    {
      var x := s.contexts[i].contextId;
      assert s.attestations[..|s.attestations|] == s.attestations;
      LogStable(c, s, t, |s.attestations|, x);
      var n: nat :| OnlyCurrent(s.roots, x, n) && TreeState(s.roots[n].size, s.roots[n].frontier, s.roots[n].root)
        == StateOf(c.node, LeavesOf(c, s.transfers, s.attestations, x));
      assert OnlyCurrent(t.roots, x, n);
    }
    forall k | 0 <= k < |t.attestations| ensures Linked(c, t, k) {
      assert Linked(c, s, k) && AttestedGood(s, s.attestations[k]);
      LogStable(c, s, t, k, s.attestations[k].contextId);
      LogStable(c, s, t, k + 1, s.attestations[k].contextId);
    }
  }

  /** The parts of the log that only need attested rows to stay. */
  lemma LogKeeps(s: State, t: State)
    requires LogGood(s) && Extends(s, t) && t.attestations == s.attestations
    requires forall x :: x in t.transfers && t.transfers[x].phase == SETTLED ==> x in s.transfers && s.transfers[x].phase == SETTLED
    requires AppliedStay(s.finalizations, t.finalizations) && OneLive(t.finalizations)
    ensures LogGood(t)
  {
    hide OneLive;
    forall k | 0 <= k < |t.attestations| ensures AttestedGood(t, t.attestations[k]) {
      assert AttestedGood(s, s.attestations[k]);
    }
  }

  /** A step on transfers only: nothing is settled by it, and new receipts name a registered context. */
  ghost predicate OnlyTransfers(s: State, t: State) {
    && t.contexts == s.contexts && t.roots == s.roots && t.attestations == s.attestations && t.finalizations == s.finalizations
    && (forall x :: x in t.transfers && t.transfers[x].phase == SETTLED ==> x in s.transfers && s.transfers[x].phase == SETTLED)
    && (forall x :: x in t.transfers && t.transfers[x].receipt.Some? ==>
      (x in s.transfers && s.transfers[x].receipt == t.transfers[x].receipt) || Registered(s.contexts, t.transfers[x].receipt.value.contextId))
  }

  lemma TransfersOnly(c: Config, s: State, t: State)
    requires RootsGood(c, s) && Extends(s, t) && OnlyTransfers(s, t)
    ensures RootsGood(c, t)
  {
    hide Chained, Registered, AttestedGood, OneLive;
    assert ContextsGood(t);
    assert OneLive(s.finalizations);
    hide ContextsGood, LogGood;
    ChainStable(c, s, t);
    LogKeeps(s, t);
  }

  lemma PreparedOnly(w: World, s: State, transaction: string, key: string, product: string, i: Instruction, origin: string)
    ensures OnlyTransfers(s, Prepare(w, s, transaction, key, product, i, origin).0)
  {
    hide InstructionAccepted, ActiveContext, Registered;
  }

  lemma AuthorizedOnly(w: World, s: State, transaction: string, inputs: Inputs, actor: Option<string>)
    ensures OnlyTransfers(s, Authorize(w, s, transaction, inputs, actor).0)
  {
    hide AuthorizeError, Registered;
  }

  lemma CheckedOnly(c: Config, w: World, s: State, transaction: string, actor: Option<string>, k: nat, signals: seq<string>, proofHolds: bool)
    ensures OnlyTransfers(s, BeginAccept(c, w, s, transaction, actor).0) && OnlyTransfers(s, EndCheck(s, k, signals, proofHolds).0)
  {
    hide Registered;
  }

  lemma AcceptedOnly(w: World, s: State, k: nat, receiptId: string)
    ensures OnlyTransfers(s, CompleteAccept(w, s, k, receiptId).0)
  {
    hide CompleteError, Spend, Record;
    var (t, reply) := CompleteAccept(w, s, k, receiptId);
    if reply == Done {
      var check := s.checks[k];
      CompleteFacts(w, s, check.transaction, check.inputs, receiptId);
      assert Registered(s.contexts, check.inputs.contextId);
      hide Registered;
    }
  }

  lemma TransferStepsKeep(c: Config, s: State, e: Event)
    requires Settlement(c, s) && RootsGood(c, s)
    requires e.action.DoPrepare? || e.action.DoAuthorize? || e.action.DoBeginAccept? || e.action.DoEndCheck? || e.action.DoCompleteAccept?
    ensures RootsGood(c, Step(c, s, e).0)
  {
    SettlementKeeps(c, s, e);
    hide Settlement, RootsGood, Extends, Prepare, Authorize, BeginAccept, EndCheck, CompleteAccept, OnlyTransfers;
    var w := e.world;
    match e.action {
      case DoPrepare(transaction, key, product, i, origin) => PreparedOnly(w, s, transaction, key, product, i, origin);
      case DoAuthorize(transaction, inputs, actor) => AuthorizedOnly(w, s, transaction, inputs, actor);
      case DoBeginAccept(transaction, actor) => CheckedOnly(c, w, s, transaction, actor, 0, [], false);
      case DoEndCheck(k, signals, proofHolds) => CheckedOnly(c, w, s, "", None, k, signals, proofHolds);
      case DoCompleteAccept(k, receiptId) => AcceptedOnly(w, s, k, receiptId);
      case _ =>
    }
    TransfersOnly(c, s, Step(c, s, e).0);
  }

  /** Proposing and cancelling change the proposal table only, and no applied proposal. */
  ghost predicate OnlyProposals(s: State, t: State) {
    && t == s.(finalizations := t.finalizations) && AppliedStay(s.finalizations, t.finalizations)
    && (OneLive(s.finalizations) ==> OneLive(t.finalizations))
  }

  lemma ProposedOnly(c: Config, w: World, s: State, transaction: string, root: string, size: int, maker: string)
    ensures OnlyProposals(s, ProposeFinalization(c, w, s, transaction, root, size, maker).0)
  {
    hide VerifiedExtension;
  }

  lemma CancelledOnly(s: State, p: nat)
    requires p < |s.finalizations| && s.finalizations[p].status == Live
    ensures OnlyProposals(s, CancelProposal(s, p))
  {
  }

  lemma ProposalsOnly(c: Config, s: State, t: State)
    requires RootsGood(c, s) && OnlyProposals(s, t)
    ensures RootsGood(c, t)
  {
    ExtendsSelf(s, t);
    ContextsSame(s, t);
    assert OneLive(t.finalizations);
    hide ContextsGood, Chained, Extends, OneLive;
    LogKeeps(s, t);
    hide LogGood;
    ChainStable(c, s, t);
  }

  lemma ExtendsSelf(s: State, t: State)
    requires t.transfers == s.transfers
    ensures Extends(s, t)
  {
  }

  lemma ContextsSame(s: State, t: State)
    requires t.contexts == s.contexts && t.attestations == s.attestations && t.transfers == s.transfers
    ensures ContextsGood(s) ==> ContextsGood(t)
  {
  }

  // ----- new contexts -----

  lemma {:induction false} NoLeavesYet(c: Config, transfers: map<string, Transfer>, log: seq<Attestation>, contextId: string)
    requires forall k :: 0 <= k < |log| ==> log[k].contextId != contextId
    ensures LeavesOf(c, transfers, log, contextId) == []
  {
    if log != [] {
      NoLeavesYet(c, transfers, log[..|log| - 1], contextId);
    }
  }

  /** A context created with an empty tree joins the others, whose rows it does not touch. */
  lemma ContextJoins(c: Config, s: State, t: State, row: ContextRow)
    requires RootsGood(c, s) && !Registered(s.contexts, row.contextId)
    requires forall i :: 0 <= i < |s.roots| ==> s.roots[i].contextId != row.contextId
    requires forall i :: 0 <= i < |s.contexts| ==> Apart(s.contexts[i], row)
    requires var genesis := StateOf(c.node, []);
      t == s.(proposals := t.proposals, contexts := s.contexts + [row],
              roots := s.roots + [RootRow(row.contextId, genesis.root, 0, genesis.frontier, CURRENT, None)])
    ensures RootsGood(c, t)
  {
    ContextJoinsContexts(s, t, row);
    LogElsewhere(s, row.contextId);
    LogSame(s, t);
    GenesisTree(c, s, t, row.contextId);
    hide ContextsGood, LogGood, LeavesOf, StateOf, Registered, TreeIs, Linked, Chained;
    JoinsChain(c, s, t, row);
  }

  lemma JoinsChain(c: Config, s: State, t: State, row: ContextRow)
    requires Chained(c, s) && t.contexts == s.contexts + [row] && |t.roots| == |s.roots| + 1 && t.roots[..|s.roots|] == s.roots
    requires t.roots[|s.roots|].contextId == row.contextId && forall i :: 0 <= i < |s.contexts| ==> s.contexts[i].contextId != row.contextId
    requires t.transfers == s.transfers && t.attestations == s.attestations && t.finalizations == s.finalizations
    requires TreeIs(c, t.roots, row.contextId, LeavesOf(c, t.transfers, t.attestations, row.contextId))
    ensures Chained(c, t)
  {
    hide LeavesOf, StateOf, TreeIs;
    forall k | 0 <= k < |t.attestations| ensures Linked(c, t, k) {
      assert Linked(c, s, k);
    }
    hide Linked;
    forall i | 0 <= i < |s.contexts|
      ensures TreeIs(c, t.roots, s.contexts[i].contextId, LeavesOf(c, t.transfers, t.attestations, s.contexts[i].contextId))
    {
      OtherTree(c, s, t, s.contexts[i].contextId);
    }
  }

  lemma OtherTree(c: Config, s: State, t: State, contextId: string)
    requires TreeIs(c, s.roots, contextId, LeavesOf(c, s.transfers, s.attestations, contextId))
    requires |t.roots| == |s.roots| + 1 && t.roots[..|s.roots|] == s.roots && t.transfers == s.transfers && t.attestations == s.attestations
    requires t.roots[|s.roots|].contextId != contextId
    ensures TreeIs(c, t.roots, contextId, LeavesOf(c, t.transfers, t.attestations, contextId))
  {
    hide TreeIs, LeavesOf;
    forall i: nat ensures IsCurrent(t.roots, i, contextId) <==> IsCurrent(s.roots, i, contextId) {
      assert i < |s.roots| ==> t.roots[i] == t.roots[..|s.roots|][i];
    }
    forall i: nat | IsCurrent(s.roots, i, contextId) ensures t.roots[i] == s.roots[i] {
      assert t.roots[i] == t.roots[..|s.roots|][i];
    }
    TreeAside(c, s.roots, t.roots, contextId, LeavesOf(c, s.transfers, s.attestations, contextId));
  }

  /** A new context has no leaves, and its only row is the empty tree. */
  lemma GenesisTree(c: Config, s: State, t: State, contextId: string)
    requires forall i :: 0 <= i < |s.roots| ==> s.roots[i].contextId != contextId
    requires forall k :: 0 <= k < |s.attestations| ==> s.attestations[k].contextId != contextId
    requires var genesis := StateOf(c.node, []);
      t.roots == s.roots + [RootRow(contextId, genesis.root, 0, genesis.frontier, CURRENT, None)]
    requires t.transfers == s.transfers && t.attestations == s.attestations
    ensures TreeIs(c, t.roots, contextId, LeavesOf(c, t.transfers, t.attestations, contextId))
  {
    NoLeavesYet(c, s.transfers, s.attestations, contextId);
    EmptySize(c);
    hide LeavesOf, StateOf;
    assert OnlyCurrent(t.roots, contextId, |s.roots|);
  }

  lemma EmptySize(c: Config)
    ensures StateOf(c.node, []).treeSize == 0
  {
  }

  lemma LogElsewhere(s: State, contextId: string)
    requires ContextsGood(s) && !Registered(s.contexts, contextId)
    ensures forall k :: 0 <= k < |s.attestations| ==> s.attestations[k].contextId != contextId
  {
  }

  lemma LogSame(s: State, t: State)
    requires LogGood(s) && t.transfers == s.transfers && t.attestations == s.attestations && t.finalizations == s.finalizations
    ensures LogGood(t)
  {
    forall k | 0 <= k < |t.attestations| ensures AttestedGood(t, t.attestations[k]) {
      assert AttestedGood(s, s.attestations[k]);
    }
  }

  lemma ContextJoinsContexts(s: State, t: State, row: ContextRow)
    requires ContextsGood(s) && !Registered(s.contexts, row.contextId) && t.contexts == s.contexts + [row]
    requires forall i :: 0 <= i < |s.contexts| ==> Apart(s.contexts[i], row)
    requires t.attestations == s.attestations && t.transfers == s.transfers
    ensures ContextsGood(t)
  {
    forall x | Registered(s.contexts, x) ensures Registered(t.contexts, x) {
      var i :| 0 <= i < |s.contexts| && s.contexts[i].contextId == x;
      assert t.contexts[i].contextId == x;
    }
    hide Registered;
  }

  /** Rows of another context appended to the table leave a context's tree alone. */
  lemma TreeAside(c: Config, roots: seq<RootRow>, more: seq<RootRow>, contextId: string, leaves: seq<Field>)
    requires TreeIs(c, roots, contextId, leaves)
    requires |roots| <= |more| && forall i: nat :: IsCurrent(roots, i, contextId) ==> more[i] == roots[i]
    requires forall i: nat :: IsCurrent(more, i, contextId) ==> IsCurrent(roots, i, contextId)
    ensures TreeIs(c, more, contextId, leaves)
  {
    hide StateOf;
    var n: nat :| OnlyCurrent(roots, contextId, n) && TreeState(roots[n].size, roots[n].frontier, roots[n].root) == StateOf(c.node, leaves);
    assert OnlyCurrent(more, contextId, n);
  }

  /** A context that is available and new for its circuit version stands apart from every other. */
  lemma FreshContext(w: World, s: State, product: string, circuit: string, contextId: string)
    requires ContextAvailable(w, s, product, circuit, contextId).None?
    requires forall i :: 0 <= i < |s.contexts| ==> !(s.contexts[i].product == product && s.contexts[i].circuit == circuit)
    ensures forall i, asset :: 0 <= i < |s.contexts| ==> Apart(s.contexts[i], ContextRow(product, circuit, contextId, asset, false))
    ensures forall i :: 0 <= i < |s.roots| ==> s.roots[i].contextId != contextId
    ensures !Registered(s.contexts, contextId)
  {
    forall i, asset | 0 <= i < |s.contexts| ensures Apart(s.contexts[i], ContextRow(product, circuit, contextId, asset, false)) {
      assert !ContextActive(s.contexts, i, product);
    }
  }

  lemma DecideKeeps(c: Config, w: World, s: State, p: nat, checker: string, approve: bool)
    requires RootsGood(c, s)
    ensures RootsGood(c, DecideContext(c, w, s, p, checker, approve).0)
  {
    hide RootsGood, StateOf;
    var (t, reply) := DecideContext(c, w, s, p, checker, approve);
    if reply == Done && approve {
      var q := s.proposals[p];
      FreshContext(w, s, q.product, q.circuit, q.contextId);
      hide ContextAvailable;
      ContextJoins(c, s, t, ContextRow(q.product, q.circuit, q.contextId, q.assetType, false));
    } else {
      hide ContextAvailable;
      ProposalsAside(c, s, t);
    }
  }

  lemma ProposalsAside(c: Config, s: State, t: State)
    requires RootsGood(c, s) && t == s.(proposals := t.proposals)
    ensures RootsGood(c, t)
  {
    hide LeavesOf, TreeIs;
    LogSame(s, t);
    ContextsSame(s, t);
    hide LogGood, ContextsGood;
    forall k | 0 <= k < |t.attestations| ensures Linked(c, t, k) {
      assert Linked(c, s, k);
    }
  }

  /** Contexts keep everything but may be retired. */
  lemma ContextsChange(c: Config, s: State, t: State)
    requires RootsGood(c, s) && t == s.(contexts := t.contexts) && |t.contexts| == |s.contexts|
    requires forall i :: 0 <= i < |s.contexts| ==> t.contexts[i] == s.contexts[i].(retired := t.contexts[i].retired) && (s.contexts[i].retired ==> t.contexts[i].retired)
    ensures RootsGood(c, t)
  {
    ExtendsSelf(s, t);
    hide LogGood, Chained, Extends, ContextsGood;
    LogSame(s, t);
    RetireContexts(s, t);
    ChainStable(c, s, t);
  }

  lemma RetireKeeps(c: Config, s: State, i: nat)
    requires RootsGood(c, s)
    ensures RootsGood(c, RetireContext(s, i).0)
  {
    hide RootsGood;
    ContextsChange(c, s, RetireContext(s, i).0);
  }

  lemma RevokeKeeps(c: Config, s: State, i: nat)
    requires RootsGood(c, s)
    ensures RootsGood(c, RevokeRoot(s, i).0)
  {
    var t := RevokeRoot(s, i).0;
    ExtendsSelf(s, t);
    LogSame(s, t);
    ContextsSame(s, t);
    hide LogGood, Chained, Extends, ContextsGood;
    ChainStable(c, s, t);
  }

  lemma RetireContexts(s: State, t: State)
    requires ContextsGood(s) && t.attestations == s.attestations && t.transfers == s.transfers
    requires |t.contexts| == |s.contexts|
    requires forall i :: 0 <= i < |s.contexts| ==> t.contexts[i] == s.contexts[i].(retired := t.contexts[i].retired) && (s.contexts[i].retired ==> t.contexts[i].retired)
    ensures ContextsGood(t)
  {
    forall x | Registered(s.contexts, x) ensures Registered(t.contexts, x) {
      var i :| 0 <= i < |s.contexts| && s.contexts[i].contextId == x;
      assert t.contexts[i].contextId == x;
    }
    hide Registered;
  }

  // ----- finalization -----

  /** What a verified extension means: the CURRENT row is the tree so far, and `next` the tree with the two outputs added. */
  lemma ExtensionIsTheTree(c: Config, s: State, receipt: Receipt, leaves: seq<Field>)
    requires TreeIs(c, s.roots, receipt.contextId, leaves) && VerifiedExtension(c, s, receipt).Ok?
    ensures var e := VerifiedExtension(c, s, receipt).value; var more := Leaves(c, receipt.outputs);
      && OnlyCurrent(s.roots, receipt.contextId, e.row) && |leaves| + |more| < MAX_TREE_SIZE && |more| == 2
      && TreeState(s.roots[e.row].size, s.roots[e.row].frontier, s.roots[e.row].root) == StateOf(c.node, leaves)
      && e.next == StateOf(c.node, leaves + more)
  {
    hide StateOf, AppendLeaves;
    var e := VerifiedExtension(c, s, receipt).value;
    var more := Leaves(c, receipt.outputs);
    var n: nat :| OnlyCurrent(s.roots, receipt.contextId, n)
      && TreeState(s.roots[n].size, s.roots[n].frontier, s.roots[n].root) == StateOf(c.node, leaves);
    assert IsCurrent(s.roots, e.row, receipt.contextId) && e.row == n;
    AppendCapacity(c.node, leaves, more);
    AppendRefinesFullTree(c.node, leaves, more);
  }

  /** The retired rows and the new one: the context's only CURRENT root is now the extended tree. */
  lemma RootReplaced(c: Config, roots: seq<RootRow>, contextId: string, now: int, next: TreeState, leaves: seq<Field>)
    requires |leaves| < MAX_TREE_SIZE && next == StateOf(c.node, leaves)
    ensures var after := Retire(roots, contextId, now) + [RootRow(contextId, next.root, next.treeSize, next.frontier, CURRENT, None)];
      && TreeIs(c, after, contextId, leaves)
      && (forall x, others :: x != contextId && TreeIs(c, roots, x, others) ==> TreeIs(c, after, x, others))
  {
    hide StateOf;
    var after := Retire(roots, contextId, now) + [RootRow(contextId, next.root, next.treeSize, next.frontier, CURRENT, None)];
    assert OnlyCurrent(after, contextId, |roots|);
    forall x, others | x != contextId && TreeIs(c, roots, x, others) ensures TreeIs(c, after, x, others) {
      TreeAside(c, roots, after, x, others);
    }
  }

  /** Settling the k-th transaction extends the chain by one link. */
  lemma SettleLinks(c: Config, s: State, t: State, x: string, p: nat, contextId: string)
    requires LogGood(s) && Chained(c, s) && Extends(s, t)
    requires t.attestations == s.attestations + [Attestation(x, contextId, p)]
    requires p < |t.finalizations| && AppliedStay(s.finalizations, t.finalizations)
    requires x in t.transfers && t.transfers[x].receipt.Some?
    requires var before := LeavesOf(c, s.transfers, s.attestations, contextId);
      var after := before + Leaves(c, t.transfers[x].receipt.value.outputs);
      && |before| < MAX_TREE_SIZE && |after| < MAX_TREE_SIZE
      && t.finalizations[p].baseRoot == StateOf(c.node, before).root && t.finalizations[p].baseSize == |before|
      && t.finalizations[p].root == StateOf(c.node, after).root && t.finalizations[p].size == |after|
    ensures forall k :: 0 <= k < |t.attestations| ==> Linked(c, t, k)
  {
    hide *;
    var n := |s.attestations|;
    assert t.attestations[..n] == s.attestations && t.attestations[..n + 1] == t.attestations && s.attestations[..n] == s.attestations;
    OlderLinks(c, s, t);
    LeavesAfter(c, s, t, x, p, contextId, contextId);
    LogStable(c, s, t, n, contextId);
    assert t.attestations[n] == Attestation(x, contextId, p);
    NewLink(c, t, n);
  }

  lemma NewLink(c: Config, t: State, n: nat)
    requires n < |t.attestations|
    requires var a := t.attestations[n];
      var before, after := LeavesOf(c, t.transfers, t.attestations[..n], a.contextId), LeavesOf(c, t.transfers, t.attestations[..n + 1], a.contextId);
      && |before| < MAX_TREE_SIZE && |after| < MAX_TREE_SIZE && a.proposal < |t.finalizations|
      && t.finalizations[a.proposal].baseRoot == StateOf(c.node, before).root && t.finalizations[a.proposal].baseSize == |before|
      && t.finalizations[a.proposal].root == StateOf(c.node, after).root && t.finalizations[a.proposal].size == |after|
    ensures Linked(c, t, n)
  {
  }

  lemma OlderLinks(c: Config, s: State, t: State)
    requires LogGood(s) && Chained(c, s) && Extends(s, t) && AppliedStay(s.finalizations, t.finalizations)
    requires |s.attestations| <= |t.attestations| && t.attestations[..|s.attestations|] == s.attestations
    ensures forall k :: 0 <= k < |s.attestations| ==> Linked(c, t, k)
  {
    hide Extends, StateOf, LeavesOf;
    forall k | 0 <= k < |s.attestations| ensures Linked(c, t, k) {
      assert Linked(c, s, k) && AttestedGood(s, s.attestations[k]) && t.attestations[k] == s.attestations[k];
      assert t.attestations[..k] == s.attestations[..k] && t.attestations[..k + 1] == s.attestations[..k + 1];
      hide LogGood, Chained;
      LogStable(c, s, t, k, s.attestations[k].contextId);
      LogStable(c, s, t, k + 1, s.attestations[k].contextId);
    }
  }

  lemma LeavesAfter(c: Config, s: State, t: State, x: string, p: nat, contextId: string, other: string)
    requires LogGood(s) && Extends(s, t) && t.attestations == s.attestations + [Attestation(x, contextId, p)]
    requires x in t.transfers && t.transfers[x].receipt.Some?
    ensures LeavesOf(c, t.transfers, t.attestations, other) == var before := LeavesOf(c, s.transfers, s.attestations, other);
      if other == contextId then before + Leaves(c, t.transfers[x].receipt.value.outputs) else before
  {
    var n := |s.attestations|;
    assert t.attestations[..n] == s.attestations && s.attestations[..n] == s.attestations;
    LogStable(c, s, t, n, other);
  }

  lemma SettleLog(s: State, t: State, x: string, p: nat, checker: string)
    requires LogGood(s) && Extends(s, t) && x in s.transfers && s.transfers[x].phase == ROOT_PENDING
    requires t.transfers == s.transfers[x := s.transfers[x].(phase := SETTLED)] && s.transfers[x].receipt.Some? && |s.transfers[x].receipt.value.outputs| == 2
    requires t.attestations == s.attestations + [Attestation(x, s.transfers[x].receipt.value.contextId, p)]
    requires p < |s.finalizations| && s.finalizations[p].transaction == x && s.finalizations[p].status == Live
    requires checker != s.finalizations[p].maker
    requires t.finalizations == s.finalizations[p := s.finalizations[p].(status := Applied, checker := Some(checker))]
    ensures LogGood(t)
  {
    hide Extends;
    forall k | 0 <= k < |t.attestations| ensures AttestedGood(t, t.attestations[k]) {
      if k < |s.attestations| {
        assert AttestedGood(s, s.attestations[k]);
      }
    }
    forall y | y in t.transfers && t.transfers[y].phase == SETTLED ensures exists k :: 0 <= k < |t.attestations| && t.attestations[k].transaction == y {
      if y == x {
        assert t.attestations[|s.attestations|].transaction == x;
      } else {
        var k :| 0 <= k < |s.attestations| && s.attestations[k].transaction == y;
        assert t.attestations[k].transaction == y;
      }
    }
    forall k | 0 <= k < |s.attestations| ensures s.attestations[k].transaction != x {
      assert AttestedGood(s, s.attestations[k]);
    }
  }

  lemma SettleKeeps(c: Config, w: World, s: State, p: nat, x: string, extension: Extension, checker: string)
    requires Settlement(c, s) && RootsGood(c, s) && Applicable(c, s, p, x, checker)
    requires extension == VerifiedExtension(c, s, s.transfers[x].receipt.value).value
    requires Extends(s, Settle(w, s, p, extension.next, checker))
    ensures RootsGood(c, Settle(w, s, p, extension.next, checker))
  {
    hide Extends, LeavesOf, StateOf, VerifiedExtension, TreeIs, Leaves;
    var t := Settle(w, s, p, extension.next, checker);
    var receipt := s.transfers[x].receipt.value;
    var before := LeavesOf(c, s.transfers, s.attestations, receipt.contextId);
    var after := before + Leaves(c, receipt.outputs);
    assert Registered(s.contexts, receipt.contextId);
    assert TreeIs(c, s.roots, receipt.contextId, before);
    ExtensionIsTheTree(c, s, receipt, before);
    StateSize(c, before);
    StateSize(c, after);
    TwoOutputs(c, s, x);
    SettleLog(s, t, x, p, checker);
    SettleLinks(c, s, t, x, p, receipt.contextId);
    RootReplaced(c, s.roots, receipt.contextId, w.now, extension.next, after);
    SettledTrees(c, s, t, x, p, receipt.contextId);
    SettledContexts(s, t, x, p, receipt.contextId);
    hide LogGood, Linked, ContextsGood;
  }

  lemma SettledContexts(s: State, t: State, x: string, p: nat, contextId: string)
    requires ContextsGood(s) && t.contexts == s.contexts && t.attestations == s.attestations + [Attestation(x, contextId, p)] && Registered(s.contexts, contextId)
    requires forall y :: y in t.transfers ==> y in s.transfers && t.transfers[y].receipt == s.transfers[y].receipt
    ensures ContextsGood(t)
  {
    hide Registered;
  }

  /** After a settlement every context's tree is the one over its leaves again. */
  lemma SettledTrees(c: Config, s: State, t: State, x: string, p: nat, contextId: string)
    requires LogGood(s) && Chained(c, s) && Extends(s, t) && t.attestations == s.attestations + [Attestation(x, contextId, p)] && t.contexts == s.contexts
    requires x in t.transfers && t.transfers[x].receipt.Some?
    requires TreeIs(c, t.roots, contextId, LeavesOf(c, s.transfers, s.attestations, contextId) + Leaves(c, t.transfers[x].receipt.value.outputs))
    requires forall other, leaves :: other != contextId && TreeIs(c, s.roots, other, leaves) ==> TreeIs(c, t.roots, other, leaves)
    ensures forall i :: 0 <= i < |t.contexts| ==>
      TreeIs(c, t.roots, t.contexts[i].contextId, LeavesOf(c, t.transfers, t.attestations, t.contexts[i].contextId))
  {
    hide LogGood, Extends, LeavesOf, TreeIs, Leaves, Linked;
    forall i | 0 <= i < |t.contexts|
      ensures TreeIs(c, t.roots, t.contexts[i].contextId, LeavesOf(c, t.transfers, t.attestations, t.contexts[i].contextId))
    {
      var other := t.contexts[i].contextId;
      LeavesAfter(c, s, t, x, p, contextId, other);
      assert TreeIs(c, s.roots, other, LeavesOf(c, s.transfers, s.attestations, other));
    }
  }

  lemma StateSize(c: Config, leaves: seq<Field>)
    requires |leaves| < MAX_TREE_SIZE
    ensures StateOf(c.node, leaves).treeSize == |leaves|
  {
  }

  lemma TwoOutputs(c: Config, s: State, x: string)
    requires Settlement(c, s) && x in s.transfers && s.transfers[x].receipt.Some?
    ensures |s.transfers[x].receipt.value.outputs| == 2
  {
    assert TransferGood(s.transfers[x]);
  }

  lemma FinalizeKeepsRoots(c: Config, w: World, s: State, x: string, checker: string)
    requires Settlement(c, s) && RootsGood(c, s)
    ensures RootsGood(c, Finalize(c, w, s, x, checker).0)
  {
    FinalizeKeeps(c, w, s, x, checker);
    FinalizeCases(c, w, s, x, checker);
    var t, live := Finalize(c, w, s, x, checker).0, LiveProposal(s.finalizations, x, |s.finalizations|);
    hide *;
    if t != s && t == CancelProposal(s, live.value) {
      CancelledOnly(s, live.value);
      ProposalsOnly(c, s, t);
    } else if t != s {
      SettleKeeps(c, w, s, live.value, x, VerifiedExtension(c, s, s.transfers[x].receipt.value).value, checker);
    }
  }

  lemma RootsKeep(c: Config, s: State, e: Event)
    requires Settlement(c, s) && RootsGood(c, s)
    ensures RootsGood(c, Step(c, s, e).0)
  {
    hide Settlement, RootsGood, Prepare, Authorize, BeginAccept, EndCheck, CompleteAccept, Finalize;
    hide DecideContext, ProposeFinalization, ContextAvailable, RetireContext, RevokeRoot;
    var w, t := e.world, Step(c, s, e).0;
    match e.action
    case DoProposeContext(_, _, _, _) => ProposalsAside(c, s, t);
    case DoDecideContext(p, checker, approve) => DecideKeeps(c, w, s, p, checker, approve);
    case DoProposeFinalization(transaction, root, size, maker) =>
      ProposedOnly(c, w, s, transaction, root, size, maker);
      ProposalsOnly(c, s, t);
    case DoCancelFinalization(transaction) =>
      var live := LiveProposal(s.finalizations, transaction, |s.finalizations|);
      if live.Some? {
        CancelledOnly(s, live.value);
        ProposalsOnly(c, s, t);
      }
    case DoFinalize(transaction, checker) => FinalizeKeepsRoots(c, w, s, transaction, checker);
    case DoRetireContext(i) => RetireKeeps(c, s, i);
    case DoRevokeRoot(i) => RevokeKeeps(c, s, i);
    case _ => TransferStepsKeep(c, s, e);
  }

  lemma {:induction false} RunKeepsRoots(c: Config, events: seq<Event>)
    ensures RootsGood(c, Run(c, events))
  {
    hide Settlement, RootsGood, Step;
    if events == [] {
      InitialRoots(c);
    } else {
      RunSettles(c, events[..|events| - 1]);
      RunKeepsRoots(c, events[..|events| - 1]);
      RootsKeep(c, Run(c, events[..|events| - 1]), events[|events| - 1]);
    }
  }

  lemma InitialRoots(c: Config)
    ensures RootsGood(c, INITIAL)
  {
  }

  /** How many transactions of a context have been finalized. */
  function Finalized(log: seq<Attestation>, contextId: string): nat {
    if log == [] then 0 else Finalized(log[..|log| - 1], contextId) + if log[|log| - 1].contextId == contextId then 1 else 0
  }

  lemma {:induction false} TwoLeavesEach(c: Config, s: State, k: nat, contextId: string)
    requires LogGood(s) && k <= |s.attestations|
    ensures |LeavesOf(c, s.transfers, s.attestations[..k], contextId)| == 2 * Finalized(s.attestations[..k], contextId)
  {
    if k > 0 {
      TwoLeavesEach(c, s, k - 1, contextId);
      assert s.attestations[..k][..k - 1] == s.attestations[..k - 1];
      var a := s.attestations[k - 1];
      assert AttestedGood(s, a);
      var outputs := s.transfers[a.transaction].receipt.value.outputs;
      assert |Leaves(c, outputs)| == 2;
    }
  }

  /** The row's frontier folds to the row's root. */
  predicate Reproduced(c: Config, row: RootRow) {
    var r := RootFromFrontier(c.node, row.size, row.frontier);
    r.Ok? && PrintDecimal(r.value) == row.root
  }

  /**
   In every reachable state each context has exactly one CURRENT root; its row is the
   full tree over the two outputs of each finalized transaction in finalization order,
   its frontier reproduces it, and its size is twice the number finalized.
   */
  lemma OneRootPerContext(c: Config, events: seq<Event>, i: nat)
    requires i < |Run(c, events).contexts|
    ensures var s := Run(c, events); var x := s.contexts[i].contextId;
      var leaves := LeavesOf(c, s.transfers, s.attestations, x);
      && |leaves| == 2 * Finalized(s.attestations, x) < MAX_TREE_SIZE
      && TreeIs(c, s.roots, x, leaves)
      && forall n: nat :: OnlyCurrent(s.roots, x, n) ==> Reproduced(c, s.roots[n])
  {
    RunKeepsRoots(c, events);
    hide Run, LeavesOf;
    var s := Run(c, events);
    var x := s.contexts[i].contextId;
    assert s.attestations[..|s.attestations|] == s.attestations;
    TwoLeavesEach(c, s, |s.attestations|, x);
    hide Finalized;
    var leaves := LeavesOf(c, s.transfers, s.attestations, x);
    assert TreeIs(c, s.roots, x, leaves);
    FrontierReproducesRoot(c.node, leaves);
  }

  /** Every finalization was proposed against the root that was current when it was applied, and decided by someone else. */
  lemma NoStaleFinalization(c: Config, events: seq<Event>, k: nat)
    requires k < |Run(c, events).attestations|
    ensures var s := Run(c, events); var a := s.attestations[k];
      && Linked(c, s, k) && a.transaction in s.transfers && s.transfers[a.transaction].phase == SETTLED
      && s.finalizations[a.proposal].transaction == a.transaction
      && s.finalizations[a.proposal].checker.Some? && s.finalizations[a.proposal].checker.value != s.finalizations[a.proposal].maker
      && forall l :: 0 <= l < |s.attestations| && s.attestations[l].transaction == a.transaction ==> l == k
  {
    RunKeepsRoots(c, events);
    hide Run, Linked;
    var s := Run(c, events);
    assert AttestedGood(s, s.attestations[k]) && Linked(c, s, k);
  }

  /**
   However proposals, approvals and retirements interleave: a context identifier is never
   used twice, a product has at most one unretired context, and one context for each
   circuit version it ever had.
   */
  lemma ContextsAreNotShared(c: Config, events: seq<Event>, i: nat, j: nat)
    requires i < |Run(c, events).contexts| && j < |Run(c, events).contexts| && i != j
    ensures var a, b := Run(c, events).contexts[i], Run(c, events).contexts[j];
      && a.contextId != b.contextId
      && !(a.product == b.product && !a.retired && !b.retired)
      && !(a.product == b.product && a.circuit == b.circuit)
  {
    RunKeepsRoots(c, events);
    hide Run, Chained, LogGood;
    var contexts := Run(c, events).contexts;
    if i < j {
      assert Apart(contexts[i], contexts[j]);
    } else {
      assert Apart(contexts[j], contexts[i]);
    }
  }
}
