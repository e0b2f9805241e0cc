/**
 What acceptance means in reachable states: every authorization is anchored in a context
 of its own product and in a root the context's tree really had, the second phase can
 fail only on what may have changed since the first, and the first acceptance wins.
 */
module ConfidentialRailAcceptance {
  import opened Common
  import opened FieldEncoding
  import opened NoteTree
  import opened ConfidentialRail
  import opened ConfidentialRailSafety
  import opened ConfidentialRailRoots

  // ----- anchors -----

  /** The root of the context's tree after its first finalizations, as far as the first k of the log go. */
  ghost predicate RootAfter(c: Config, s: State, contextId: string, root: string, k: nat) {
    && k <= |s.attestations| && |LeavesOf(c, s.transfers, s.attestations[..k], contextId)| < MAX_TREE_SIZE
    && root == StateOf(c.node, LeavesOf(c, s.transfers, s.attestations[..k], contextId)).root
  }

  ghost predicate Historic(c: Config, s: State, contextId: string, root: string) {
    exists k: nat :: RootAfter(c, s, contextId, root, k)
  }

  /** The context is one of this product's, with this asset type. */
  predicate ContextOf(contexts: seq<ContextRow>, i: nat, product: string, contextId: string, assetType: string) {
    i < |contexts| && contexts[i].product == product && contexts[i].contextId == contextId && contexts[i].assetType == assetType
  }

  ghost predicate Anchors(s: State, product: string, inputs: Inputs) {
    && RootKnown(s.roots, inputs.contextId, inputs.merkleRoot)
    && exists i: nat :: ContextOf(s.contexts, i, product, inputs.contextId, inputs.assetType)
  }

  ghost predicate Anchored(c: Config, s: State) {
    && (forall i :: 0 <= i < |s.roots| ==> Historic(c, s, s.roots[i].contextId, s.roots[i].root))
    && (forall x :: x in s.transfers && s.transfers[x].authorization.Some? ==> Anchors(s, s.transfers[x].product, s.transfers[x].authorization.value.inputs))
  }

  /** Rows of contexts and roots keep what names them, and new root rows are historic. */
  ghost predicate RowsGrow(c: Config, s: State, t: State) {
    && |s.contexts| <= |t.contexts| && |s.roots| <= |t.roots| && |s.attestations| <= |t.attestations|
    && (forall i :: 0 <= i < |s.contexts| ==> t.contexts[i] == s.contexts[i].(retired := t.contexts[i].retired))
    && (forall i :: 0 <= i < |s.roots| ==> t.roots[i].contextId == s.roots[i].contextId && t.roots[i].root == s.roots[i].root)
    && t.attestations[..|s.attestations|] == s.attestations
    && (forall i :: |s.roots| <= i < |t.roots| ==> Historic(c, t, t.roots[i].contextId, t.roots[i].root))
  }

  /** Authorizations in t were there before, for the same product, or are anchored already. */
  ghost predicate InputsFrom(s: State, t: State) {
    forall x :: x in t.transfers && t.transfers[x].authorization.Some? ==>
      || (x in s.transfers && s.transfers[x].authorization.Some? && t.transfers[x].product == s.transfers[x].product
          && t.transfers[x].authorization.value.inputs == s.transfers[x].authorization.value.inputs)
      || Anchors(s, t.transfers[x].product, t.transfers[x].authorization.value.inputs)
  }

  lemma AnchorsStay(c: Config, s: State, t: State, product: string, inputs: Inputs)
    requires RowsGrow(c, s, t) && Anchors(s, product, inputs)
    ensures Anchors(t, product, inputs)
  {
    hide Historic;
    var i: nat :| ContextOf(s.contexts, i, product, inputs.contextId, inputs.assetType);
    assert ContextOf(t.contexts, i, product, inputs.contextId, inputs.assetType);
    var k :| 0 <= k < |s.roots| && s.roots[k].contextId == inputs.contextId && s.roots[k].root == inputs.merkleRoot;
    assert t.roots[k].contextId == inputs.contextId && t.roots[k].root == inputs.merkleRoot;
  }

  lemma HistoricStays(c: Config, s: State, t: State, contextId: string, root: string)
    requires LogGood(s) && Extends(s, t) && Historic(c, s, contextId, root)
    requires |s.attestations| <= |t.attestations| && t.attestations[..|s.attestations|] == s.attestations
    ensures Historic(c, t, contextId, root)
  {
    hide LogGood, Extends, StateOf, LeavesOf;
    var k: nat :| RootAfter(c, s, contextId, root, k);
    LogStable(c, s, t, k, contextId);
    assert t.attestations[..k] == s.attestations[..k];
    assert RootAfter(c, t, contextId, root, k);
  }

  lemma AnchoredStep(c: Config, s: State, t: State)
    requires LogGood(s) && Extends(s, t) && Anchored(c, s) && RowsGrow(c, s, t) && InputsFrom(s, t)
    ensures Anchored(c, t)
  {
    hide LogGood, Extends, Historic, Anchors;
    forall i | 0 <= i < |t.roots| ensures Historic(c, t, t.roots[i].contextId, t.roots[i].root) {
      if i < |s.roots| {
        HistoricStays(c, s, t, s.roots[i].contextId, s.roots[i].root);
      }
    }
    forall x | x in t.transfers && t.transfers[x].authorization.Some?
      ensures Anchors(t, t.transfers[x].product, t.transfers[x].authorization.value.inputs)
    {
      AnchorsStay(c, s, t, t.transfers[x].product, t.transfers[x].authorization.value.inputs);
    }
  }

  /** The tables of contexts, roots and finalizations are as they were. */
  lemma SameRows(c: Config, s: State, t: State)
    requires t.contexts == s.contexts && t.roots == s.roots && t.attestations == s.attestations
    ensures RowsGrow(c, s, t)
  {
    assert t.attestations[..|s.attestations|] == s.attestations;
  }

  lemma SameInputs(s: State, t: State)
    requires t.transfers == s.transfers
    ensures InputsFrom(s, t)
  {
    hide Anchors;
  }

  lemma AuthorizedAnchors(w: World, s: State, t: Transfer, inputs: Inputs, actor: Option<string>)
    requires AuthorizeError(w, s, t, inputs, actor).None?
    ensures Anchors(s, t.product, inputs)
  {
    hide ActiveContext;
    var i := ActiveContext(s.contexts, t.product, w.circuit, |s.contexts|).value;
    assert ContextOf(s.contexts, i, t.product, inputs.contextId, inputs.assetType);
  }

  lemma AuthorizeInputs(w: World, s: State, x: string, inputs: Inputs, actor: Option<string>)
    ensures InputsFrom(s, Authorize(w, s, x, inputs, actor).0)
  {
    hide AuthorizeError, Anchors;
    if x in s.transfers && AuthorizeError(w, s, s.transfers[x], inputs, actor).None? {
      AuthorizedAnchors(w, s, s.transfers[x], inputs, actor);
    }
  }

  lemma PrepareInputs(w: World, s: State, x: string, key: string, product: string, i: Instruction, origin: string)
    ensures InputsFrom(s, Prepare(w, s, x, key, product, i, origin).0)
  {
    hide Anchors, InstructionAccepted, ActiveContext;
  }

  lemma CheckInputs(c: Config, w: World, s: State, x: string, actor: Option<string>, k: nat, signals: seq<string>, proofHolds: bool)
    ensures InputsFrom(s, BeginAccept(c, w, s, x, actor).0) && InputsFrom(s, EndCheck(s, k, signals, proofHolds).0)
  {
    hide Anchors;
  }

  lemma CompleteInputs(c: Config, w: World, s: State, k: nat, receiptId: string)
    requires Settlement(c, s)
    ensures InputsFrom(s, CompleteAccept(w, s, k, receiptId).0)
  {
    hide Anchors, CompleteError, Spend, Record, TransfersGood, SpentGood, OutputsGood, ReceiptsDistinct;
    if k < |s.checks| && s.checks[k].stage.Passed? {
      ReceivedId(s.transfers[s.checks[k].transaction], receiptId, s.checks[k].inputs, s.checks[k].stage.signals);
    }
  }

  lemma TransferStepsAnchored(c: Config, s: State, e: Event)
    requires Settlement(c, s) && LogGood(s) && Anchored(c, s)
    requires e.action.DoPrepare? || e.action.DoAuthorize? || e.action.DoBeginAccept? || e.action.DoEndCheck? || e.action.DoCompleteAccept?
    ensures Anchored(c, Step(c, s, e).0)
  {
    SettlementKeeps(c, s, e);
    hide Settlement, LogGood, Anchored, Extends, InputsFrom, Prepare, Authorize, BeginAccept, EndCheck, CompleteAccept, RowsGrow;
    var w, t := e.world, Step(c, s, e).0;
    assert OnlyTransfers(s, t) by {
      hide OnlyTransfers;
      match e.action {
        case DoPrepare(transaction, key, product, i, origin) => PreparedOnly(w, s, transaction, key, product, i, origin);
        case DoAuthorize(transaction, inputs, actor) => AuthorizedOnly(w, s, transaction, inputs, actor);
        case DoBeginAccept(transaction, actor) => CheckedOnly(c, w, s, transaction, actor, 0, [], false);
        case DoEndCheck(k, signals, proofHolds) => CheckedOnly(c, w, s, "", None, k, signals, proofHolds);
        case DoCompleteAccept(k, receiptId) => AcceptedOnly(w, s, k, receiptId);
        case _ =>
      }
    }
    match e.action {
      case DoPrepare(transaction, key, product, i, origin) => PrepareInputs(w, s, transaction, key, product, i, origin);
      case DoAuthorize(transaction, inputs, actor) => AuthorizeInputs(w, s, transaction, inputs, actor);
      case DoBeginAccept(transaction, actor) => CheckInputs(c, w, s, transaction, actor, 0, [], false);
      case DoEndCheck(k, signals, proofHolds) => CheckInputs(c, w, s, "", None, k, signals, proofHolds);
      case DoCompleteAccept(k, receiptId) => CompleteInputs(c, w, s, k, receiptId);
      case _ =>
    }
    SameRows(c, s, t);
    hide OnlyTransfers;
    AnchoredStep(c, s, t);
  }

  /** A new context starts at the root of the empty tree. */
  lemma DecideRows(c: Config, w: World, s: State, p: nat, checker: string, approve: bool)
    ensures RowsGrow(c, s, DecideContext(c, w, s, p, checker, approve).0)
  {
    hide ContextAvailable, StateOf, Historic;
    var (t, reply) := DecideContext(c, w, s, p, checker, approve);
    assert t.attestations[..|s.attestations|] == s.attestations;
    if |t.roots| > |s.roots| {
      EmptyIsHistoric(c, t, t.roots[|s.roots|].contextId);
    }
  }

  lemma EmptyIsHistoric(c: Config, s: State, contextId: string)
    ensures Historic(c, s, contextId, StateOf(c.node, []).root)
  {
    hide StateOf;
    assert s.attestations[..0] == [];
    assert RootAfter(c, s, contextId, StateOf(c.node, []).root, 0);
  }

  /** A finalization adds the root of the context's tree after it. */
  lemma SettleRows(c: Config, w: World, s: State, p: nat, x: string, checker: string)
    requires Settlement(c, s) && RootsGood(c, s) && Applicable(c, s, p, x, checker)
    requires Extends(s, Settle(w, s, p, VerifiedExtension(c, s, s.transfers[x].receipt.value).value.next, checker))
    ensures RowsGrow(c, s, Settle(w, s, p, VerifiedExtension(c, s, s.transfers[x].receipt.value).value.next, checker))
  {
    hide Extends, LeavesOf, StateOf, VerifiedExtension, TreeIs, Leaves, Historic, Settlement;
    var e := VerifiedExtension(c, s, s.transfers[x].receipt.value).value;
    var t := Settle(w, s, p, e.next, checker);
    var receipt := s.transfers[x].receipt.value;
    var before := LeavesOf(c, s.transfers, s.attestations, receipt.contextId);
    assert Registered(s.contexts, receipt.contextId);
    assert TreeIs(c, s.roots, receipt.contextId, before);
    ExtensionIsTheTree(c, s, receipt, before);
    LeavesAfter(c, s, t, x, p, receipt.contextId, receipt.contextId);
    assert t.attestations[..|t.attestations|] == t.attestations && t.attestations[..|s.attestations|] == s.attestations;
    assert RootAfter(c, t, receipt.contextId, e.next.root, |t.attestations|);
    hide LogGood, ContextsGood, Chained;
    HistoricBy(c, t, receipt.contextId, e.next.root, |t.attestations|);
  }

  lemma HistoricBy(c: Config, s: State, contextId: string, root: string, k: nat)
    requires RootAfter(c, s, contextId, root, k)
    ensures Historic(c, s, contextId, root)
  {
  }

  lemma FinalizeAnchored(c: Config, w: World, s: State, x: string, checker: string)
    requires Settlement(c, s) && RootsGood(c, s) && Anchored(c, s)
    ensures Anchored(c, Finalize(c, w, s, x, checker).0)
  {
    FinalizeKeeps(c, w, s, x, checker);
    FinalizeCases(c, w, s, x, checker);
    var t, live := Finalize(c, w, s, x, checker).0, LiveProposal(s.finalizations, x, |s.finalizations|);
    hide Finalize, VerifiedExtension, LiveProposal, Settlement, Applicable, Anchored, RowsGrow, ContextsGood, LogGood, Chained, Extends, InputsFrom;
    if t.transfers == s.transfers && t.roots == s.roots && t.attestations == s.attestations && t.contexts == s.contexts {
      SameRows(c, s, t);
      SameInputs(s, t);
    } else {
      SettleRows(c, w, s, live.value, x, checker);
      SettleInputs(c, w, s, live.value, x, checker);
    }
    AnchoredStep(c, s, t);
  }

  lemma SettleInputs(c: Config, w: World, s: State, p: nat, x: string, checker: string)
    requires Applicable(c, s, p, x, checker)
    ensures InputsFrom(s, Settle(w, s, p, VerifiedExtension(c, s, s.transfers[x].receipt.value).value.next, checker))
  {
    hide VerifiedExtension, Anchors;
  }

  lemma AsideAnchored(c: Config, s: State, t: State)
    requires LogGood(s) && Anchored(c, s) && t.transfers == s.transfers && RowsGrow(c, s, t)
    ensures Anchored(c, t)
  {
    hide LogGood, Anchored, RowsGrow;
    ExtendsSelf(s, t);
    SameInputs(s, t);
    AnchoredStep(c, s, t);
  }

  lemma ProposalRows(c: Config, w: World, s: State, transaction: string, root: string, size: int, maker: string)
    ensures var t := ProposeFinalization(c, w, s, transaction, root, size, maker).0; RowsGrow(c, s, t) && t.transfers == s.transfers
    ensures var t := CancelFinalization(s, transaction).0; RowsGrow(c, s, t) && t.transfers == s.transfers
  {
    hide VerifiedExtension, LiveProposal, RowsGrow;
    SameRows(c, s, ProposeFinalization(c, w, s, transaction, root, size, maker).0);
    SameRows(c, s, CancelFinalization(s, transaction).0);
  }

  lemma OperatorRows(c: Config, s: State, i: nat)
    ensures RowsGrow(c, s, RetireContext(s, i).0) && RetireContext(s, i).0.transfers == s.transfers
    ensures RowsGrow(c, s, RevokeRoot(s, i).0) && RevokeRoot(s, i).0.transfers == s.transfers
  {
    hide Historic;
    assert s.attestations[..|s.attestations|] == s.attestations;
  }

  lemma AnchoredKeeps(c: Config, s: State, e: Event)
    requires Settlement(c, s) && RootsGood(c, s) && Anchored(c, s)
    ensures Anchored(c, Step(c, s, e).0)
  {
    hide Settlement, ContextsGood, LogGood, Chained, Anchored, RowsGrow, Prepare, Authorize, BeginAccept, EndCheck, CompleteAccept, Finalize;
    hide DecideContext, ProposeFinalization, CancelFinalization, RetireContext, RevokeRoot, ContextAvailable;
    var w, t := e.world, Step(c, s, e).0;
    match e.action
    case DoProposeContext(_, _, _, _) =>
      SameRows(c, s, t);
      AsideAnchored(c, s, t);
    case DoDecideContext(p, checker, approve) =>
      DecideRows(c, w, s, p, checker, approve);
      ContextsUntouched(c, w, s, p, checker, approve);
      AsideAnchored(c, s, t);
    case DoProposeFinalization(transaction, root, size, maker) =>
      ProposalRows(c, w, s, transaction, root, size, maker);
      AsideAnchored(c, s, t);
    case DoCancelFinalization(transaction) =>
      ProposalRows(c, w, s, transaction, "", 0, "");
      AsideAnchored(c, s, t);
    case DoFinalize(transaction, checker) => FinalizeAnchored(c, w, s, transaction, checker);
    case DoRetireContext(i) =>
      OperatorRows(c, s, i);
      AsideAnchored(c, s, t);
    case DoRevokeRoot(i) =>
      OperatorRows(c, s, i);
      AsideAnchored(c, s, t);
    case _ => TransferStepsAnchored(c, s, e);
  }

  lemma {:induction false} RunAnchored(c: Config, events: seq<Event>)
    ensures Anchored(c, Run(c, events))
  {
    hide Settlement, RootsGood, Step, Anchored;
    if events == [] {
      InitialAnchored(c);
    } else {
      var front := events[..|events| - 1];
      RunSettles(c, front);
      RunKeepsRoots(c, front);
      RunAnchored(c, front);
      AnchoredKeeps(c, Run(c, front), events[|events| - 1]);
    }
  }

  lemma InitialAnchored(c: Config)
    ensures Anchored(c, INITIAL)
  {
  }

  /**
   In every run, what was authorized names a context of the transfer's own product and
   asset, and spends from a tree the context really had: the tree over the outputs of
   its first so many finalized transactions. Revoked roots and retired contexts included.
   */
  lemma AuthorizedOnRealTree(c: Config, events: seq<Event>, x: string)
    requires var s := Run(c, events); x in s.transfers && s.transfers[x].authorization.Some?
    ensures var s := Run(c, events); var t := s.transfers[x]; var i := t.authorization.value.inputs;
      && (exists n: nat :: ContextOf(s.contexts, n, t.product, i.contextId, i.assetType))
      && (exists k: nat :: RootAfter(c, s, i.contextId, i.merkleRoot, k))
      && (t.receipt.Some? ==> t.receipt.value.contextId == i.contextId && t.receipt.value.merkleRoot == i.merkleRoot)
  {
    hide Run, SpentGood, OutputsGood, ReceiptsDistinct, ChecksGood;
    RunSettles(c, events);
    RunAnchored(c, events);
    assert TransferGood(Run(c, events).transfers[x]);
    hide Settlement, TransferGood;
    hide StateOf, LeavesOf;
    var s := Run(c, events);
    var i := s.transfers[x].authorization.value.inputs;
    assert Anchors(s, s.transfers[x].product, i);
    var n :| 0 <= n < |s.roots| && s.roots[n].contextId == i.contextId && s.roots[n].root == i.merkleRoot;
    assert Historic(c, s, s.roots[n].contextId, s.roots[n].root);
  }

  // ----- the second phase -----

  /** What the world and the operators may take away between the phases. */
  predicate StillOpen(w: World, s: State, t: Transfer, i: Inputs) {
    && w.productActive(t.product) && w.owned(t.product) && w.circuitActive(w.circuit) && w.artifactMatches
    && w.now < t.instruction.expiresAt && w.ineligible(t.product, t.instruction).None?
    && ContextCurrent(s.contexts, t.product, w.circuit, i) && RootAccepted(s.roots, i.contextId, i.merkleRoot, w.now)
  }

  /** An accepted transfer has used one of these nullifiers in this context. */
  predicate NullifierTaken(s: State, i: Inputs) {
    exists y :: y in s.transfers && (Uses(s.transfers[y], i.contextId, i.nullifier0) || Uses(s.transfers[y], i.contextId, i.nullifier1))
  }

  /** An accepted transfer has created one of these outputs in this context. */
  predicate OutputTaken(s: State, i: Inputs) {
    exists y :: y in s.transfers && (Creates(s.transfers[y], i.contextId, i.x0, i.y0) || Creates(s.transfers[y], i.contextId, i.x1, i.y1))
  }

  predicate ReceiptIdTaken(s: State, receiptId: string) {
    exists y :: y in s.transfers && s.transfers[y].receipt.Some? && s.transfers[y].receipt.value.id == receiptId
  }

  /** The tables of spent nullifiers and outputs speak exactly of accepted transfers. */
  lemma TablesAreAccepted(s: State, i: Inputs)
    requires SpentGood(s) && OutputsGood(s)
    ensures NullifierTaken(s, i) <==> (i.contextId, i.nullifier0) in s.spent || (i.contextId, i.nullifier1) in s.spent
    ensures OutputTaken(s, i) <==> (i.contextId, i.x0, i.y0) in s.outputs || (i.contextId, i.x1, i.y1) in s.outputs
  {
    hide Uses, Creates;
    if p :| p in [(i.contextId, i.nullifier0), (i.contextId, i.nullifier1)] && p in s.spent {
      assert Uses(s.transfers[s.spent[p]], p.0, p.1);
    }
    if p :| p in [(i.contextId, i.x0, i.y0), (i.contextId, i.x1, i.y1)] && p in s.outputs {
      assert Creates(s.transfers[s.outputs[p]], p.0, p.1, p.2);
    }
  }

  /** What the tables guarantee of a passed check, so that the second phase cannot fail on it. */
  lemma PassedFacts(c: Config, s: State, k: nat)
    requires Settlement(c, s) && k < |s.checks|
    ensures var x, i := s.checks[k].transaction, s.checks[k].inputs;
      && x in s.transfers
      && var t := s.transfers[x];
        && t.authorization.Some? && t.authorization.value.inputs == i && (t.authorization.value.verified <==> t.receipt.Some?)
        && (t.phase == PROOF_PENDING <==> t.receipt.None?)
        && i.fee == t.instruction.fee && i.recipient == t.instruction.recipient && i.relayer == t.instruction.relayer
        && i.nullifier0 != i.nullifier1
  {
    hide SpentGood, OutputsGood, ReceiptsDistinct;
    assert TransferGood(s.transfers[s.checks[k].transaction]);
  }

  /**
   In reachable states a passed check is accepted exactly when its transfer has no receipt
   yet, the world still allows it, and no accepted transfer has its nullifiers or outputs.
   Being known, being authorized, matching the frozen terms and having distinct nullifiers
   are checked again by the program and can no longer fail.
   */
  lemma SecondPhaseIff(c: Config, events: seq<Event>, w: World, k: nat, receiptId: string)
    requires k < |Run(c, events).checks| && Run(c, events).checks[k].stage.Passed?
    ensures var s := Run(c, events); var x, i := s.checks[k].transaction, s.checks[k].inputs;
      && x in s.transfers
      && (CompleteAccept(w, s, k, receiptId).1 == Done <==>
        && s.transfers[x].receipt.None? && StillOpen(w, s, s.transfers[x], i)
        && !NullifierTaken(s, i) && !OutputTaken(s, i) && (i.x0, i.y0) != (i.x1, i.y1) && !ReceiptIdTaken(s, receiptId))
  {
    RunSettles(c, events);
    var s := Run(c, events);
    PassedFacts(c, s, k);
    TablesAreAccepted(s, s.checks[k].inputs);
    CompleteReply(w, s, k, receiptId);
    hide *;
    CompletesIff(w, s, s.checks[k].transaction, s.checks[k].inputs, receiptId);
  }

  lemma CompletesIff(w: World, s: State, x: string, i: Inputs, receiptId: string)
    requires x in s.transfers
    requires var t := s.transfers[x];
      && t.authorization.Some? && (t.authorization.value.verified <==> t.receipt.Some?) && (t.phase == PROOF_PENDING <==> t.receipt.None?)
      && i.fee == t.instruction.fee && i.recipient == t.instruction.recipient && i.relayer == t.instruction.relayer && i.nullifier0 != i.nullifier1
    requires NullifierTaken(s, i) <==> (i.contextId, i.nullifier0) in s.spent || (i.contextId, i.nullifier1) in s.spent
    requires OutputTaken(s, i) <==> (i.contextId, i.x0, i.y0) in s.outputs || (i.contextId, i.x1, i.y1) in s.outputs
    ensures CompleteError(w, s, x, i, receiptId).None? <==>
      && s.transfers[x].receipt.None? && StillOpen(w, s, s.transfers[x], i)
      && !NullifierTaken(s, i) && !OutputTaken(s, i) && (i.x0, i.y0) != (i.x1, i.y1) && !ReceiptIdTaken(s, receiptId)
  {
    hide NullifierTaken, OutputTaken, RootAccepted, ContextCurrent;
  }

  /** Every record of the inputs' root is revoked or past its grace. */
  predicate RootLapsed(roots: seq<RootRow>, i: Inputs, now: int) {
    forall r :: 0 <= r < |roots| && roots[r].contextId == i.contextId && roots[r].root == i.merkleRoot ==>
      roots[r].status == REVOKED || (roots[r].expiresAt.Some? && roots[r].expiresAt.value <= now)
  }

  /** The context of the inputs still stands for the product under the runtime's circuit. */
  predicate ContextStands(w: World, s: State, n: nat) {
    n < |s.contexts| && !s.contexts[n].retired && s.contexts[n].circuit == w.circuit
  }

  /**
   Why the second phase of transfer t refuses, told by what happened since the first: an
   earlier acceptance, the world, the context row n, the clock, the eligibility tables,
   the circuit, the root, and what other transfers were accepted with. The first that
   applies is the reply.
   */
  function Refusal(w: World, s: State, t: Transfer, i: Inputs, n: nat, receiptId: string): Option<string> {
    if t.receipt.Some? then Some("INVALID_ZK_TRANSACTION_STATE")
    else if !w.productActive(t.product) then Some("PRODUCT_NOT_ACTIVE")
    else if !w.owned(t.product) || !ContextStands(w, s, n) then Some("ZK_BUSINESS_CONTEXT_RETIRED")
    else if t.instruction.expiresAt <= w.now then Some("INVALID_ZK_EXECUTION_INSTRUCTION")
    else if w.ineligible(t.product, t.instruction).Some? then w.ineligible(t.product, t.instruction)
    else if !w.circuitActive(w.circuit) || !w.artifactMatches then Some("UNAPPROVED_PROOF_CIRCUIT")
    else if RootLapsed(s.roots, i, w.now) then Some("UNACCEPTED_MERKLE_ROOT")
    else if ReceiptIdTaken(s, receiptId) then Some("23505")
    else if NullifierTaken(s, i) then Some("NULLIFIER_ALREADY_SPENT")
    else if OutputTaken(s, i) || (i.x0, i.y0) == (i.x1, i.y1) then Some("23505")
    else None
  }

  /**
   In reachable states the reply of a second phase is exactly that. The inputs name one
   context row, a context the product really has, and a recorded root; the transfer is
   known and authorized on its frozen terms, so no reply ever says otherwise.
   */
  lemma SecondPhaseFailures(c: Config, events: seq<Event>, w: World, k: nat, receiptId: string)
    requires k < |Run(c, events).checks| && Run(c, events).checks[k].stage.Passed?
    ensures var s := Run(c, events); var x, i := s.checks[k].transaction, s.checks[k].inputs;
      && x in s.transfers && RootKnown(s.roots, i.contextId, i.merkleRoot)
      && exists n: nat :: SoleContext(s.contexts, n, s.transfers[x].product, i)
           && CompleteAccept(w, s, k, receiptId).1 == Answer(Refusal(w, s, s.transfers[x], i, n, receiptId))
  {
    hide *;
    RunSettles(c, events);
    RunAnchored(c, events);
    RunKeepsRoots(c, events);
    FailuresReasoned(c, Run(c, events), w, k, receiptId);
  }

  function Answer(e: Option<string>): Reply {
    if e.Some? then Error(e.value) else Done
  }

  /** Row n is the product's, with the inputs' identifier and asset type, and no other row has that identifier. */
  predicate SoleContext(contexts: seq<ContextRow>, n: nat, product: string, i: Inputs) {
    && ContextOf(contexts, n, product, i.contextId, i.assetType)
    && forall m :: 0 <= m < |contexts| && contexts[m].contextId == i.contextId ==> m == n
  }

  lemma FailuresReasoned(c: Config, s: State, w: World, k: nat, receiptId: string)
    requires Settlement(c, s) && RootsGood(c, s) && Anchored(c, s)
    requires k < |s.checks| && s.checks[k].stage.Passed?
    ensures var x, i := s.checks[k].transaction, s.checks[k].inputs;
      && x in s.transfers && RootKnown(s.roots, i.contextId, i.merkleRoot)
      && exists n: nat :: SoleContext(s.contexts, n, s.transfers[x].product, i)
           && CompleteAccept(w, s, k, receiptId).1 == Answer(Refusal(w, s, s.transfers[x], i, n, receiptId))
  {
    var x, i := s.checks[k].transaction, s.checks[k].inputs;
    PassedFacts(c, s, k);
    assert SpentGood(s) && OutputsGood(s) && ContextsGood(s);
    TablesAreAccepted(s, i);
    hide *;
    var n := AnchoredFacts(c, s, k);
    StandingIsCurrent(w, s, s.transfers[x].product, i, n);
    CompleteReply(w, s, k, receiptId);
    FailureReasons(w, s, x, i, n, receiptId);
  }

  lemma CompleteReply(w: World, s: State, k: nat, receiptId: string)
    requires k < |s.checks| && s.checks[k].stage.Passed?
    ensures var error := CompleteError(w, s, s.checks[k].transaction, s.checks[k].inputs, receiptId);
      CompleteAccept(w, s, k, receiptId).1 == Answer(error) && (CompleteAccept(w, s, k, receiptId).1 == Done <==> error.None?)
  {
    hide CompleteError, Received, Spend, Record;
  }

  /** The locked checks in their order, for a transfer that is known and authorized on its terms. */
  lemma FailureReasons(w: World, s: State, x: string, i: Inputs, n: nat, receiptId: string)
    requires x in s.transfers
    requires var t := s.transfers[x];
      && t.authorization.Some? && (t.authorization.value.verified <==> t.receipt.Some?) && (t.phase == PROOF_PENDING <==> t.receipt.None?)
      && i.fee == t.instruction.fee && i.recipient == t.instruction.recipient && i.relayer == t.instruction.relayer && i.nullifier0 != i.nullifier1
    requires ContextStands(w, s, n) <==> ContextCurrent(s.contexts, s.transfers[x].product, w.circuit, i)
    requires NullifierTaken(s, i) <==> (i.contextId, i.nullifier0) in s.spent || (i.contextId, i.nullifier1) in s.spent
    requires OutputTaken(s, i) <==> (i.contextId, i.x0, i.y0) in s.outputs || (i.contextId, i.x1, i.y1) in s.outputs
    ensures CompleteError(w, s, x, i, receiptId) == Refusal(w, s, s.transfers[x], i, n, receiptId)
  {
    LapsedIff(s.roots, i, w.now);
    hide ContextCurrent, RootAccepted, RootLapsed, ContextStands, NullifierTaken, OutputTaken;
  }

  lemma LapsedIff(roots: seq<RootRow>, i: Inputs, now: int)
    ensures RootLapsed(roots, i, now) <==> !RootAccepted(roots, i.contextId, i.merkleRoot, now)
  {
  }

  /** The inputs of a check name a recorded root and the one context row of their identifier. */
  lemma AnchoredFacts(c: Config, s: State, k: nat) returns (n: nat)
    requires Settlement(c, s) && Anchored(c, s) && ContextsGood(s) && k < |s.checks| && s.checks[k].transaction in s.transfers
    requires s.transfers[s.checks[k].transaction].authorization.Some? && s.transfers[s.checks[k].transaction].authorization.value.inputs == s.checks[k].inputs
    ensures RootKnown(s.roots, s.checks[k].inputs.contextId, s.checks[k].inputs.merkleRoot)
    ensures SoleContext(s.contexts, n, s.transfers[s.checks[k].transaction].product, s.checks[k].inputs)
  {
    hide Settlement, Historic, RootKnown, Registered;
    var t, i := s.transfers[s.checks[k].transaction], s.checks[k].inputs;
    assert Anchors(s, t.product, i);
    n :| ContextOf(s.contexts, n, t.product, i.contextId, i.assetType);
    forall m: nat | m < |s.contexts| && s.contexts[m].contextId == i.contextId ensures m == n {
      SameContext(s, m, n);
    }
  }

  lemma SameContext(s: State, m: nat, n: nat)
    requires ContextsGood(s) && m < |s.contexts| && n < |s.contexts|
    ensures s.contexts[m].contextId == s.contexts[n].contextId ==> m == n
  {
    hide Registered;
    if m < n {
      assert Apart(s.contexts[m], s.contexts[n]);
    } else if n < m {
      assert Apart(s.contexts[n], s.contexts[m]);
    }
  }

  lemma StandingIsCurrent(w: World, s: State, product: string, i: Inputs, n: nat)
    requires SoleContext(s.contexts, n, product, i)
    ensures ContextStands(w, s, n) <==> ContextCurrent(s.contexts, product, w.circuit, i)
  {
    if ContextStands(w, s, n) {
      assert PinnedContext(s.contexts, n, product, w.circuit);
    }
  }

  /**
   Once a transfer is accepted, no later second phase of the same transfer, or of any
   transfer sharing one of its nullifiers in its context, is ever accepted, whatever ran
   between and however long its check had been under way; it writes nothing.
   */
  lemma FirstAcceptanceWins(c: Config, events: seq<Event>, more: seq<Event>, x: string, w: World, k: nat, receiptId: string)
    requires x in Run(c, events).transfers && Run(c, events).transfers[x].receipt.Some? && Run(c, events).transfers[x].authorization.Some?
    requires var s := Run(c, events + more); k < |s.checks| && s.checks[k].stage.Passed?
    requires var i, j := Run(c, events + more).checks[k].inputs, Run(c, events).transfers[x].authorization.value.inputs;
      || Run(c, events + more).checks[k].transaction == x
      || (i.contextId == j.contextId && (i.nullifier0 in {j.nullifier0, j.nullifier1} || i.nullifier1 in {j.nullifier0, j.nullifier1}))
    ensures var s := Run(c, events + more); var (t, reply) := CompleteAccept(w, s, k, receiptId);
      reply != Done && t == s.(checks := s.checks[k := s.checks[k].(stage := Over)])
  {
    var s := Run(c, events + more);
    TermsAreFrozen(c, events + more, |events|);
    assert (events + more)[..|events|] == events;
    RunSettles(c, events + more);
    SecondPhaseIff(c, events + more, w, k, receiptId);
    AcceptedUses(c, s, x);
    assert Advances(Run(c, events).transfers[x], s.transfers[x]);
    hide Run, Extends, StillOpen, CompleteError, OutputTaken, Settlement, Uses;
    RefusedWritesNothing(w, s, k, receiptId);
  }

  lemma AcceptedUses(c: Config, s: State, x: string)
    requires Settlement(c, s)
    ensures x in s.transfers && s.transfers[x].receipt.Some? ==>
      && s.transfers[x].authorization.Some?
      && var i := s.transfers[x].authorization.value.inputs;
        Uses(s.transfers[x], i.contextId, i.nullifier0) && Uses(s.transfers[x], i.contextId, i.nullifier1)
  {
    hide SpentGood, OutputsGood, ReceiptsDistinct, ChecksGood;
    if x in s.transfers {
      assert TransferGood(s.transfers[x]);
    }
  }

  lemma RefusedWritesNothing(w: World, s: State, k: nat, receiptId: string)
    requires k < |s.checks| && s.checks[k].stage.Passed?
    ensures CompleteAccept(w, s, k, receiptId).1 != Done ==>
      CompleteAccept(w, s, k, receiptId).0 == s.(checks := s.checks[k := s.checks[k].(stage := Over)])
  {
    hide CompleteError, Received, Spend, Record;
  }

  /** Inputs are bound to a transfer once: after an authorization no later one of the same transfer succeeds. */
  lemma AuthorizedOnce(c: Config, events: seq<Event>, more: seq<Event>, x: string, w: World, inputs: Inputs, actor: Option<string>)
    requires x in Run(c, events).transfers && Run(c, events).transfers[x].authorization.Some?
    ensures Authorize(w, Run(c, events + more), x, inputs, actor).0 == Run(c, events + more)
      && Authorize(w, Run(c, events + more), x, inputs, actor).1.Error?
  {
    TermsAreFrozen(c, events + more, |events|);
    assert (events + more)[..|events|] == events;
    assert Advances(Run(c, events).transfers[x], Run(c, events + more).transfers[x]);
    hide Run, Extends, RootAccepted, ActiveContext;
  }
}
