/** Which calls the contexts, roots and finalizations of the confidential rail go back to, who made them, and how long a replaced root lasts. */
module ConfidentialRailGovernance {
  import opened Common
  import opened FieldEncoding
  import opened NoteTree
  import opened ConfidentialRail
  import opened ConfidentialRailSafety

  // ----- contexts -----

  /** A maker proposes a context for an owned product under the pinned, active circuit. */
  predicate Proposes(s: State, e: Event, q: ContextProposal) {
    && e.action == DoProposeContext(q.product, q.contextId, q.assetType, q.maker) && q.circuit == e.world.circuit
    && q.checker == None && q.decision == Pending
    && NormalizeFieldElement(q.contextId).Ok? && q.contextId != "0"
    && NormalizeFieldElement(q.assetType).Ok? && NormalizeFieldElement(q.assetType).value < 4_294_967_296
    && Available(e.world, s, q)
    && forall p :: 0 <= p < |s.proposals| && s.proposals[p].product == q.product ==> s.proposals[p].decision != Pending
  }

  /** The product is owned and has no standing context, the circuit is active, and the identifier was never used. */
  predicate Available(w: World, s: State, q: ContextProposal) {
    && w.owned(q.product) && w.circuitActive(q.circuit)
    && (forall i :: 0 <= i < |s.contexts| ==> s.contexts[i].contextId != q.contextId && (s.contexts[i].product == q.product ==> s.contexts[i].retired))
    && forall i :: 0 <= i < |s.roots| ==> s.roots[i].contextId != q.contextId
  }

  /** Someone else decides it. */
  predicate Answers(e: Event, p: nat, before: ContextProposal, after: ContextProposal) {
    && e.action.DoDecideContext? && e.action.proposal == p && before.decision == Pending && e.action.checker != before.maker
    && after == before.(checker := Some(e.action.checker), decision := if e.action.approve then Approved else Refused)
  }

  ghost predicate ProposalStep(s: State, e: Event, t: State, p: nat)
    requires p < |t.proposals|
  {
    if p >= |s.proposals| then p == |s.proposals| && Proposes(s, e, t.proposals[p])
    else t.proposals[p] == s.proposals[p] || Answers(e, p, s.proposals[p], t.proposals[p])
  }

  /** A context comes with the approval of an available proposal of someone else. */
  predicate Creates(s: State, e: Event, row: ContextRow) {
    && e.action.DoDecideContext? && e.action.approve && e.action.proposal < |s.proposals|
    && var q := s.proposals[e.action.proposal];
      q.decision == Pending && q.maker != e.action.checker && Available(e.world, s, q) && row == ContextRow(q.product, q.circuit, q.contextId, q.assetType, false)
  }

  predicate ContextStep(s: State, e: Event, t: State, n: nat)
    requires n < |t.contexts|
  {
    if n >= |s.contexts| then n == |s.contexts| && Creates(s, e, t.contexts[n])
    else t.contexts[n] == s.contexts[n] || (e.action == DoRetireContext(n) && t.contexts[n] == s.contexts[n].(retired := true))
  }

  /** What the calls about transfers and finalizations leave alone. */
  lemma TransferCallsAside(c: Config, s: State, e: Event)
    requires !e.action.DoProposeContext? && !e.action.DoDecideContext? && !e.action.DoRetireContext?
    ensures Step(c, s, e).0.proposals == s.proposals && Step(c, s, e).0.contexts == s.contexts
  {
    hide InstructionAccepted, ActiveContext, AuthorizeError, CompleteError, Received, Spend, Record, Finalize, VerifiedExtension, NormalizeFieldElement;
    hide LiveProposal, RevokeRoot;
    if e.action.DoFinalize? {
      FinalizeAside(c, e.world, s, e.action.transaction, e.action.checker);
    }
    if e.action.DoRevokeRoot? {
      RevokeAside(s, e.action.row);
    }
  }

  lemma FinalizeAside(c: Config, w: World, s: State, x: string, checker: string)
    ensures Finalize(c, w, s, x, checker).0.proposals == s.proposals && Finalize(c, w, s, x, checker).0.contexts == s.contexts
  {
    FinalizeCases(c, w, s, x, checker);
    hide Finalize, VerifiedExtension, LiveProposal;
  }

  lemma RevokeAside(s: State, i: nat)
    ensures RevokeRoot(s, i).0.proposals == s.proposals && RevokeRoot(s, i).0.contexts == s.contexts
  {
  }

  lemma AvailableIff(w: World, s: State, q: ContextProposal)
    requires ContextAvailable(w, s, q.product, q.circuit, q.contextId).None?
    ensures Available(w, s, q)
  {
    forall i | 0 <= i < |s.contexts| ensures s.contexts[i].contextId != q.contextId && (s.contexts[i].product == q.product ==> s.contexts[i].retired) {
      assert !ContextActive(s.contexts, i, q.product);
    }
  }

  lemma ProposeRows(s: State, e: Event, p: nat)
    requires e.action.DoProposeContext? && p < |ProposeContext(e.world, s, e.action.product, e.action.contextId, e.action.assetType, e.action.maker).0.proposals|
    ensures ProposalStep(s, e, ProposeContext(e.world, s, e.action.product, e.action.contextId, e.action.assetType, e.action.maker).0, p)
  {
    var q := ContextProposal(e.action.product, e.world.circuit, e.action.contextId, e.action.assetType, e.action.maker, None, Pending);
    if ContextAvailable(e.world, s, q.product, q.circuit, q.contextId).None? {
      AvailableIff(e.world, s, q);
    }
    hide ContextAvailable, Available, NormalizeFieldElement;
  }

  lemma DecideRows(c: Config, s: State, e: Event, p: nat)
    requires e.action.DoDecideContext? && p < |DecideContext(c, e.world, s, e.action.proposal, e.action.checker, e.action.approve).0.proposals|
    ensures ProposalStep(s, e, DecideContext(c, e.world, s, e.action.proposal, e.action.checker, e.action.approve).0, p)
  {
    hide ContextAvailable, Available, StateOf, Proposes;
  }

  lemma CreateRows(c: Config, s: State, e: Event, n: nat)
    requires e.action.DoDecideContext? && n < |DecideContext(c, e.world, s, e.action.proposal, e.action.checker, e.action.approve).0.contexts|
    ensures ContextStep(s, e, DecideContext(c, e.world, s, e.action.proposal, e.action.checker, e.action.approve).0, n)
  {
    if e.action.proposal < |s.proposals| {
      var q := s.proposals[e.action.proposal];
      if ContextAvailable(e.world, s, q.product, q.circuit, q.contextId).None? {
        AvailableIff(e.world, s, q);
      }
    }
    hide ContextAvailable, Available, StateOf;
  }

  /** Every way a proposal and a context come to be and move. */
  lemma ContextsMove(c: Config, s: State, e: Event, p: nat, n: nat)
    ensures |s.proposals| <= |Step(c, s, e).0.proposals| && |s.contexts| <= |Step(c, s, e).0.contexts|
    ensures p < |Step(c, s, e).0.proposals| ==> ProposalStep(s, e, Step(c, s, e).0, p)
    ensures n < |Step(c, s, e).0.contexts| ==> ContextStep(s, e, Step(c, s, e).0, n)
  {
    hide Proposes, Answers, Creates;
    if e.action.DoProposeContext? {
      if p < |Step(c, s, e).0.proposals| {
        ProposeRows(s, e, p);
      }
      ProposeGrows(s, e);
    } else if e.action.DoDecideContext? {
      DecideGrows(c, s, e);
      hide DecideContext;
      if p < |Step(c, s, e).0.proposals| {
        DecideRows(c, s, e, p);
      }
      if n < |Step(c, s, e).0.contexts| {
        CreateRows(c, s, e, n);
      }
    } else if e.action.DoRetireContext? {
    } else {
      TransferCallsAside(c, s, e);
      hide Step;
    }
  }

  lemma ProposeGrows(s: State, e: Event)
    requires e.action.DoProposeContext?
    ensures var t := ProposeContext(e.world, s, e.action.product, e.action.contextId, e.action.assetType, e.action.maker).0;
      |s.proposals| <= |t.proposals| && t.contexts == s.contexts
  {
    hide ContextAvailable, NormalizeFieldElement;
  }

  lemma DecideGrows(c: Config, s: State, e: Event)
    requires e.action.DoDecideContext?
    ensures var t := DecideContext(c, e.world, s, e.action.proposal, e.action.checker, e.action.approve).0;
      |s.proposals| <= |t.proposals| && |s.contexts| <= |t.contexts|
  {
    hide ContextAvailable, StateOf;
  }

  /** The call at position i proposed p, as it stands but for its decision. */
  ghost predicate ProposedAt(c: Config, events: seq<Event>, i: nat, p: nat, q: ContextProposal) {
    i < |events| && p == |Run(c, events[..i]).proposals| && Proposes(Run(c, events[..i]), events[i], q.(checker := None, decision := Pending))
  }

  lemma {:induction false} ProposalMade(c: Config, events: seq<Event>, p: nat)
    requires p < |Run(c, events).proposals|
    ensures exists i: nat :: ProposedAt(c, events, i, p, Run(c, events).proposals[p])
  {
    hide Step, Proposes;
    var m := |events| - 1;
    var front := events[..m];
    var s, t := Run(c, front), Run(c, events);
    ContextsMove(c, s, events[m], p, 0);
    if p < |s.proposals| {
      ProposalMade(c, front, p);
      var i: nat :| ProposedAt(c, front, i, p, s.proposals[p]);
      assert front[..i] == events[..i];
      assert ProposedAt(c, events, i, p, t.proposals[p]);
    } else {
      NewlyProposed(s, events[m], t.proposals[p]);
      assert ProposedAt(c, events, m, p, t.proposals[p]);
    }
  }

  lemma NewlyProposed(s: State, e: Event, q: ContextProposal)
    requires Proposes(s, e, q)
    ensures q == q.(checker := None, decision := Pending)
  {
    hide Available, NormalizeFieldElement;
  }

  /** The call at position j created the context from proposal p. */
  ghost predicate CreatedAt(c: Config, events: seq<Event>, j: nat, p: nat, row: ContextRow) {
    && j < |events| && events[j].action.DoDecideContext? && events[j].action.proposal == p && Creates(Run(c, events[..j]), events[j], row.(retired := false))
  }

  lemma {:induction false} ContextCreated(c: Config, events: seq<Event>, n: nat)
    requires n < |Run(c, events).contexts|
    ensures exists j: nat, p: nat :: CreatedAt(c, events, j, p, Run(c, events).contexts[n])
  {
    hide Step, Creates;
    var m := |events| - 1;
    var front := events[..m];
    var s, t := Run(c, front), Run(c, events);
    ContextsMove(c, s, events[m], 0, n);
    if n < |s.contexts| {
      ContextCreated(c, front, n);
      var j: nat, p: nat :| CreatedAt(c, front, j, p, s.contexts[n]);
      assert front[..j] == events[..j];
      assert CreatedAt(c, events, j, p, t.contexts[n]);
    } else {
      NewlyCreated(s, events[m], t.contexts[n]);
      assert CreatedAt(c, events, m, events[m].action.proposal, t.contexts[n]);
    }
  }

  lemma NewlyCreated(s: State, e: Event, row: ContextRow)
    requires Creates(s, e, row)
    ensures e.action.DoDecideContext? && row == row.(retired := false)
  {
    hide Available;
  }

  /** A maker's proposal at i, approved by another person at j, later. */
  ghost predicate Governed(c: Config, events: seq<Event>, i: nat, j: nat, p: nat, row: ContextRow, q: ContextProposal) {
    && i < j && ProposedAt(c, events, i, p, q) && CreatedAt(c, events, j, p, row)
    && row == ContextRow(q.product, q.circuit, q.contextId, q.assetType, row.retired) && events[j].action.checker != q.maker
  }

  /** In every run each context goes back to one person's proposal of exactly it and another's later approval, both while it was available. */
  lemma ContextsAreGoverned(c: Config, events: seq<Event>, n: nat)
    requires n < |Run(c, events).contexts|
    ensures exists i: nat, j: nat, p: nat, q :: Governed(c, events, i, j, p, Run(c, events).contexts[n], q)
  {
    hide Run;
    var row := Run(c, events).contexts[n];
    ContextCreated(c, events, n);
    var j: nat, p: nat :| CreatedAt(c, events, j, p, row);
    var s := Run(c, events[..j]);
    CreatedFrom(s, events[j], row);
    ProposalMade(c, events[..j], p);
    hide Proposes, Creates;
    var i: nat :| ProposedAt(c, events[..j], i, p, s.proposals[p]);
    assert events[..j][..i] == events[..i];
    assert Governed(c, events, i, j, p, row, s.proposals[p]);
  }

  lemma CreatedFrom(s: State, e: Event, row: ContextRow)
    requires Creates(s, e, row.(retired := false))
    ensures e.action.proposal < |s.proposals|
    ensures var q := s.proposals[e.action.proposal]; row == ContextRow(q.product, q.circuit, q.contextId, q.assetType, row.retired) && e.action.checker != q.maker
  {
    hide Available;
  }

  // ----- finalizations -----

  /** A maker proposes to publish a root for an accepted transfer of an active product. */
  predicate Publishes(s: State, e: Event, f: Finalization) {
    && e.action == DoProposeFinalization(f.transaction, f.root, f.size, f.maker) && f.checker == None && f.status == Live
    && f.transaction in s.transfers && s.transfers[f.transaction].phase == ROOT_PENDING && e.world.productActive(s.transfers[f.transaction].product)
    && NormalizeFieldElement(f.root).Ok? && f.size >= 2
    && forall p :: 0 <= p < |s.finalizations| && s.finalizations[p].transaction == f.transaction ==> s.finalizations[p].status == Cancelled
  }

  /** A live proposal is cancelled, or applied by a second person. */
  predicate Concludes(s: State, e: Event, before: Finalization, after: Finalization) {
    && before.status == Live && before.transaction in s.transfers
    && ((e.action == DoCancelFinalization(before.transaction) && after == before.(status := Cancelled))
      || (e.action.DoFinalize? && e.action.transaction == before.transaction && e.action.checker != before.maker
        && e.world.productActive(s.transfers[before.transaction].product)
        && (after == before.(status := Cancelled) || after == before.(status := Applied, checker := Some(e.action.checker)))))
  }

  predicate FinalizationStep(s: State, e: Event, t: State, p: nat)
    requires p < |t.finalizations|
  {
    if p >= |s.finalizations| then p == |s.finalizations| && Publishes(s, e, t.finalizations[p])
    else t.finalizations[p] == s.finalizations[p] || Concludes(s, e, s.finalizations[p], t.finalizations[p])
  }

  /** Live proposals are for known transfers. */
  ghost predicate ProposalsKnown(s: State) {
    forall p :: 0 <= p < |s.finalizations| ==> s.finalizations[p].transaction in s.transfers
  }

  lemma FinalizeGuards(c: Config, w: World, s: State, x: string, checker: string)
    ensures var t := Finalize(c, w, s, x, checker).0; var live := LiveProposal(s.finalizations, x, |s.finalizations|);
      t.finalizations != s.finalizations ==>
        live.Some? && x in s.transfers && w.productActive(s.transfers[x].product) && checker != s.finalizations[live.value].maker
  {
    hide VerifiedExtension, RootKnown, LiveProposal;
  }

  lemma FinalizeRows(c: Config, s: State, e: Event, p: nat)
    requires e.action.DoFinalize? && p < |Finalize(c, e.world, s, e.action.transaction, e.action.checker).0.finalizations|
    ensures |Finalize(c, e.world, s, e.action.transaction, e.action.checker).0.finalizations| == |s.finalizations|
    ensures FinalizationStep(s, e, Finalize(c, e.world, s, e.action.transaction, e.action.checker).0, p)
  {
    FinalizeCases(c, e.world, s, e.action.transaction, e.action.checker);
    FinalizeGuards(c, e.world, s, e.action.transaction, e.action.checker);
    hide Finalize, VerifiedExtension, LiveProposal;
  }

  lemma PublishRows(c: Config, s: State, e: Event, p: nat)
    requires e.action.DoProposeFinalization?
    ensures var t := ProposeFinalization(c, e.world, s, e.action.transaction, e.action.root, e.action.size, e.action.maker).0;
      |s.finalizations| <= |t.finalizations| && (p < |t.finalizations| ==> FinalizationStep(s, e, t, p))
  {
    hide VerifiedExtension, NormalizeFieldElement;
  }

  lemma CancelRows(s: State, e: Event, p: nat)
    requires e.action.DoCancelFinalization? && ProposalsKnown(s)
    ensures var t := CancelFinalization(s, e.action.transaction).0;
      |s.finalizations| <= |t.finalizations| && (p < |t.finalizations| ==> FinalizationStep(s, e, t, p))
  {
    hide LiveProposal;
  }

  lemma OtherFinalizations(c: Config, s: State, e: Event)
    requires !e.action.DoProposeFinalization? && !e.action.DoCancelFinalization? && !e.action.DoFinalize?
    ensures Step(c, s, e).0.finalizations == s.finalizations
  {
    hide InstructionAccepted, ActiveContext, AuthorizeError, CompleteError, Received, Spend, Record, ContextAvailable, NormalizeFieldElement, StateOf;
  }

  /** Every way a finalization comes to be and moves. */
  lemma FinalizationsMove(c: Config, s: State, e: Event, p: nat)
    requires ProposalsKnown(s) && p < |Step(c, s, e).0.finalizations|
    ensures |s.finalizations| <= |Step(c, s, e).0.finalizations| && FinalizationStep(s, e, Step(c, s, e).0, p)
  {
    hide Publishes, Concludes, ProposeFinalization, CancelFinalization, Finalize;
    if e.action.DoProposeFinalization? {
      PublishRows(c, s, e, p);
    } else if e.action.DoCancelFinalization? {
      CancelRows(s, e, p);
    } else if e.action.DoFinalize? {
      FinalizeRows(c, s, e, p);
    } else {
      OtherFinalizations(c, s, e);
      hide Step;
    }
  }

  lemma {:induction false} RunProposalsKnown(c: Config, events: seq<Event>)
    ensures ProposalsKnown(Run(c, events))
  {
    hide Step, Settlement;
    if events != [] {
      var front := events[..|events| - 1];
      RunProposalsKnown(c, front);
      RunSettles(c, front);
      SettlementKeeps(c, Run(c, front), events[|events| - 1]);
      KnownStill(c, Run(c, front), events[|events| - 1]);
    }
  }

  lemma KnownStill(c: Config, s: State, e: Event)
    requires ProposalsKnown(s) && Extends(s, Step(c, s, e).0)
    ensures ProposalsKnown(Step(c, s, e).0)
  {
    hide Step, Advances;
    forall p | 0 <= p < |Step(c, s, e).0.finalizations| ensures Step(c, s, e).0.finalizations[p].transaction in Step(c, s, e).0.transfers {
      FinalizationsMove(c, s, e, p);
    }
  }

  /** The call at position i made the proposal. */
  ghost predicate PublishedAt(c: Config, events: seq<Event>, i: nat, p: nat, f: Finalization) {
    && i < |events| && p == |Run(c, events[..i]).finalizations| && Publishes(Run(c, events[..i]), events[i], f.(checker := None, status := Live))
  }

  /** The call at position j applied it. */
  ghost predicate AppliedAt(c: Config, events: seq<Event>, j: nat, p: nat, f: Finalization) {
    && j < |events| && p < |Run(c, events[..j]).finalizations| && f.checker.Some? && events[j].action == DoFinalize(f.transaction, f.checker.value)
    && Run(c, events[..j]).finalizations[p] == f.(checker := None, status := Live) && f.checker.value != f.maker
    && f.transaction in Run(c, events[..j]).transfers && events[j].world.productActive(Run(c, events[..j]).transfers[f.transaction].product)
  }

  lemma {:induction false} FinalizationPublished(c: Config, events: seq<Event>, p: nat)
    requires p < |Run(c, events).finalizations|
    ensures exists i: nat :: PublishedAt(c, events, i, p, Run(c, events).finalizations[p])
    ensures Run(c, events).finalizations[p].status != Applied ==> Run(c, events).finalizations[p].checker == None
  {
    hide Step, Publishes;
    var m := |events| - 1;
    var front := events[..m];
    var s, t := Run(c, front), Run(c, events);
    RunProposalsKnown(c, front);
    FinalizationsMove(c, s, events[m], p);
    if p < |s.finalizations| {
      FinalizationPublished(c, front, p);
      var i: nat :| PublishedAt(c, front, i, p, s.finalizations[p]);
      assert front[..i] == events[..i];
      assert PublishedAt(c, events, i, p, t.finalizations[p]);
    } else {
      NewlyPublished(s, events[m], t.finalizations[p]);
      assert PublishedAt(c, events, m, p, t.finalizations[p]);
    }
  }

  lemma NewlyPublished(s: State, e: Event, f: Finalization)
    requires Publishes(s, e, f)
    ensures f == f.(checker := None, status := Live)
  {
    hide NormalizeFieldElement;
  }

  lemma {:induction false} FinalizationApplied(c: Config, events: seq<Event>, p: nat)
    requires p < |Run(c, events).finalizations| && Run(c, events).finalizations[p].status == Applied
    ensures exists j: nat :: AppliedAt(c, events, j, p, Run(c, events).finalizations[p])
  {
    hide Step, Publishes;
    var m := |events| - 1;
    var front := events[..m];
    var s, t := Run(c, front), Run(c, events);
    RunProposalsKnown(c, front);
    FinalizationsMove(c, s, events[m], p);
    if p >= |s.finalizations| {
      NewlyPublished(s, events[m], t.finalizations[p]);
    } else if t.finalizations[p] == s.finalizations[p] {
      FinalizationApplied(c, front, p);
      var j: nat :| AppliedAt(c, front, j, p, s.finalizations[p]);
      assert front[..j] == events[..j];
      assert AppliedAt(c, events, j, p, t.finalizations[p]);
    } else {
      FinalizationPublished(c, front, p);
      assert AppliedAt(c, events, m, p, t.finalizations[p]);
    }
  }

  ghost predicate TwoCalls(c: Config, events: seq<Event>, i: nat, j: nat, p: nat, f: Finalization) {
    i < j && PublishedAt(c, events, i, p, f) && AppliedAt(c, events, j, p, f)
  }

  /** In every run each applied finalization goes back to one person's proposal of exactly that root and another's later decision, both on an active product. */
  lemma FinalizedByTwoCalls(c: Config, events: seq<Event>, p: nat)
    requires p < |Run(c, events).finalizations| && Run(c, events).finalizations[p].status == Applied
    ensures exists i: nat, j: nat :: TwoCalls(c, events, i, j, p, Run(c, events).finalizations[p])
  {
    hide Run, Publishes;
    var f := Run(c, events).finalizations[p];
    FinalizationApplied(c, events, p);
    var j: nat :| AppliedAt(c, events, j, p, f);
    FinalizationPublished(c, events[..j], p);
    var i: nat :| PublishedAt(c, events[..j], i, p, Run(c, events[..j]).finalizations[p]);
    assert events[..j][..i] == events[..i];
    assert TwoCalls(c, events, i, j, p, f);
  }

  // ----- roots -----

  const HOUR_MS: int := 60 * 60 * 1000

  /** A root is recorded as CURRENT without an end, stays on for an hour when it is replaced, and may be revoked only then. */
  predicate RootStep(s: State, e: Event, t: State, n: nat)
    requires n < |t.roots|
  {
    if n >= |s.roots| then (e.action.DoDecideContext? || e.action.DoFinalize?) && t.roots[n].status == CURRENT && t.roots[n].expiresAt == None
    else
      || t.roots[n] == s.roots[n]
      || (e.action.DoFinalize? && s.roots[n].status == CURRENT
        && t.roots[n] == s.roots[n].(status := HISTORICAL, expiresAt := Some(e.world.now + HOUR_MS)))
      || (e.action == DoRevokeRoot(n) && s.roots[n].status == HISTORICAL && t.roots[n] == s.roots[n].(status := REVOKED))
  }

  lemma FinalizeRootRows(c: Config, s: State, e: Event, n: nat)
    requires e.action.DoFinalize? && n < |Finalize(c, e.world, s, e.action.transaction, e.action.checker).0.roots|
    ensures |s.roots| <= |Finalize(c, e.world, s, e.action.transaction, e.action.checker).0.roots|
    ensures RootStep(s, e, Finalize(c, e.world, s, e.action.transaction, e.action.checker).0, n)
  {
    FinalizeCases(c, e.world, s, e.action.transaction, e.action.checker);
    hide Finalize, VerifiedExtension, LiveProposal;
  }

  lemma DecideRootRows(c: Config, s: State, e: Event, n: nat)
    requires e.action.DoDecideContext?
    ensures var t := DecideContext(c, e.world, s, e.action.proposal, e.action.checker, e.action.approve).0;
      |s.roots| <= |t.roots| && (n < |t.roots| ==> RootStep(s, e, t, n))
  {
    hide ContextAvailable, StateOf;
  }

  lemma OtherRoots(c: Config, s: State, e: Event)
    requires !e.action.DoDecideContext? && !e.action.DoFinalize? && !e.action.DoRevokeRoot?
    ensures Step(c, s, e).0.roots == s.roots
  {
    hide InstructionAccepted, ActiveContext, AuthorizeError, CompleteError, Received, Spend, Record, ContextAvailable, NormalizeFieldElement;
    hide VerifiedExtension, LiveProposal;
  }

  /** Every way a root comes to be and moves. */
  lemma RootsMove(c: Config, s: State, e: Event, n: nat)
    requires n < |Step(c, s, e).0.roots|
    ensures |s.roots| <= |Step(c, s, e).0.roots| && RootStep(s, e, Step(c, s, e).0, n)
  {
    hide DecideContext, Finalize;
    if e.action.DoFinalize? {
      FinalizeRootRows(c, s, e, n);
    } else if e.action.DoDecideContext? {
      DecideRootRows(c, s, e, n);
    } else if !e.action.DoRevokeRoot? {
      OtherRoots(c, s, e);
      hide Step;
    }
  }

  /** The finalization at position j replaced the root, which lasts an hour from its clock. */
  ghost predicate ReplacedAt(c: Config, events: seq<Event>, j: nat, n: nat, row: RootRow) {
    && j < |events| && events[j].action.DoFinalize? && n < |Run(c, events[..j]).roots| && Run(c, events[..j]).roots[n].status == CURRENT
    && n < |Run(c, events[..j + 1]).roots| && Run(c, events[..j + 1]).roots[n].status == HISTORICAL
    && row.expiresAt == Some(events[j].world.now + HOUR_MS)
  }

  /**
   In every run a CURRENT root has no end, and any other was replaced by one finalization
   and ends exactly one hour after that call's clock.
   */
  lemma {:induction false} ReplacedRootsLastAnHour(c: Config, events: seq<Event>, n: nat)
    requires n < |Run(c, events).roots|
    ensures var row := Run(c, events).roots[n];
      if row.status == CURRENT then row.expiresAt == None else exists j: nat :: ReplacedAt(c, events, j, n, row)
  {
    hide Step;
    var m := |events| - 1;
    var front := events[..m];
    var s, t := Run(c, front), Run(c, events);
    RootsMove(c, s, events[m], n);
    assert events[..m + 1] == events;
    if n < |s.roots| {
      ReplacedRootsLastAnHour(c, front, n);
      if s.roots[n].status != CURRENT {
        var j: nat :| ReplacedAt(c, front, j, n, s.roots[n]);
        assert front[..j] == events[..j] && front[..j + 1] == events[..j + 1];
        assert ReplacedAt(c, events, j, n, t.roots[n]);
      } else if t.roots[n].status != CURRENT {
        assert ReplacedAt(c, events, m, n, t.roots[n]);
      }
    }
  }

  /** So long, and while it is not revoked, it is accepted: a CURRENT root always, a replaced one within its hour. */
  lemma AcceptedWithinTheHour(c: Config, events: seq<Event>, n: nat, now: int)
    requires n < |Run(c, events).roots| && Run(c, events).roots[n].status != REVOKED
    requires forall j: nat :: ReplacedAt(c, events, j, n, Run(c, events).roots[n]) ==> now < events[j].world.now + HOUR_MS
    ensures RootAccepted(Run(c, events).roots, Run(c, events).roots[n].contextId, Run(c, events).roots[n].root, now)
  {
    ReplacedRootsLastAnHour(c, events, n);
    hide Run;
    var row := Run(c, events).roots[n];
    if row.status != CURRENT {
      var j: nat :| ReplacedAt(c, events, j, n, row);
    }
  }
}
