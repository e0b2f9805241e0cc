/**
 The other half of the confidential rail's law: every call that meets it goes through, so
 each is answered with success exactly when the tables and the moment allow it.
 */
module ConfidentialRailReplies {
  import opened Common
  import opened FieldEncoding
  import opened NoteTree
  import opened ConfidentialRail
  import opened ConfidentialRailSafety
  import opened ConfidentialRailRoots
  import R = ConfidentialRailRecords
  import G = ConfidentialRailGovernance

  // ----- prepare -----

  /** The instruction is lawful and everyone involved may take part in it now. */
  ghost predicate MayPrepare(w: World, s: State, product: string, i: Instruction) {
    && R.InstructionLaw(i, w.now) && w.productActive(product) && w.owned(product) && w.ineligible(product, i) == None
    && exists n: nat :: R.Stands(w, s, product, n)
  }

  /** The same instruction, whoever authorised it. */
  predicate SameTerms(i: Instruction, j: Instruction) {
    i.fee == j.fee && i.recipient == j.recipient && i.relayer == j.relayer && i.expiresAt == j.expiresAt && i.parties == j.parties
  }

  lemma StandsExactly(w: World, s: State, product: string)
    ensures (ActiveContext(s.contexts, product, w.circuit, |s.contexts|).Some? && w.circuitActive(w.circuit)) <==> exists n: nat :: R.Stands(w, s, product, n)
  {
    hide ActiveContext;
    var a := ActiveContext(s.contexts, product, w.circuit, |s.contexts|);
    if a.Some? && w.circuitActive(w.circuit) {
      assert R.Stands(w, s, product, a.value);
    }
    if n: nat :| R.Stands(w, s, product, n) {
      assert PinnedContext(s.contexts, n, product, w.circuit);
    }
  }

  lemma InstructionExactly(i: Instruction, now: int)
    ensures InstructionAccepted(i, now) <==> R.InstructionLaw(i, now)
  {
    hide NormalizeFieldElement;
  }

  /**
   A lawful instruction under a new key and identifier is recorded; under a key already in
   use it is answered with the transfer recorded there exactly when it asks for that very
   transfer again on the same terms; nothing else is accepted, and nothing else is written.
   */
  lemma PrepareIff(w: World, s: State, x: string, key: string, product: string, i: Instruction, origin: string)
    ensures var (t, reply) := Prepare(w, s, x, key, product, i, origin);
      && (reply == Done <==> MayPrepare(w, s, product, i) && key !in s.keys && x !in s.transfers)
      && (reply.Existing? <==>
        && MayPrepare(w, s, product, i) && key in s.keys && s.keys[key] == x && x in s.transfers
        && s.transfers[x].product == product && s.transfers[x].origin == origin && SameTerms(s.transfers[x].instruction, i))
      && (reply.Existing? ==> reply.transaction == x)
      && t == (if reply == Done then s.(transfers := t.transfers, keys := s.keys[key := x]) else s)
      && (reply == Done ==> t.transfers == s.transfers[x := Transfer(product, key, origin, i, PROOF_PENDING, None, None)])
  {
    StandsExactly(w, s, product);
    InstructionExactly(i, w.now);
    hide InstructionAccepted, ActiveContext, R.InstructionLaw, R.Stands;
  }

  // ----- authorize -----

  lemma NamesExactly(w: World, s: State, product: string, i: Inputs)
    requires ContextsGood(s)
    ensures var a := ActiveContext(s.contexts, product, w.circuit, |s.contexts|);
      (exists n: nat :: R.Names(w, s, product, i, n)) <==>
        a.Some? && w.circuitActive(w.circuit) && s.contexts[a.value].contextId == i.contextId && s.contexts[a.value].assetType == i.assetType
  {
    hide ActiveContext, Registered;
    var a := ActiveContext(s.contexts, product, w.circuit, |s.contexts|);
    if n: nat :| R.Names(w, s, product, i, n) {
      assert PinnedContext(s.contexts, n, product, w.circuit);
      assert n == a.value;
    }
    if a.Some? && w.circuitActive(w.circuit) && s.contexts[a.value].contextId == i.contextId && s.contexts[a.value].assetType == i.assetType {
      assert R.Names(w, s, product, i, a.value);
    }
  }

  lemma RootExactly(s: State, i: Inputs, now: int)
    ensures RootAccepted(s.roots, i.contextId, i.merkleRoot, now) <==> exists r: nat :: R.RootGood(s, r, i, now)
  {
    if RootAccepted(s.roots, i.contextId, i.merkleRoot, now) {
      var r :| 0 <= r < |s.roots| && s.roots[r].contextId == i.contextId && s.roots[r].root == i.merkleRoot
        && s.roots[r].status != REVOKED && !(s.roots[r].expiresAt.Some? && s.roots[r].expiresAt.value <= now);
      assert R.RootGood(s, r, i, now);
    }
  }

  /** In reachable states an authorization is written exactly when the law allows it. */
  lemma AuthorizeIff(w: World, s: State, x: string, i: Inputs, actor: Option<string>)
    requires ContextsGood(s)
    ensures var (t, reply) := Authorize(w, s, x, i, actor);
      && (reply == Done <==>
        && x in s.transfers
        && R.Authorizes(s, Event(w, DoAuthorize(x, i, actor)), x, s.transfers[x], s.transfers[x].(authorization := Some(Authorization(i, false)))))
      && t == (if reply == Done then s.(transfers := s.transfers[x := s.transfers[x].(authorization := Some(Authorization(i, false)))]) else s)
  {
    if x in s.transfers {
      NamesExactly(w, s, s.transfers[x].product, i);
      RootExactly(s, i, w.now);
    }
    hide ContextsGood, ActiveContext, R.Names, R.RootGood, RootAccepted, NormalizeFieldElement;
  }

  // ----- the first phase -----

  /** A check begins exactly for an authorized transfer, not yet accepted, of an active product, by someone who may, while a slot is free. */
  lemma BeginIff(c: Config, w: World, s: State, x: string, actor: Option<string>)
    ensures var (t, reply) := BeginAccept(c, w, s, x, actor);
      && (reply == Done <==>
        && x in s.transfers && s.transfers[x].authorization.Some?
        && R.Begins(c, s, Event(w, DoBeginAccept(x, actor)), Check(x, s.transfers[x].authorization.value.inputs, ConfidentialRail.Running)))
      && t == (if reply == Done
        then s.(checks := s.checks + [Check(x, s.transfers[x].authorization.value.inputs, ConfidentialRail.Running)], active := s.active + 1) else s)
  {
  }

  // ----- contexts -----

  lemma AvailableExactly(w: World, s: State, q: ContextProposal)
    ensures ContextAvailable(w, s, q.product, q.circuit, q.contextId).None? <==> G.Available(w, s, q)
  {
    if ContextAvailable(w, s, q.product, q.circuit, q.contextId).None? {
      G.AvailableIff(w, s, q);
    }
  }

  /** A context is proposed exactly when the product may have it and has no other proposal waiting. */
  lemma ContextProposalIff(w: World, s: State, product: string, contextId: string, assetType: string, maker: string)
    ensures var (t, reply) := ProposeContext(w, s, product, contextId, assetType, maker);
      var q := ContextProposal(product, w.circuit, contextId, assetType, maker, None, Pending);
      && (reply == Done <==> G.Proposes(s, Event(w, DoProposeContext(product, contextId, assetType, maker)), q))
      && t == (if reply == Done then s.(proposals := s.proposals + [q]) else s)
  {
    AvailableExactly(w, s, ContextProposal(product, w.circuit, contextId, assetType, maker, None, Pending));
    hide ContextAvailable, G.Available, NormalizeFieldElement;
  }

  /** No context was ever made for this product and circuit version. */
  predicate Unversioned(s: State, q: ContextProposal) {
    forall n :: 0 <= n < |s.contexts| && s.contexts[n].product == q.product ==> s.contexts[n].circuit != q.circuit
  }

  /**
   A pending proposal is decided exactly by someone else: refused at their word, approved
   while it is still available and its version unused, and then the context stands with
   the empty tree as its CURRENT root. A decision that fails leaves it pending.
   */
  lemma ContextDecisionIff(c: Config, w: World, s: State, p: nat, checker: string, approve: bool)
    ensures var (t, reply) := DecideContext(c, w, s, p, checker, approve);
      && (reply == Done <==>
        && p < |s.proposals| && s.proposals[p].decision == Pending && s.proposals[p].maker != checker
        && (approve ==> G.Available(w, s, s.proposals[p]) && Unversioned(s, s.proposals[p])))
      && (reply != Done ==> t == s)
      && (reply == Done ==>
        var q := s.proposals[p];
        && t.proposals == s.proposals[p := q.(checker := Some(checker), decision := if approve then Approved else Refused)]
        && t.transfers == s.transfers && t.finalizations == s.finalizations && t.attestations == s.attestations
        && t.contexts == (if approve then s.contexts + [ContextRow(q.product, q.circuit, q.contextId, q.assetType, false)] else s.contexts)
        && (if approve then EmptyRootAdded(c, s, t, q.contextId) else t.roots == s.roots))
  {
    if p < |s.proposals| {
      AvailableExactly(w, s, s.proposals[p]);
    }
    hide ContextAvailable, G.Available, StateOf;
  }

  /** One root more: the empty tree's, CURRENT, at size zero. */
  predicate EmptyRootAdded(c: Config, s: State, t: State, contextId: string) {
    t.roots == s.roots + [RootRow(contextId, StateOf(c.node, []).root, 0, StateOf(c.node, []).frontier, CURRENT, None)]
  }
}
