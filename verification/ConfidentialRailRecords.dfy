/**
 What the tables of the confidential rail go back to: every row to the calls that wrote
 it, under the law of the moment, told without the functions that write them.
 */
module ConfidentialRailRecords {
  import opened Common
  import opened FieldEncoding
  import opened NoteTree
  import opened ConfidentialRail
  import opened ConfidentialRailSafety

  // ----- transfers -----

  /** The system itself, or the institution the transfer came from. */
  predicate MayDo(actor: Option<string>, origin: string) {
    actor == None || (actor == Some(origin) && origin != "")
  }

  /** Context n stands for the product under the circuit this runtime has pinned, which is active. */
  predicate Stands(w: World, s: State, product: string, n: nat) {
    && n < |s.contexts| && s.contexts[n].product == product && !s.contexts[n].retired && s.contexts[n].circuit == w.circuit && w.circuitActive(w.circuit)
  }

  /** A record of the root that is not revoked and within its grace. */
  predicate RootGood(s: State, r: nat, i: Inputs, now: int) {
    && r < |s.roots| && s.roots[r].contextId == i.contextId && s.roots[r].root == i.merkleRoot && s.roots[r].status != REVOKED
    && (s.roots[r].expiresAt.Some? ==> now < s.roots[r].expiresAt.value)
  }

  const DAY_MS: int := 24 * 60 * 60 * 1000

  /** An instruction due within a day, in field texts, with a 64-bit fee and a real recipient. */
  predicate InstructionLaw(i: Instruction, now: int) {
    && now < i.expiresAt <= now + DAY_MS
    && NormalizeFieldElement(i.fee).Ok? && NormalizeFieldElement(i.fee).value < 18_446_744_073_709_551_616
    && NormalizeFieldElement(i.recipient).Ok? && i.recipient != "0" && NormalizeFieldElement(i.relayer).Ok?
  }

  /** A new transfer, prepared by this call. */
  ghost predicate Prepares(s: State, e: Event, x: string, after: Transfer) {
    && e.action == DoPrepare(x, after.key, after.product, after.instruction, after.origin)
    && after == Transfer(after.product, after.key, after.origin, after.instruction, PROOF_PENDING, None, None)
    && x !in s.transfers && after.key !in s.keys && InstructionLaw(after.instruction, e.world.now)
    && e.world.productActive(after.product) && e.world.owned(after.product) && e.world.ineligible(after.product, after.instruction) == None
    && exists n: nat :: Stands(e.world, s, after.product, n)
  }

  /** The context whose identifier and asset type the inputs carry. */
  predicate Names(w: World, s: State, product: string, i: Inputs, n: nat) {
    Stands(w, s, product, n) && s.contexts[n].contextId == i.contextId && s.contexts[n].assetType == i.assetType
  }

  /** A prepared transfer gets its inputs, by someone who may and on its own terms. */
  ghost predicate Authorizes(s: State, e: Event, x: string, before: Transfer, after: Transfer) {
    && e.action.DoAuthorize? && e.action.transaction == x && MayDo(e.action.actor, before.origin)
    && before.phase == PROOF_PENDING && before.authorization == None
    && after == before.(authorization := Some(Authorization(e.action.inputs, false)))
    && var i, w := e.action.inputs, e.world;
      && AllCanonical(i.Signals()) && i.nullifier0 != i.nullifier1
      && i.fee == before.instruction.fee && i.recipient == before.instruction.recipient && i.relayer == before.instruction.relayer
      && w.productActive(before.product) && w.owned(before.product) && w.now < before.instruction.expiresAt
      && w.ineligible(before.product, before.instruction) == None
      && (exists n: nat :: Names(w, s, before.product, i, n)) && exists r: nat :: RootGood(s, r, i, w.now)
  }

  /** A passed check of this transfer turns into its receipt. */
  predicate Accepts(s: State, e: Event, x: string, before: Transfer, after: Transfer) {
    && e.action.DoCompleteAccept? && e.action.check < |s.checks| && before.receipt == None && before.authorization.Some?
    && var k, i := s.checks[e.action.check], s.checks[e.action.check].inputs;
      && k.transaction == x && k.stage.Passed?
      && after == before.(phase := ROOT_PENDING, authorization := Some(before.authorization.value.(verified := true)),
           receipt := Some(Receipt(e.action.receiptId, i.contextId, i.merkleRoot, k.stage.signals, [(i.x0, i.y0), (i.x1, i.y1)])))
  }

  /** An accepted transfer is settled by the call that publishes its root. */
  predicate Finalizes(s: State, e: Event, x: string, before: Transfer, after: Transfer) {
    && e.action.DoFinalize? && e.action.transaction == x && before.phase == ROOT_PENDING && before.receipt.Some? && after == before.(phase := SETTLED)
    && e.world.productActive(before.product)
  }

  ghost predicate TransferStep(s: State, e: Event, t: State, x: string)
    requires x in t.transfers
  {
    if x !in s.transfers then Prepares(s, e, x, t.transfers[x])
    else
      var before, after := s.transfers[x], t.transfers[x];
      after == before || Authorizes(s, e, x, before, after) || Accepts(s, e, x, before, after) || Finalizes(s, e, x, before, after)
  }

  lemma PrepareRows(c: Config, e: Event, s: State, x: string)
    requires e.action.DoPrepare? && x in Step(c, s, e).0.transfers
    ensures TransferStep(s, e, Step(c, s, e).0, x)
  {
    hide NormalizeFieldElement, ActiveContext;
    var p := ActiveContext(s.contexts, e.action.product, e.world.circuit, |s.contexts|);
    if p.Some? && e.world.circuitActive(e.world.circuit) {
      assert Stands(e.world, s, e.action.product, p.value);
    }
  }

  lemma AuthorizeLaw(w: World, s: State, t: Transfer, inputs: Inputs, actor: Option<string>)
    requires AuthorizeError(w, s, t, inputs, actor).None?
    ensures MayDo(actor, t.origin) && t.phase == PROOF_PENDING && t.authorization == None
    ensures inputs.fee == t.instruction.fee && inputs.recipient == t.instruction.recipient && inputs.relayer == t.instruction.relayer
    ensures w.productActive(t.product) && w.owned(t.product) && w.now < t.instruction.expiresAt && w.ineligible(t.product, t.instruction) == None
    ensures (exists n: nat :: Names(w, s, t.product, inputs, n)) && exists r: nat :: RootGood(s, r, inputs, w.now)
  {
    hide ActiveContext;
    var n := ActiveContext(s.contexts, t.product, w.circuit, |s.contexts|).value;
    assert Names(w, s, t.product, inputs, n);
    var r :| 0 <= r < |s.roots| && s.roots[r].contextId == inputs.contextId && s.roots[r].root == inputs.merkleRoot
      && s.roots[r].status != REVOKED && !(s.roots[r].expiresAt.Some? && s.roots[r].expiresAt.value <= w.now);
    assert RootGood(s, r, inputs, w.now);
  }

  lemma AuthorizeRows(c: Config, e: Event, s: State, x: string)
    requires e.action.DoAuthorize? && x in Step(c, s, e).0.transfers
    ensures TransferStep(s, e, Step(c, s, e).0, x)
  {
    hide AuthorizeError, MayDo, NormalizeFieldElement, RootGood, Names;
    var y := e.action.transaction;
    if y in s.transfers && AuthorizeError(e.world, s, s.transfers[y], e.action.inputs, e.action.actor).None? {
      AuthorizeLaw(e.world, s, s.transfers[y], e.action.inputs, e.action.actor);
    }
  }

  lemma CompleteRows(c: Config, e: Event, s: State, x: string)
    requires e.action.DoCompleteAccept? && x in Step(c, s, e).0.transfers
    ensures TransferStep(s, e, Step(c, s, e).0, x)
  {
    hide CompleteError, Spend, Record;
    var (t, reply) := CompleteAccept(e.world, s, e.action.check, e.action.receiptId);
    if reply == Done {
      var check := s.checks[e.action.check];
      CompleteFacts(e.world, s, check.transaction, check.inputs, e.action.receiptId);
      CompleteAuthorized(e.world, s, check.transaction, check.inputs, e.action.receiptId);
    }
  }

  lemma CompleteAuthorized(w: World, s: State, x: string, i: Inputs, receiptId: string)
    requires CompleteError(w, s, x, i, receiptId).None?
    ensures x in s.transfers && s.transfers[x].authorization.Some?
  {
    hide RootAccepted, ContextCurrent;
  }

  lemma FinalizeRows(c: Config, e: Event, s: State, x: string)
    requires e.action.DoFinalize? && x in Step(c, s, e).0.transfers
    ensures TransferStep(s, e, Step(c, s, e).0, x)
  {
    FinalizeCases(c, e.world, s, e.action.transaction, e.action.checker);
    FinalizeActive(c, e.world, s, e.action.transaction, e.action.checker);
    hide Finalize, VerifiedExtension, LiveProposal;
  }

  lemma FinalizeActive(c: Config, w: World, s: State, x: string, checker: string)
    ensures Finalize(c, w, s, x, checker).0.transfers != s.transfers ==> x in s.transfers && w.productActive(s.transfers[x].product)
  {
    hide VerifiedExtension, RootKnown, LiveProposal;
  }

  /** Every way a transfer comes to be and moves. */
  lemma TransfersMove(c: Config, s: State, e: Event, x: string)
    requires x in Step(c, s, e).0.transfers
    ensures TransferStep(s, e, Step(c, s, e).0, x)
  {
    hide Prepares, Authorizes, Accepts, Finalizes, Prepare, Authorize, CompleteAccept, Finalize;
    hide DecideContext, ProposeFinalization, CancelFinalization, ContextAvailable;
    var w := e.world;
    match e.action
    case DoPrepare(_, _, _, _, _) => PrepareRows(c, e, s, x);
    case DoAuthorize(_, _, _) => AuthorizeRows(c, e, s, x);
    case DoCompleteAccept(_, _) => CompleteRows(c, e, s, x);
    case DoFinalize(_, _) => FinalizeRows(c, e, s, x);
    case DoProposeFinalization(y, root, size, maker) => ProposalsUntouched(c, w, s, y, root, size, maker);
    case DoCancelFinalization(y) => ProposalsUntouched(c, w, s, y, "", 0, "");
    case DoDecideContext(p, checker, approve) => ContextsUntouched(c, w, s, p, checker, approve);
    case _ =>
  }

  /** The call at position i prepared the transfer, with the terms it has at the end. */
  ghost predicate PreparedAt(c: Config, events: seq<Event>, i: nat, x: string, t: Transfer) {
    && i < |events| && events[i].action == DoPrepare(x, t.key, t.product, t.instruction, t.origin)
    && Prepares(Run(c, events[..i]), events[i], x, Transfer(t.product, t.key, t.origin, t.instruction, PROOF_PENDING, None, None))
  }

  /** The call at position i gave the transfer the inputs it has at the end. */
  ghost predicate AuthorizedAt(c: Config, events: seq<Event>, i: nat, x: string, inputs: Inputs) {
    && i < |events| && events[i].action.DoAuthorize? && events[i].action.inputs == inputs && x in Run(c, events[..i]).transfers
    && var before := Run(c, events[..i]).transfers[x];
      Authorizes(Run(c, events[..i]), events[i], x, before, before.(authorization := Some(Authorization(inputs, false))))
  }

  /** In every run each transfer was prepared by one call, lawful at its clock, and has kept that call's terms. */
  lemma {:induction false} PreparedLawfully(c: Config, events: seq<Event>, x: string)
    requires x in Run(c, events).transfers
    ensures exists i: nat :: PreparedAt(c, events, i, x, Run(c, events).transfers[x])
  {
    hide Step, Prepares;
    var m := |events| - 1;
    var front := events[..m];
    TransfersMove(c, Run(c, front), events[m], x);
    if x in Run(c, front).transfers {
      PreparedLawfully(c, front, x);
      var i: nat :| PreparedAt(c, front, i, x, Run(c, front).transfers[x]);
      assert front[..i] == events[..i];
      assert PreparedAt(c, events, i, x, Run(c, events).transfers[x]);
    } else {
      NewlyPrepared(Run(c, front), events[m], x, Run(c, events).transfers[x]);
      assert PreparedAt(c, events, m, x, Run(c, events).transfers[x]);
    }
  }

  lemma NewlyPrepared(s: State, e: Event, x: string, t: Transfer)
    requires Prepares(s, e, x, t)
    ensures e.action == DoPrepare(x, t.key, t.product, t.instruction, t.origin) && t == Transfer(t.product, t.key, t.origin, t.instruction, PROOF_PENDING, None, None)
  {
    hide InstructionLaw, Stands;
  }

  /**
   In every run each authorization was made by one call of the system or the originating
   institution, on the prepared terms, for a standing context of the product and a root
   then accepted.
   */
  lemma {:induction false} AuthorizedLawfully(c: Config, events: seq<Event>, x: string)
    requires x in Run(c, events).transfers && Run(c, events).transfers[x].authorization.Some?
    ensures exists i: nat :: AuthorizedAt(c, events, i, x, Run(c, events).transfers[x].authorization.value.inputs)
  {
    hide Step, Prepares, Authorizes, Finalizes;
    var m := |events| - 1;
    var front := events[..m];
    var s, t := Run(c, front), Run(c, events);
    TransfersMove(c, s, events[m], x);
    if x !in s.transfers {
      NewlyPrepared(s, events[m], x, t.transfers[x]);
    } else if Authorizes(s, events[m], x, s.transfers[x], t.transfers[x]) {
      NewlyAuthorized(s, events[m], x, s.transfers[x], t.transfers[x]);
      assert AuthorizedAt(c, events, m, x, t.transfers[x].authorization.value.inputs);
    } else {
      KeptInputs(s, events[m], x, s.transfers[x], t.transfers[x]);
      AuthorizedLawfully(c, front, x);
      var i: nat :| AuthorizedAt(c, front, i, x, s.transfers[x].authorization.value.inputs);
      assert front[..i] == events[..i];
      assert AuthorizedAt(c, events, i, x, t.transfers[x].authorization.value.inputs);
    }
  }

  lemma NewlyAuthorized(s: State, e: Event, x: string, before: Transfer, after: Transfer)
    requires Authorizes(s, e, x, before, after)
    ensures e.action.DoAuthorize? && after == before.(authorization := Some(Authorization(e.action.inputs, false)))
  {
    hide Names, RootGood, MayDo;
  }

  lemma KeptInputs(s: State, e: Event, x: string, before: Transfer, after: Transfer)
    requires after == before || Accepts(s, e, x, before, after) || Finalizes(s, e, x, before, after)
    ensures after.authorization.Some? ==> before.authorization.Some? && before.authorization.value.inputs == after.authorization.value.inputs
  {
  }

  // ----- checks -----

  /** A check starts for an authorized transfer in a free slot, by someone who may. */
  predicate Begins(c: Config, s: State, e: Event, k: Check) {
    && e.action.DoBeginAccept? && e.action.transaction in s.transfers && s.active < c.maxChecks
    && var x, t := e.action.transaction, s.transfers[e.action.transaction];
      && t.authorization.Some? && !t.authorization.value.verified && t.phase == PROOF_PENDING && MayDo(e.action.actor, t.origin)
      && e.world.productActive(t.product) && k == Check(x, t.authorization.value.inputs, ConfidentialRail.Running)
  }

  /** A running check ends: passed with exactly the signals it was started for and a proof that holds, over with anything else. */
  predicate Ends(e: Event, k: nat, before: Check, after: Check) {
    && e.action.DoEndCheck? && e.action.check == k && before.stage == ConfidentialRail.Running
    && after == Check(before.transaction, before.inputs,
         if e.action.proofHolds && e.action.signals == before.inputs.Signals() then Passed(e.action.signals) else Over)
  }

  /** A passed check is used up by its second phase. */
  predicate Completes(e: Event, k: nat, before: Check, after: Check) {
    e.action.DoCompleteAccept? && e.action.check == k && before.stage.Passed? && after == Check(before.transaction, before.inputs, Over)
  }

  predicate CheckStep(c: Config, s: State, e: Event, t: State, k: nat)
    requires k < |t.checks|
  {
    if k >= |s.checks| then k == |s.checks| && Begins(c, s, e, t.checks[k])
    else t.checks[k] == s.checks[k] || Ends(e, k, s.checks[k], t.checks[k]) || Completes(e, k, s.checks[k], t.checks[k])
  }

  /** Every way a check comes to be and moves. */
  lemma ChecksMove(c: Config, s: State, e: Event, k: nat)
    requires k < |Step(c, s, e).0.checks|
    ensures |s.checks| <= |Step(c, s, e).0.checks| && CheckStep(c, s, e, Step(c, s, e).0, k)
  {
    hide Prepare, Authorize, Finalize, DecideContext, ProposeFinalization, CancelFinalization, ContextAvailable, CompleteError, Received, Spend, Record;
    hide NormalizeFieldElement;
    var w := e.world;
    match e.action
    case DoPrepare(x, key, product, i, origin) => PrepareChecks(w, s, x, key, product, i, origin);
    case DoAuthorize(x, inputs, actor) => AuthorizeChecks(w, s, x, inputs, actor);
    case DoFinalize(x, checker) => FinalizeChecks(c, w, s, x, checker);
    case DoProposeFinalization(y, root, size, maker) => ProposalsUntouched(c, w, s, y, root, size, maker);
    case DoCancelFinalization(y) => ProposalsUntouched(c, w, s, y, "", 0, "");
    case DoDecideContext(p, checker, approve) => ContextsUntouched(c, w, s, p, checker, approve);
    case _ =>
  }

  lemma PrepareChecks(w: World, s: State, x: string, key: string, product: string, i: Instruction, origin: string)
    ensures Prepare(w, s, x, key, product, i, origin).0.checks == s.checks
  {
    hide InstructionAccepted, ActiveContext;
  }

  lemma AuthorizeChecks(w: World, s: State, x: string, inputs: Inputs, actor: Option<string>)
    ensures Authorize(w, s, x, inputs, actor).0.checks == s.checks
  {
    hide AuthorizeError;
  }

  lemma FinalizeChecks(c: Config, w: World, s: State, x: string, checker: string)
    ensures Finalize(c, w, s, x, checker).0.checks == s.checks
  {
    FinalizeCases(c, w, s, x, checker);
    hide Finalize, VerifiedExtension, LiveProposal;
  }

  /** The call at position h started check k for the transfer. */
  ghost predicate BegunAt(c: Config, events: seq<Event>, h: nat, k: nat, x: string, inputs: Inputs) {
    && h < |events| && events[h].action.DoBeginAccept? && events[h].action.transaction == x
    && k == |Run(c, events[..h]).checks| && Begins(c, Run(c, events[..h]), events[h], Check(x, inputs, ConfidentialRail.Running))
  }

  /** At position i the verifier found that the proof holds for exactly these signals, while check k of the transfer was running. */
  ghost predicate HeldAt(c: Config, events: seq<Event>, i: nat, k: nat, x: string, signals: seq<string>) {
    && i < |events| && events[i].action == DoEndCheck(k, signals, true) && k < |Run(c, events[..i]).checks|
    && Run(c, events[..i]).checks[k].transaction == x && Run(c, events[..i]).checks[k].stage == ConfidentialRail.Running
  }

  /** The second phase at position j of check k wrote the receipt. */
  ghost predicate WrittenAt(c: Config, events: seq<Event>, j: nat, k: nat, x: string, r: Receipt) {
    && j < |events| && events[j].action == DoCompleteAccept(k, r.id)
    && x in Run(c, events[..j]).transfers && Run(c, events[..j]).transfers[x].receipt == None
    && x in Run(c, events[..j + 1]).transfers && Run(c, events[..j + 1]).transfers[x].receipt == Some(r)
    && k < |Run(c, events[..j]).checks| && Run(c, events[..j]).checks[k].transaction == x
    && Run(c, events[..j]).checks[k].stage == Passed(r.signals)
  }

  lemma {:induction false} CheckBegun(c: Config, events: seq<Event>, k: nat)
    requires k < |Run(c, events).checks|
    ensures exists h: nat :: BegunAt(c, events, h, k, Run(c, events).checks[k].transaction, Run(c, events).checks[k].inputs)
  {
    hide Step, Begins;
    var m := |events| - 1;
    var front := events[..m];
    var s, t := Run(c, front), Run(c, events);
    ChecksMove(c, s, events[m], k);
    if k < |s.checks| {
      CheckBegun(c, front, k);
      var h: nat :| BegunAt(c, front, h, k, s.checks[k].transaction, s.checks[k].inputs);
      assert front[..h] == events[..h];
      assert BegunAt(c, events, h, k, t.checks[k].transaction, t.checks[k].inputs);
    } else {
      NewlyBegun(c, s, events[m], t.checks[k]);
      assert BegunAt(c, events, m, k, t.checks[k].transaction, t.checks[k].inputs);
    }
  }

  lemma NewlyBegun(c: Config, s: State, e: Event, k: Check)
    requires Begins(c, s, e, k)
    ensures e.action.DoBeginAccept? && e.action.transaction == k.transaction && k == Check(k.transaction, k.inputs, ConfidentialRail.Running)
  {
  }

  lemma {:induction false} CheckHeld(c: Config, events: seq<Event>, k: nat)
    requires k < |Run(c, events).checks| && Run(c, events).checks[k].stage.Passed?
    ensures exists i: nat :: HeldAt(c, events, i, k, Run(c, events).checks[k].transaction, Run(c, events).checks[k].stage.signals)
  {
    hide Step, Begins;
    var m := |events| - 1;
    var front := events[..m];
    var s, t := Run(c, front), Run(c, events);
    ChecksMove(c, s, events[m], k);
    if k >= |s.checks| {
      NewlyBegun(c, s, events[m], t.checks[k]);
    } else if t.checks[k] == s.checks[k] {
      CheckHeld(c, front, k);
      var i: nat :| HeldAt(c, front, i, k, s.checks[k].transaction, s.checks[k].stage.signals);
      assert front[..i] == events[..i];
      assert HeldAt(c, events, i, k, t.checks[k].transaction, t.checks[k].stage.signals);
    } else {
      assert HeldAt(c, events, m, k, t.checks[k].transaction, t.checks[k].stage.signals);
    }
  }

  lemma {:induction false} ReceiptWritten(c: Config, events: seq<Event>, x: string)
    requires x in Run(c, events).transfers && Run(c, events).transfers[x].receipt.Some?
    ensures exists j: nat, k: nat :: WrittenAt(c, events, j, k, x, Run(c, events).transfers[x].receipt.value)
  {
    hide Step, Prepares, Authorizes, Finalizes, Accepts;
    var m := |events| - 1;
    var front := events[..m];
    var s, t := Run(c, front), Run(c, events);
    TransfersMove(c, s, events[m], x);
    assert events[..m + 1] == events;
    if x !in s.transfers {
      NewlyPrepared(s, events[m], x, t.transfers[x]);
    } else if Accepts(s, events[m], x, s.transfers[x], t.transfers[x]) {
      NewlyAccepted(s, events[m], x, s.transfers[x], t.transfers[x]);
      assert WrittenAt(c, events, m, events[m].action.check, x, t.transfers[x].receipt.value);
    } else {
      KeptReceipt(s, events[m], x, s.transfers[x], t.transfers[x]);
      ReceiptWritten(c, front, x);
      var j: nat, k: nat :| WrittenAt(c, front, j, k, x, s.transfers[x].receipt.value);
      assert front[..j] == events[..j] && front[..j + 1] == events[..j + 1];
      assert WrittenAt(c, events, j, k, x, t.transfers[x].receipt.value);
    }
  }

  lemma NewlyAccepted(s: State, e: Event, x: string, before: Transfer, after: Transfer)
    requires Accepts(s, e, x, before, after)
    ensures before.receipt == None && after.receipt.Some? && e.action == DoCompleteAccept(e.action.check, after.receipt.value.id)
    ensures e.action.check < |s.checks| && s.checks[e.action.check].transaction == x && s.checks[e.action.check].stage == Passed(after.receipt.value.signals)
  {
  }

  lemma KeptReceipt(s: State, e: Event, x: string, before: Transfer, after: Transfer)
    requires after == before || Authorizes(s, e, x, before, after) || Finalizes(s, e, x, before, after)
    ensures after.receipt == before.receipt
  {
    hide Names, RootGood, MayDo;
  }

  /** Check k was started at h, found to hold at i, and turned into the receipt at j. */
  ghost predicate Accepted(c: Config, events: seq<Event>, h: nat, i: nat, j: nat, k: nat, x: string, t: Transfer) {
    && h < i < j && t.receipt.Some? && t.authorization.Some?
    && BegunAt(c, events, h, k, x, t.authorization.value.inputs) && HeldAt(c, events, i, k, x, t.receipt.value.signals)
    && WrittenAt(c, events, j, k, x, t.receipt.value)
  }

  /**
   In every run each receipt goes back to three calls in this order: a check of that
   transfer begun by someone who may, the verifier's finding that the proof holds for
   exactly the signals on the receipt, and the second phase that wrote it. Nothing is
   ever accepted for a proof that did not hold.
   */
  lemma AcceptedProofHeld(c: Config, events: seq<Event>, x: string)
    requires x in Run(c, events).transfers && Run(c, events).transfers[x].receipt.Some?
    ensures exists h: nat, i: nat, j: nat, k: nat :: Accepted(c, events, h, i, j, k, x, Run(c, events).transfers[x])
  {
    hide Run;
    var t := Run(c, events).transfers[x];
    ReceiptWritten(c, events, x);
    var j: nat, k: nat :| WrittenAt(c, events, j, k, x, t.receipt.value);
    var i := HeldBefore(c, events, j, k, x, t.receipt.value);
    var h := BegunBefore(c, events, i, k, x, t.receipt.value.signals);
    CheckedInputs(c, events, h, i, j, k, x);
    assert Accepted(c, events, h, i, j, k, x, t);
  }

  lemma HeldBefore(c: Config, events: seq<Event>, j: nat, k: nat, x: string, r: Receipt) returns (i: nat)
    requires WrittenAt(c, events, j, k, x, r)
    ensures i < j && HeldAt(c, events, i, k, x, r.signals)
  {
    hide Run;
    CheckHeld(c, events[..j], k);
    i :| HeldAt(c, events[..j], i, k, x, r.signals);
    assert events[..j][..i] == events[..i];
  }

  lemma BegunBefore(c: Config, events: seq<Event>, i: nat, k: nat, x: string, signals: seq<string>) returns (h: nat)
    requires HeldAt(c, events, i, k, x, signals)
    ensures h < i && BegunAt(c, events, h, k, x, Run(c, events[..i]).checks[k].inputs)
  {
    hide Run, Begins;
    CheckBegun(c, events[..i], k);
    h :| BegunAt(c, events[..i], h, k, x, Run(c, events[..i]).checks[k].inputs);
    assert events[..i][..h] == events[..h];
  }

  /** The check's inputs are the transfer's authorized ones, then and at the end. */
  lemma CheckedInputs(c: Config, events: seq<Event>, h: nat, i: nat, j: nat, k: nat, x: string)
    requires i <= |events| && k < |Run(c, events[..i]).checks| && Run(c, events[..i]).checks[k].transaction == x && x in Run(c, events).transfers
    ensures Run(c, events).transfers[x].authorization.Some?
    ensures Run(c, events).transfers[x].authorization.value.inputs == Run(c, events[..i]).checks[k].inputs
  {
    RunSettles(c, events[..i]);
    TermsAreFrozen(c, events, i);
    hide Run, TransfersGood, SpentGood, OutputsGood, ReceiptsDistinct;
    assert Advances(Run(c, events[..i]).transfers[x], Run(c, events).transfers[x]);
  }

  // ----- the end of a check -----

  lemma {:induction false} RunningCounted(checks: seq<Check>, k: nat)
    requires k < |checks| && checks[k].stage == ConfidentialRail.Running
    ensures ConfidentialRailSafety.Running(checks) > 0
  {
    if k < |checks| - 1 {
      RunningCounted(checks[..|checks| - 1], k);
    }
  }

  /**
   In reachable states the end of a running check is answered exactly so: passed for the
   authorized signals and a proof that holds, and otherwise by the first thing wrong, the
   count, a text that is no field element, a difference, or the proof itself. The slot is
   free again either way.
   */
  lemma CheckEndsExactly(c: Config, events: seq<Event>, k: nat, signals: seq<string>, proofHolds: bool)
    requires k < |Run(c, events).checks| && Run(c, events).checks[k].stage == ConfidentialRail.Running
    ensures var s := Run(c, events); var (t, reply) := EndCheck(s, k, signals, proofHolds); var x := s.checks[k].transaction;
      && x in s.transfers && s.transfers[x].authorization.Some?
      && var authorized := s.transfers[x].authorization.value.inputs.Signals();
        && (reply == Done <==> signals == authorized && proofHolds)
        && (reply == Error("INVALID_ZERO_KNOWLEDGE_PROOF") <==> signals == authorized && !proofHolds)
        && (reply == Error("INVALID_PROOF_PACKAGE") <==> |signals| != 13)
        && (reply == Error("INVALID_PUBLIC_SIGNAL") <==> |signals| == 13 && !AllCanonical(signals))
        && (reply == Error("PROOF_CONTEXT_MISMATCH") <==> AllCanonical(signals) && signals != authorized)
        && t == s.(checks := s.checks[k := s.checks[k].(stage := if reply == Done then Passed(signals) else Over)], active := s.active - 1)
  {
    RunSettles(c, events);
    var s := Run(c, events);
    RunningCounted(s.checks, k);
    EndedInputs(c, s, k);
    hide Run, Settlement, NormalizeFieldElement;
  }

  lemma EndedInputs(c: Config, s: State, k: nat)
    requires Settlement(c, s) && k < |s.checks|
    ensures s.active == ConfidentialRailSafety.Running(s.checks) && s.checks[k].transaction in s.transfers
    ensures var t := s.transfers[s.checks[k].transaction];
      t.authorization.Some? && t.authorization.value.inputs == s.checks[k].inputs && AllCanonical(s.checks[k].inputs.Signals())
  {
    hide SpentGood, OutputsGood, ReceiptsDistinct;
    assert TransferGood(s.transfers[s.checks[k].transaction]);
  }
}
