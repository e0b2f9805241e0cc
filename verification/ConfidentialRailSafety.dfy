/** What every run of the confidential rail keeps: no double spend, frozen economics, and one root chain per context. */
module ConfidentialRailSafety {
  import opened Common
  import opened FieldEncoding
  import opened NoteTree
  import opened ConfidentialRail

  // ----- transfers, nullifiers and outputs -----

  predicate Uses(t: Transfer, contextId: string, nullifier: string) {
    t.receipt.Some? && t.authorization.Some? && t.receipt.value.contextId == contextId
    && (t.authorization.value.inputs.nullifier0 == nullifier || t.authorization.value.inputs.nullifier1 == nullifier)
  }

  predicate Creates(t: Transfer, contextId: string, x: string, y: string) {
    t.receipt.Some? && t.receipt.value.contextId == contextId && (x, y) in t.receipt.value.outputs
  }

  /** One transfer's rows agree: authorized on the frozen terms, and its receipt is for exactly those inputs. */
  ghost predicate TransferGood(t: Transfer) {
    && (t.authorization.Some? ==>
      var i := t.authorization.value.inputs;
      && i.Canonical() && i.nullifier0 != i.nullifier1
      && i.fee == t.instruction.fee && i.recipient == t.instruction.recipient && i.relayer == t.instruction.relayer)
    && (t.receipt.Some? <==> t.phase != PROOF_PENDING)
    && (t.receipt.Some? <==> t.authorization.Some? && t.authorization.value.verified)
    && (t.receipt.Some? ==>
      var i, r := t.authorization.value.inputs, t.receipt.value;
      && r.signals == i.Signals() && r.contextId == i.contextId && r.merkleRoot == i.merkleRoot
      && r.outputs == [(i.x0, i.y0), (i.x1, i.y1)])
  }

  ghost predicate TransfersGood(s: State) {
    forall x :: x in s.transfers ==> TransferGood(s.transfers[x])
  }

  /** The nullifier table holds exactly the nullifiers of accepted proofs, each under the transfer that spent it. */
  ghost predicate SpentGood(s: State) {
    && (forall p :: p in s.spent ==> s.spent[p] in s.transfers && Uses(s.transfers[s.spent[p]], p.0, p.1))
    && (forall x, c, n :: x in s.transfers && Uses(s.transfers[x], c, n) ==> (c, n) in s.spent && s.spent[(c, n)] == x)
  }

  ghost predicate OutputsGood(s: State) {
    && (forall p :: p in s.outputs ==> s.outputs[p] in s.transfers && Creates(s.transfers[s.outputs[p]], p.0, p.1, p.2))
    && (forall x, c, a, b :: x in s.transfers && Creates(s.transfers[x], c, a, b) ==> (c, a, b) in s.outputs && s.outputs[(c, a, b)] == x)
  }

  predicate SameReceipt(t: Transfer, u: Transfer) {
    t.receipt.Some? && u.receipt.Some? && t.receipt.value.id == u.receipt.value.id
  }

  ghost predicate ReceiptsDistinct(s: State) {
    forall x, y :: x in s.transfers && y in s.transfers && SameReceipt(s.transfers[x], s.transfers[y]) ==> x == y
  }

  function Running(checks: seq<Check>): nat {
    if checks == [] then 0 else Running(checks[..|checks| - 1]) + if checks[|checks| - 1].stage == ConfidentialRail.Running then 1 else 0
  }

  /** A check's snapshot is its transfer's immutable authorization, and a passed one saw those 13 signals. */
  ghost predicate ChecksGood(s: State) {
    && (forall k :: 0 <= k < |s.checks| ==>
      var check := s.checks[k];
      && check.transaction in s.transfers && s.transfers[check.transaction].authorization.Some?
      && s.transfers[check.transaction].authorization.value.inputs == check.inputs
      && (check.stage.Passed? ==> check.stage.signals == check.inputs.Signals()))
    && s.active == Running(s.checks)
  }

  ghost predicate Settlement(c: Config, s: State) {
    TransfersGood(s) && SpentGood(s) && OutputsGood(s) && ReceiptsDistinct(s) && ChecksGood(s) && s.active <= c.maxChecks
  }

  lemma {:induction false} RunningUpdate(checks: seq<Check>, k: nat, check: Check)
    requires k < |checks|
    ensures Running(checks[k := check]) == Running(checks)
      + (if check.stage == ConfidentialRail.Running then 1 else 0) - (if checks[k].stage == ConfidentialRail.Running then 1 else 0)
  {
    var front := checks[..|checks| - 1];
    if k < |front| {
      RunningUpdate(front, k, check);
      assert checks[k := check][..|checks| - 1] == front[k := check];
    } else {
      assert checks[k := check][..|checks| - 1] == front;
    }
  }

  /** What a step may do to a transfer: nothing to its terms; authorization and receipt are written once. */
  ghost predicate Advances(t: Transfer, u: Transfer) {
    && u.product == t.product && u.key == t.key && u.origin == t.origin && u.instruction == t.instruction
    && (t.authorization.Some? ==> u.authorization.Some? && u.authorization.value.inputs == t.authorization.value.inputs)
    && (t.receipt.Some? ==> u.receipt == t.receipt && u.authorization == t.authorization)
    && (t.phase == SETTLED ==> u.phase == SETTLED) && (t.phase == ROOT_PENDING ==> u.phase != PROOF_PENDING)
  }

  ghost predicate Extends(s: State, t: State) {
    forall x :: x in s.transfers ==> x in t.transfers && Advances(s.transfers[x], t.transfers[x])
  }

  /** Receipts and the inputs behind them are the same in both states. */
  ghost predicate SameAccepted(s: State, t: State) {
    && (forall y :: y in s.transfers && s.transfers[y].receipt.Some? ==>
      && y in t.transfers
      && t.transfers[y].receipt == s.transfers[y].receipt && t.transfers[y].authorization == s.transfers[y].authorization)
    && (forall y :: y in t.transfers && t.transfers[y].receipt.Some? ==> y in s.transfers && s.transfers[y].receipt.Some?)
  }

  lemma SpentSame(s: State, t: State)
    requires SpentGood(s) && SameAccepted(s, t) && t.spent == s.spent
    ensures SpentGood(t)
  {
    forall x, c, n | x in t.transfers && Uses(t.transfers[x], c, n) ensures (c, n) in t.spent && t.spent[(c, n)] == x {
      assert Uses(s.transfers[x], c, n);
    }
  }

  lemma OutputsSame(s: State, t: State)
    requires OutputsGood(s) && SameAccepted(s, t) && t.outputs == s.outputs
    ensures OutputsGood(t)
  {
    forall x, c, a, b | x in t.transfers && Creates(t.transfers[x], c, a, b) ensures (c, a, b) in t.outputs && t.outputs[(c, a, b)] == x {
      assert Creates(s.transfers[x], c, a, b);
    }
  }

  lemma DistinctSame(s: State, t: State)
    requires ReceiptsDistinct(s) && SameAccepted(s, t)
    ensures ReceiptsDistinct(t)
  {
    forall x, y | x in t.transfers && y in t.transfers && SameReceipt(t.transfers[x], t.transfers[y]) ensures x == y {
      assert SameReceipt(s.transfers[x], s.transfers[y]);
    }
  }

  lemma ChecksSame(s: State, t: State)
    requires ChecksGood(s) && t.checks == s.checks && t.active == s.active && Extends(s, t)
    ensures ChecksGood(t)
  {
    hide Running;
  }

  /** Changing one transfer without touching receipts. */
  lemma SameReceipts(c: Config, s: State, t: State, x: string, u: Transfer)
    requires Settlement(c, s) && TransferGood(u)
    requires t.transfers == s.transfers[x := u] && t.spent == s.spent && t.outputs == s.outputs && t.checks == s.checks && t.active == s.active
    requires x in s.transfers ==> Advances(s.transfers[x], u) && u.receipt == s.transfers[x].receipt
    requires x !in s.transfers ==> u.receipt.None?
    ensures Settlement(c, t) && Extends(s, t)
  {
    hide Running, TransferGood, SpentGood, OutputsGood, ReceiptsDistinct, ChecksGood;
    assert SameAccepted(s, t);
    SpentSame(s, t);
    OutputsSame(s, t);
    DistinctSame(s, t);
    hide SameAccepted;
    assert Extends(s, t);
    ChecksSame(s, t);
    hide Extends, Advances;
  }

  lemma PrepareKeeps(c: Config, w: World, s: State, transaction: string, key: string, product: string, i: Instruction, origin: string)
    requires Settlement(c, s)
    ensures Settlement(c, Prepare(w, s, transaction, key, product, i, origin).0) && Extends(s, Prepare(w, s, transaction, key, product, i, origin).0)
  {
    hide Settlement, InstructionAccepted, ActiveContext;
    var (t, reply) := Prepare(w, s, transaction, key, product, i, origin);
    if reply == Done {
      SameReceipts(c, s, t, transaction, t.transfers[transaction]);
    }
  }

  lemma AuthorizeKeeps(c: Config, w: World, s: State, transaction: string, inputs: Inputs, actor: Option<string>)
    requires Settlement(c, s)
    ensures Settlement(c, Authorize(w, s, transaction, inputs, actor).0) && Extends(s, Authorize(w, s, transaction, inputs, actor).0)
  {
    hide RootAccepted, ActiveContext, SpentGood, OutputsGood, ChecksGood, ReceiptsDistinct;
    var (t, reply) := Authorize(w, s, transaction, inputs, actor);
    if reply == Done {
      assert TransferGood(s.transfers[transaction]);
      SameReceipts(c, s, t, transaction, t.transfers[transaction]);
    }
  }

  lemma BeginAcceptKeeps(c: Config, w: World, s: State, transaction: string, actor: Option<string>)
    requires Settlement(c, s)
    ensures Settlement(c, BeginAccept(c, w, s, transaction, actor).0) && Extends(s, BeginAccept(c, w, s, transaction, actor).0)
  {
    hide SpentGood, OutputsGood, ReceiptsDistinct, TransferGood, TransfersGood;
    var (t, reply) := BeginAccept(c, w, s, transaction, actor);
    if reply == Done {
      assert t.checks[..|s.checks|] == s.checks;
      SameTables(s, t);
    } else {
      assert t == s;
      SameTables(s, t);
    }
  }

  lemma EndCheckKeeps(c: Config, s: State, k: nat, signals: seq<string>, proofHolds: bool)
    requires Settlement(c, s)
    ensures Settlement(c, EndCheck(s, k, signals, proofHolds).0) && Extends(s, EndCheck(s, k, signals, proofHolds).0)
  {
    hide SpentGood, OutputsGood, ReceiptsDistinct, TransferGood, TransfersGood, Running;
    var t := EndCheck(s, k, signals, proofHolds).0;
    SameTables(s, t);
    if t != s {
      RunningUpdate(s.checks, k, t.checks[k]);
    }
  }

  lemma SameTables(s: State, t: State)
    requires t.transfers == s.transfers && t.spent == s.spent && t.outputs == s.outputs
    ensures SpentGood(s) ==> SpentGood(t)
    ensures OutputsGood(s) ==> OutputsGood(t)
    ensures ReceiptsDistinct(s) ==> ReceiptsDistinct(t)
    ensures TransfersGood(s) ==> TransfersGood(t)
  {
    hide TransferGood;
  }

  /** The receipt written by a passed check. */
  lemma ReceivedGood(t: Transfer, receiptId: string, i: Inputs, signals: seq<string>)
    requires TransferGood(t) && t.authorization.Some? && t.authorization.value.inputs == i && signals == i.Signals() && t.receipt.None?
    ensures var u := Received(t, receiptId, i, signals);
      && TransferGood(u) && Advances(t, u)
      && (forall c, n :: Uses(u, c, n) <==> c == i.contextId && (n == i.nullifier0 || n == i.nullifier1))
      && (forall c, a, b :: Creates(u, c, a, b) <==> c == i.contextId && ((a, b) == (i.x0, i.y0) || (a, b) == (i.x1, i.y1)))
  {
  }

  lemma SpendKeeps(s: State, t: State, x: string, i: Inputs)
    requires SpentGood(s) && x in s.transfers && s.transfers[x].receipt.None?
    requires t.transfers.Keys == s.transfers.Keys && (forall y :: y in s.transfers && y != x ==> t.transfers[y] == s.transfers[y])
    requires forall c, n :: Uses(t.transfers[x], c, n) <==> c == i.contextId && (n == i.nullifier0 || n == i.nullifier1)
    requires (i.contextId, i.nullifier0) !in s.spent && (i.contextId, i.nullifier1) !in s.spent
    requires t.spent == Spend(s, x, i)
    ensures SpentGood(t)
  {
    forall p | p in t.spent ensures t.spent[p] in t.transfers && Uses(t.transfers[t.spent[p]], p.0, p.1) {
      if p != (i.contextId, i.nullifier0) && p != (i.contextId, i.nullifier1) {
        assert p in s.spent && s.spent[p] != x;
      }
    }
    forall y, c, n | y in t.transfers && Uses(t.transfers[y], c, n) ensures (c, n) in t.spent && t.spent[(c, n)] == y {
      if y != x {
        assert Uses(s.transfers[y], c, n);
      }
    }
  }

  lemma RecordKeeps(s: State, t: State, x: string, i: Inputs)
    requires OutputsGood(s) && x in s.transfers && s.transfers[x].receipt.None?
    requires t.transfers.Keys == s.transfers.Keys && (forall y :: y in s.transfers && y != x ==> t.transfers[y] == s.transfers[y])
    requires forall c, a, b :: Creates(t.transfers[x], c, a, b) <==> c == i.contextId && ((a, b) == (i.x0, i.y0) || (a, b) == (i.x1, i.y1))
    requires (i.contextId, i.x0, i.y0) !in s.outputs && (i.contextId, i.x1, i.y1) !in s.outputs
    requires t.outputs == Record(s, x, i)
    ensures OutputsGood(t)
  {
    forall p | p in t.outputs ensures t.outputs[p] in t.transfers && Creates(t.transfers[t.outputs[p]], p.0, p.1, p.2) {
      if p != (i.contextId, i.x0, i.y0) && p != (i.contextId, i.x1, i.y1) {
        assert p in s.outputs && s.outputs[p] != x;
      }
    }
    forall y, c, a, b | y in t.transfers && Creates(t.transfers[y], c, a, b) ensures (c, a, b) in t.outputs && t.outputs[(c, a, b)] == y {
      if y != x {
        assert Creates(s.transfers[y], c, a, b);
      }
    }
  }

  /** A check that ends without a slot leaves the other checks' accounts alone. */
  lemma CheckOver(s: State, t: State, k: nat)
    requires ChecksGood(s) && k < |s.checks| && s.checks[k].stage.Passed?
    requires t.checks == s.checks[k := s.checks[k].(stage := Over)] && t.active == s.active && Extends(s, t)
    ensures ChecksGood(t)
  {
    RunningUpdate(s.checks, k, t.checks[k]);
    hide Running;
  }

  lemma CompleteAcceptKeeps(c: Config, w: World, s: State, k: nat, receiptId: string)
    requires Settlement(c, s)
    ensures Settlement(c, CompleteAccept(w, s, k, receiptId).0) && Extends(s, CompleteAccept(w, s, k, receiptId).0)
  {
    hide CompleteError, SpentGood, OutputsGood, Received, Spend, Record, TransferGood, Uses, Creates, ReceiptsDistinct;
    var (t, reply) := CompleteAccept(w, s, k, receiptId);
    if k < |s.checks| && s.checks[k].stage.Passed? {
      var check := s.checks[k];
      if reply == Done {
        assert TransferGood(s.transfers[check.transaction]);
        AcceptedKeeps(c, w, s, t, check, receiptId);
      } else {
        SameTables(s, t);
      }
      CheckOver(s, t, k);
    }
  }

  /** What the locked checks of the second phase establish about the tables. */
  lemma CompleteFacts(w: World, s: State, x: string, i: Inputs, receiptId: string)
    requires CompleteError(w, s, x, i, receiptId).None?
    ensures x in s.transfers && s.transfers[x].receipt.None? && s.transfers[x].phase == PROOF_PENDING
    ensures (i.contextId, i.nullifier0) !in s.spent && (i.contextId, i.nullifier1) !in s.spent
    ensures (i.contextId, i.x0, i.y0) !in s.outputs && (i.contextId, i.x1, i.y1) !in s.outputs
    ensures forall y :: y in s.transfers && s.transfers[y].receipt.Some? ==> s.transfers[y].receipt.value.id != receiptId
    ensures exists j :: 0 <= j < |s.contexts| && s.contexts[j].contextId == i.contextId
  {
    hide RootAccepted;
  }

  lemma AcceptedKeeps(c: Config, w: World, s: State, t: State, check: Check, receiptId: string)
    requires TransfersGood(s) && SpentGood(s) && OutputsGood(s) && ReceiptsDistinct(s) && check.transaction in s.transfers
    requires CompleteError(w, s, check.transaction, check.inputs, receiptId).None? && check.stage.Passed?
    requires s.transfers[check.transaction].authorization.Some? && s.transfers[check.transaction].authorization.value.inputs == check.inputs
    requires check.stage.signals == check.inputs.Signals()
    requires t.transfers == s.transfers[check.transaction := Received(s.transfers[check.transaction], receiptId, check.inputs, check.stage.signals)]
    requires t.spent == Spend(s, check.transaction, check.inputs) && t.outputs == Record(s, check.transaction, check.inputs)
    ensures TransfersGood(t) && SpentGood(t) && OutputsGood(t) && ReceiptsDistinct(t) && Extends(s, t)
  {
    hide CompleteError, SpentGood, OutputsGood, Received, Spend, Record, TransferGood, Uses, Creates;
    var x, i := check.transaction, check.inputs;
    assert TransferGood(s.transfers[x]);
    CompleteFacts(w, s, x, i, receiptId);
    ReceivedGood(s.transfers[x], receiptId, i, check.stage.signals);
    SpendKeeps(s, t, x, i);
    RecordKeeps(s, t, x, i);
    ReceivedId(s.transfers[x], receiptId, i, check.stage.signals);
    assert TransfersGood(t) && Extends(s, t);
    hide TransfersGood, Extends;
    forall y | y in s.transfers && y != x ensures !SameReceipt(t.transfers[x], t.transfers[y]) {
    }
  }

  lemma ReceivedId(t: Transfer, receiptId: string, i: Inputs, signals: seq<string>)
    requires t.authorization.Some?
    ensures Received(t, receiptId, i, signals).receipt.Some? && Received(t, receiptId, i, signals).receipt.value.id == receiptId
    ensures Received(t, receiptId, i, signals).authorization.Some? && Received(t, receiptId, i, signals).authorization.value.inputs == t.authorization.value.inputs
  {
  }

  /** What `finalize` has established when it writes. */
  ghost predicate Applicable(c: Config, s: State, p: nat, x: string, checker: string) {
    && x in s.transfers && s.transfers[x].receipt.Some? && s.transfers[x].phase == ROOT_PENDING
    && p < |s.finalizations| && s.finalizations[p].transaction == x && s.finalizations[p].status == Live && s.finalizations[p].maker != checker
    && VerifiedExtension(c, s, s.transfers[x].receipt.value).Ok?
    && var e := VerifiedExtension(c, s, s.transfers[x].receipt.value).value;
      && s.roots[e.row].root == s.finalizations[p].baseRoot && s.roots[e.row].size == s.finalizations[p].baseSize
      && e.next.root == s.finalizations[p].root && e.next.treeSize == s.finalizations[p].size
  }

  /** Finalizing either changes nothing, cancels the proposal, or applies it. */
  lemma FinalizeCases(c: Config, w: World, s: State, x: string, checker: string)
    ensures var t := Finalize(c, w, s, x, checker).0; var live := LiveProposal(s.finalizations, x, |s.finalizations|);
      || t == s
      || (live.Some? && t == CancelProposal(s, live.value))
      || (live.Some? && Applicable(c, s, live.value, x, checker)
        && t == Settle(w, s, live.value, VerifiedExtension(c, s, s.transfers[x].receipt.value).value.next, checker))
  {
    hide VerifiedExtension, RootKnown, Settle, LiveProposal, CancelProposal;
  }

  lemma FinalizeKeeps(c: Config, w: World, s: State, transaction: string, checker: string)
    requires Settlement(c, s)
    ensures Settlement(c, Finalize(c, w, s, transaction, checker).0) && Extends(s, Finalize(c, w, s, transaction, checker).0)
  {
    FinalizeCases(c, w, s, transaction, checker);
    var t, live := Finalize(c, w, s, transaction, checker).0, LiveProposal(s.finalizations, transaction, |s.finalizations|);
    hide Finalize, VerifiedExtension, LiveProposal, SpentGood, OutputsGood, ReceiptsDistinct, ChecksGood;
    if live.Some? && Applicable(c, s, live.value, transaction, checker) && t.transfers != s.transfers {
      assert TransferGood(s.transfers[transaction]);
      SettledTransfer(s.transfers[transaction]);
      hide TransferGood;
      SameReceipts(c, s, t, transaction, t.transfers[transaction]);
    } else {
      UntouchedKeeps(c, s, t);
    }
  }

  lemma SettledTransfer(t: Transfer)
    requires TransferGood(t) && t.phase == ROOT_PENDING
    ensures TransferGood(t.(phase := SETTLED)) && Advances(t, t.(phase := SETTLED))
  {
  }

  lemma UntouchedKeeps(c: Config, s: State, t: State)
    requires Settlement(c, s)
    requires Untouched(s, t)
    ensures Settlement(c, t) && Extends(s, t)
  {
    hide Running, TransferGood;
    SameTables(s, t);
    hide SpentGood, OutputsGood, ReceiptsDistinct, TransfersGood;
  }

  /** The tables about transfers are as they were. */
  ghost predicate Untouched(s: State, t: State) {
    t.transfers == s.transfers && t.spent == s.spent && t.outputs == s.outputs && t.checks == s.checks && t.active == s.active
  }

  lemma ContextsUntouched(c: Config, w: World, s: State, p: nat, checker: string, approve: bool)
    ensures Untouched(s, DecideContext(c, w, s, p, checker, approve).0)
  {
    hide ContextAvailable;
  }

  lemma ProposalsUntouched(c: Config, w: World, s: State, transaction: string, root: string, size: int, maker: string)
    ensures Untouched(s, ProposeFinalization(c, w, s, transaction, root, size, maker).0)
    ensures Untouched(s, CancelFinalization(s, transaction).0)
  {
    hide VerifiedExtension, LiveProposal;
  }

  lemma SettlementKeeps(c: Config, s: State, e: Event)
    requires Settlement(c, s)
    ensures Settlement(c, Step(c, s, e).0) && Extends(s, Step(c, s, e).0)
  {
    hide Settlement, Extends, Prepare, Authorize, BeginAccept, EndCheck, CompleteAccept, Finalize;
    hide DecideContext, ProposeFinalization, CancelFinalization, ContextAvailable;
    var w := e.world;
    match e.action
    case DoPrepare(transaction, key, product, i, origin) => PrepareKeeps(c, w, s, transaction, key, product, i, origin);
    case DoAuthorize(transaction, inputs, actor) => AuthorizeKeeps(c, w, s, transaction, inputs, actor);
    case DoBeginAccept(transaction, actor) => BeginAcceptKeeps(c, w, s, transaction, actor);
    case DoEndCheck(k, signals, proofHolds) => EndCheckKeeps(c, s, k, signals, proofHolds);
    case DoCompleteAccept(k, receiptId) => CompleteAcceptKeeps(c, w, s, k, receiptId);
    case DoFinalize(transaction, checker) => FinalizeKeeps(c, w, s, transaction, checker);
    case DoProposeFinalization(transaction, root, size, maker) =>
      ProposalsUntouched(c, w, s, transaction, root, size, maker);
      UntouchedKeeps(c, s, Step(c, s, e).0);
    case DoCancelFinalization(transaction) =>
      ProposalsUntouched(c, w, s, transaction, "", 0, "");
      UntouchedKeeps(c, s, Step(c, s, e).0);
    case DoDecideContext(p, checker, approve) =>
      ContextsUntouched(c, w, s, p, checker, approve);
      UntouchedKeeps(c, s, Step(c, s, e).0);
    case _ =>
      UntouchedKeeps(c, s, Step(c, s, e).0);
  }

  lemma {:induction false} RunSettles(c: Config, events: seq<Event>)
    ensures Settlement(c, Run(c, events))
  {
    hide Settlement, Step;
    if events == [] {
      InitialSettlement(c);
    } else {
      RunSettles(c, events[..|events| - 1]);
      SettlementKeeps(c, Run(c, events[..|events| - 1]), events[|events| - 1]);
    }
  }

  lemma InitialSettlement(c: Config)
    ensures Settlement(c, INITIAL)
  {
  }

  // ----- the theorems -----

  /** However acceptances interleave, a nullifier of a context belongs to at most one accepted proof, and an output to one. */
  lemma NoDoubleSpend(c: Config, events: seq<Event>, x: string, y: string, contextId: string, nullifier: string)
    ensures var s := Run(c, events);
      x in s.transfers && y in s.transfers && Uses(s.transfers[x], contextId, nullifier) && Uses(s.transfers[y], contextId, nullifier) ==> x == y
    ensures var s := Run(c, events);
      (contextId, nullifier) in s.spent <==> exists z :: z in s.transfers && Uses(s.transfers[z], contextId, nullifier)
    ensures var s := Run(c, events);
      (contextId, nullifier) in s.spent ==> s.spent[(contextId, nullifier)] in s.transfers && s.transfers[s.spent[(contextId, nullifier)]].phase != PROOF_PENDING
  {
    RunSettles(c, events);
    hide Run, OutputsGood, ReceiptsDistinct, ChecksGood;
    var s := Run(c, events);
    if (contextId, nullifier) in s.spent {
      var z := s.spent[(contextId, nullifier)];
      assert z in s.transfers && Uses(s.transfers[z], contextId, nullifier) && TransferGood(s.transfers[z]);
    }
  }

  /** An accepted proof has exactly two outputs, and its 13 signals are those authorized on the terms frozen at preparation. */
  lemma AcceptedAsAuthorized(c: Config, events: seq<Event>, x: string)
    ensures var s := Run(c, events);
      x in s.transfers && s.transfers[x].receipt.Some? ==>
        var t := s.transfers[x];
        && t.authorization.Some? && t.receipt.value.signals == t.authorization.value.inputs.Signals()
        && t.receipt.value.signals[3..6] == [t.instruction.fee, t.instruction.recipient, t.instruction.relayer]
        && |t.receipt.value.outputs| == 2 && t.phase != PROOF_PENDING
  {
    RunSettles(c, events);
    hide Run, SpentGood, OutputsGood, ReceiptsDistinct, ChecksGood;
    var s := Run(c, events);
    if x in s.transfers && s.transfers[x].receipt.Some? {
      assert TransferGood(s.transfers[x]);
      var signals := s.transfers[x].receipt.value.signals;
      assert signals[3..6] == [signals[3], signals[4], signals[5]];
    }
  }

  /** Concurrent proof checks are counted exactly and never exceed the configured bound. */
  lemma VerifierSlots(c: Config, events: seq<Event>)
    ensures var s := Run(c, events); s.active == Running(s.checks) <= c.maxChecks
  {
    RunSettles(c, events);
    hide Run, SpentGood, OutputsGood, ReceiptsDistinct, TransfersGood, Running;
    assert ChecksGood(Run(c, events));
  }

  /** Terms, authorization and receipt of a transfer are written once: later steps of any run leave them as they are. */
  lemma {:induction false} TermsAreFrozen(c: Config, events: seq<Event>, n: nat)
    requires n <= |events|
    ensures Extends(Run(c, events[..n]), Run(c, events))
    decreases |events|
  {
    hide Step, Settlement, Run;
    if n == |events| {
      assert events[..n] == events;
    } else {
      var front := events[..|events| - 1];
      TermsAreFrozen(c, front, n);
      assert front[..n] == events[..n];
      RunSettles(c, front);
      SettlementKeeps(c, Run(c, front), events[|events| - 1]);
      RunLast(c, events);
    }
  }

  lemma RunLast(c: Config, events: seq<Event>)
    requires events != []
    ensures Run(c, events) == Step(c, Run(c, events[..|events| - 1]), events[|events| - 1]).0
  {
    hide Step;
  }
}
