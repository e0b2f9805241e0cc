/**
 The services over the confidential rail's tables. Each method is one of the program's
 calls; writes of a database transaction that fails late are made on local copies and
 only committed at the end.
 */
module ConfidentialRailService {
  import opened Common
  import opened FieldEncoding
  import opened NoteTree
  import opened ConfidentialRail
  import opened ConfidentialRailSafety
  import opened ConfidentialRailRoots

  /** The inputs a running check was started with are canonical, as they were when authorized. */
  lemma SnapshotCanonical(c: Config, s: State, k: nat)
    requires Settlement(c, s) && k < |s.checks|
    ensures s.checks[k].inputs.Canonical()
  {
    hide SpentGood, OutputsGood, ReceiptsDistinct;
    assert TransferGood(s.transfers[s.checks[k].transaction]);
  }

  class ZkSettlementGate {
    const config: Config
    var transfers: map<string, Transfer>
    var keys: map<string, string>
    var spent: map<(string, string), string>
    var outputs: map<(string, string, string), string>
    var contexts: seq<ContextRow>
    var proposals: seq<ContextProposal>
    var roots: seq<RootRow>
    var finalizations: seq<Finalization>
    var attestations: seq<Attestation>
    var checks: seq<Check>
    var activeVerifications: nat

    function View(): State
      reads this
    {
      State(transfers, keys, spent, outputs, contexts, proposals, roots, finalizations, attestations, checks, activeVerifications)
    }

    /** Every table invariant of the rail. */
    ghost predicate Valid()
      reads this
    {
      Settlement(config, View()) && RootsGood(config, View())
    }

    constructor (config: Config)
      ensures Valid() && View() == INITIAL && this.config == config
    {
      this.config := config;
      transfers, keys, spent, outputs := map[], map[], map[], map[];
      contexts, proposals, roots, finalizations, attestations, checks := [], [], [], [], [], [];
      activeVerifications := 0;
      new;
      InitialSettlement(config);
      InitialRoots(config);
    }

    /** Any of the calls below, in any world, keeps the tables valid. */
    twostate lemma StepIsValid(e: Event)
      requires old(Valid()) && View() == Step(config, old(View()), e).0
      ensures Valid()
    {
      SettlementKeeps(config, old(View()), e);
      RootsKeep(config, old(View()), e);
    }

    method ProposeContext(w: World, product: string, contextId: string, assetType: string, maker: string) returns (reply: Reply)
      requires Valid()
      modifies this
      ensures Valid() && (View(), reply) == ConfidentialRail.ProposeContext(w, old(View()), product, contextId, assetType, maker)
    {
      hide ContextAvailable, Settlement, RootsGood;
      var context, asset := NormalizeFieldElement(contextId), NormalizeFieldElement(assetType);
      var available := ContextAvailable(w, View(), product, w.circuit, contextId);
      if context.Err? || asset.Err? || contextId == "0" || asset.value >= 0x1_0000_0000 {
        reply := Error("INVALID_ZK_PARAMETER_PROPOSAL");
      } else if available.Some? {
        reply := Error(available.value);
      } else if exists i :: 0 <= i < |proposals| && proposals[i].decision == Pending && proposals[i].product == product {
        reply := Error("ZK_PARAMETER_PROPOSAL_PENDING");
      } else {
        proposals := proposals + [ContextProposal(product, w.circuit, contextId, assetType, maker, None, Pending)];
        reply := Done;
      }
      StepIsValid(Event(w, DoProposeContext(product, contextId, assetType, maker)));
    }

    method DecideContext(w: World, p: nat, checker: string, approve: bool) returns (reply: Reply)
      requires Valid()
      modifies this
      ensures Valid() && (View(), reply) == ConfidentialRail.DecideContext(config, w, old(View()), p, checker, approve)
    {
      hide ContextAvailable, Settlement, RootsGood, StateOf;
      reply := Decided(w, p, checker, approve);
      StepIsValid(Event(w, DoDecideContext(p, checker, approve)));
    }

    method Decided(w: World, p: nat, checker: string, approve: bool) returns (reply: Reply)
      modifies this
      ensures (View(), reply) == ConfidentialRail.DecideContext(config, w, old(View()), p, checker, approve)
    {
      hide ContextAvailable, StateOf;
      if p >= |proposals| || proposals[p].decision != Pending {
        return Error("ZK_PARAMETER_PROPOSAL_NOT_PENDING");
      }
      var proposal := proposals[p];
      if proposal.maker == checker {
        return Error("MAKER_CHECKER_CONFLICT");
      }
      if approve {
        var available := ContextAvailable(w, View(), proposal.product, proposal.circuit, proposal.contextId);
        if available.Some? {
          return Error(available.value);
        }
        if exists i :: 0 <= i < |contexts| && contexts[i].product == proposal.product && contexts[i].circuit == proposal.circuit {
          return Error("23505");
        }
        contexts := contexts + [ContextRow(proposal.product, proposal.circuit, proposal.contextId, proposal.assetType, false)];
        var genesis := EmptyMerkleTreeState(config.node);
        roots := roots + [RootRow(proposal.contextId, genesis.root, 0, genesis.frontier, CURRENT, None)];
      }
      proposals := proposals[p := proposal.(checker := Some(checker), decision := if approve then Approved else Refused)];
      return Done;
    }

    /** Creates the transfer with its frozen instruction, or finds the one the key already names. */
    method Prepare(w: World, transaction: string, key: string, product: string, i: Instruction, origin: string) returns (reply: Reply)
      requires Valid()
      modifies this
      ensures Valid() && (View(), reply) == ConfidentialRail.Prepare(w, old(View()), transaction, key, product, i, origin)
    {
      hide InstructionAccepted, ActiveContext, Settlement, RootsGood;
      if !InstructionAccepted(i, w.now) {
        reply := Error("INVALID_CONFIDENTIAL_INSTRUCTION");
      } else if ActiveContext(contexts, product, w.circuit, |contexts|).None? || !w.productActive(product) || !w.circuitActive(w.circuit) || !w.owned(product) {
        reply := Error("UNAPPROVED_PROOF_CONTEXT");
      } else if w.ineligible(product, i).Some? {
        reply := Error(w.ineligible(product, i).value);
      } else if key in keys {
        var existing := keys[key];
        if existing in transfers && existing == transaction && transfers[existing].product == product && transfers[existing].origin == origin
          && transfers[existing].instruction.(authorizedBy := "") == i.(authorizedBy := "")
        {
          reply := Existing(existing);
        } else {
          reply := Error("IDEMPOTENCY_CONFLICT");
        }
      } else if transaction in transfers {
        reply := Error("23505");
      } else {
        keys := keys[key := transaction];
        transfers := transfers[transaction := Transfer(product, key, origin, i, PROOF_PENDING, None, None)];
        reply := Done;
      }
      StepIsValid(Event(w, DoPrepare(transaction, key, product, i, origin)));
    }

    /** Binds 13 public inputs to a prepared transfer, once, when every server-owned field agrees. */
    method Authorize(w: World, transaction: string, inputs: Inputs, actor: Option<string>) returns (reply: Reply)
      requires Valid()
      modifies this
      ensures Valid() && (View(), reply) == ConfidentialRail.Authorize(w, old(View()), transaction, inputs, actor)
    {
      hide AuthorizeError, Settlement, RootsGood;
      if !inputs.Canonical() || inputs.nullifier0 == inputs.nullifier1 {
        reply := Error("INVALID_ZK_AUTHORIZATION");
      } else if transaction !in transfers {
        reply := Error("UNKNOWN_ZK_TRANSACTION");
      } else {
        var error := CheckAuthorization(w, transfers[transaction], inputs, actor);
        if error.Some? {
          reply := Error(error.value);
        } else {
          transfers := transfers[transaction := transfers[transaction].(authorization := Some(Authorization(inputs, false)))];
          reply := Done;
        }
      }
      StepIsValid(Event(w, DoAuthorize(transaction, inputs, actor)));
    }

    method CheckAuthorization(w: World, t: Transfer, inputs: Inputs, actor: Option<string>) returns (error: Option<string>)
      ensures error == AuthorizeError(w, View(), t, inputs, actor)
    {
      hide RootAccepted, ActiveContext;
      if !MayAct(t, actor) {
        return Some("UNKNOWN_ZK_TRANSACTION");
      }
      if t.phase != PROOF_PENDING {
        return Some("INVALID_ZK_TRANSACTION_STATE");
      }
      if !w.productActive(t.product) {
        return Some("PRODUCT_NOT_ACTIVE");
      }
      var policy := ActiveContext(contexts, t.product, w.circuit, |contexts|);
      if policy.None? || !w.circuitActive(w.circuit) || !w.owned(t.product) {
        return Some("UNAPPROVED_PROOF_CONTEXT");
      }
      if t.instruction.expiresAt <= w.now {
        return Some("ZK_EXECUTION_INSTRUCTION_EXPIRED");
      }
      if w.ineligible(t.product, t.instruction).Some? {
        return w.ineligible(t.product, t.instruction);
      }
      var context := contexts[policy.value];
      var serverOwned := [context.contextId, context.assetType, t.instruction.fee, t.instruction.recipient, t.instruction.relayer];
      var named := [inputs.contextId, inputs.assetType, inputs.fee, inputs.recipient, inputs.relayer];
      for k := 0 to 5
        invariant forall j :: 0 <= j < k ==> named[j] == serverOwned[j]
      {
        if named[k] != serverOwned[k] {
          return Some("ZK_BUSINESS_CONTEXT_MISMATCH");
        }
      }
      assert named[0] == serverOwned[0] && named[1] == serverOwned[1] && named[2] == serverOwned[2] && named[3] == serverOwned[3] && named[4] == serverOwned[4];
      if !RootAccepted(roots, inputs.contextId, inputs.merkleRoot, w.now) {
        return Some("UNACCEPTED_MERKLE_ROOT");
      }
      if t.authorization.Some? {
        return Some("ZK_TRANSACTION_ALREADY_AUTHORIZED");
      }
      return None;
    }

    /** First phase of `accept`: a snapshot of the authorization and a verifier slot. */
    method BeginAccept(w: World, transaction: string, actor: Option<string>) returns (reply: Reply)
      requires Valid()
      modifies this
      ensures Valid() && (View(), reply) == ConfidentialRail.BeginAccept(config, w, old(View()), transaction, actor)
    {
      hide Settlement, RootsGood;
      if transaction !in transfers || transfers[transaction].authorization.None? || transfers[transaction].authorization.value.verified {
        reply := Error("ZK_TRANSACTION_NOT_AUTHORIZED");
      } else {
        var t := transfers[transaction];
        if !MayAct(t, actor) {
          reply := Error("UNKNOWN_ZK_TRANSACTION");
        } else if t.phase != PROOF_PENDING {
          reply := Error("INVALID_ZK_TRANSACTION_STATE");
        } else if !w.productActive(t.product) {
          reply := Error("PRODUCT_NOT_ACTIVE");
        } else if activeVerifications >= config.maxChecks {
          reply := Error("PROOF_VERIFIER_BUSY");
        } else {
          activeVerifications := activeVerifications + 1;
          checks := checks + [Check(transaction, t.authorization.value.inputs, ConfidentialRail.Running)];
          reply := Done;
        }
      }
      StepIsValid(Event(w, DoBeginAccept(transaction, actor)));
    }

    /** Matches the supplied signals with the authorized ones before the proof itself counts. */
    method VerifyJoinSplit(inputs: Inputs, signals: seq<string>, proofHolds: bool) returns (reply: Reply)
      requires inputs.Canonical()
      ensures (reply == Done) == (signals == inputs.Signals() && proofHolds)
      ensures reply != Done ==> reply == Error(if |signals| != SIGNAL_COUNT then "INVALID_PROOF_PACKAGE"
        else if exists i :: 0 <= i < SIGNAL_COUNT && NormalizeFieldElement(signals[i]).Err? then "INVALID_PUBLIC_SIGNAL"
        else if signals != inputs.Signals() then "PROOF_CONTEXT_MISMATCH" else "INVALID_ZERO_KNOWLEDGE_PROOF")
    {
      hide NormalizeFieldElement;
      var matched := MatchSignals(signals, inputs.Signals());
      if matched.Err? {
        return Error(matched.code);
      }
      return if proofHolds then Done else Error("INVALID_ZERO_KNOWLEDGE_PROOF");
    }

    /** The verifier returns; its slot is free again whatever it said. */
    method EndCheck(w: World, k: nat, signals: seq<string>, proofHolds: bool) returns (reply: Reply)
      requires Valid()
      modifies this
      ensures Valid() && (View(), reply) == ConfidentialRail.EndCheck(old(View()), k, signals, proofHolds)
    {
      hide Settlement, RootsGood, NormalizeFieldElement;
      if k >= |checks| || checks[k].stage != ConfidentialRail.Running || activeVerifications == 0 {
        reply := Error("NO_SUCH_CHECK");
      } else {
        SnapshotCanonical(config, View(), k);
        activeVerifications := activeVerifications - 1;
        reply := VerifyJoinSplit(checks[k].inputs, signals, proofHolds);
        checks := checks[k := checks[k].(stage := if reply == Done then Passed(signals) else Over)];
      }
      StepIsValid(Event(w, DoEndCheck(k, signals, proofHolds)));
    }

    /** Second phase of `accept`: all checks again, then receipt, nullifiers, outputs and state, or nothing. */
    method CompleteAccept(w: World, k: nat, receiptId: string) returns (reply: Reply)
      requires Valid()
      modifies this
      ensures Valid() && (View(), reply) == ConfidentialRail.CompleteAccept(w, old(View()), k, receiptId)
    {
      hide Settlement, RootsGood, CompleteError, Spend, Record, Received;
      if k >= |checks| || !checks[k].stage.Passed? {
        reply := Error("NO_SUCH_CHECK");
      } else {
        var check := checks[k];
        reply := WriteReceipt(w, check.transaction, check.inputs, receiptId, check.stage.signals);
        checks := checks[k := check.(stage := Over)];
      }
      StepIsValid(Event(w, DoCompleteAccept(k, receiptId)));
    }

    method WriteReceipt(w: World, x: string, i: Inputs, receiptId: string, signals: seq<string>) returns (reply: Reply)
      modifies this`transfers, this`spent, this`outputs
      ensures var error := CompleteError(w, old(View()), x, i, receiptId);
        if error.Some? then View() == old(View()) && reply == Error(error.value)
        else reply == Done && View() == old(View()).(
          transfers := old(transfers)[x := Received(old(transfers)[x], receiptId, i, signals)],
          spent := Spend(old(View()), x, i), outputs := Record(old(View()), x, i))
    {
      hide RootAccepted, ContextCurrent;
      if x !in transfers {
        return Error("UNKNOWN_ZK_TRANSACTION");
      }
      var error := RecheckTransfer(w, transfers[x], i);
      if error.Some? {
        return Error(error.value);
      }
      var t := transfers[x];
      if t.receipt.Some? || exists y :: y in transfers && transfers[y].receipt.Some? && transfers[y].receipt.value.id == receiptId {
        return Error("23505");
      }
      var nullifiers, rows := [i.nullifier0, i.nullifier1], spent;
      for n := 0 to 2
        invariant rows == if n == 0 then spent else if n == 1 then spent[(i.contextId, i.nullifier0) := x] else Spend(View(), x, i)
        invariant n > 0 ==> (i.contextId, i.nullifier0) !in spent
        invariant n > 1 ==> (i.contextId, i.nullifier1) !in spent && i.nullifier0 != i.nullifier1
      {
        if (i.contextId, nullifiers[n]) in rows {
          return Error("NULLIFIER_ALREADY_SPENT");
        }
        rows := rows[(i.contextId, nullifiers[n]) := x];
      }
      var points, commitments := [(i.x0, i.y0), (i.x1, i.y1)], outputs;
      for n := 0 to 2
        invariant commitments == if n == 0 then outputs else if n == 1 then outputs[(i.contextId, i.x0, i.y0) := x] else Record(View(), x, i)
        invariant n > 0 ==> (i.contextId, i.x0, i.y0) !in outputs
        invariant n > 1 ==> (i.contextId, i.x1, i.y1) !in outputs && (i.x0, i.y0) != (i.x1, i.y1)
      {
        if (i.contextId, points[n].0, points[n].1) in commitments {
          return Error("23505");
        }
        commitments := commitments[(i.contextId, points[n].0, points[n].1) := x];
      }
      var receipt := Receipt(receiptId, i.contextId, i.merkleRoot, signals, points);
      transfers := transfers[x := t.(phase := ROOT_PENDING, authorization := Some(t.authorization.value.(verified := true)), receipt := Some(receipt))];
      spent, outputs := rows, commitments;
      return Done;
    }

    /** The checks of the second phase that read rows under lock. */
    method RecheckTransfer(w: World, t: Transfer, i: Inputs) returns (error: Option<string>)
      ensures error ==
        if t.phase != PROOF_PENDING then Some("INVALID_ZK_TRANSACTION_STATE")
        else if !w.productActive(t.product) then Some("PRODUCT_NOT_ACTIVE")
        else if !w.owned(t.product) || !ContextCurrent(contexts, t.product, w.circuit, i) then Some("ZK_BUSINESS_CONTEXT_RETIRED")
        else if i.fee != t.instruction.fee || i.recipient != t.instruction.recipient || i.relayer != t.instruction.relayer
             || t.instruction.expiresAt <= w.now then Some("INVALID_ZK_EXECUTION_INSTRUCTION")
        else if w.ineligible(t.product, t.instruction).Some? then w.ineligible(t.product, t.instruction)
        else if !w.circuitActive(w.circuit) || !w.artifactMatches then Some("UNAPPROVED_PROOF_CIRCUIT")
        else if t.authorization.None? || t.authorization.value.verified then Some("ZK_TRANSACTION_NOT_AUTHORIZED")
        else if !RootAccepted(roots, i.contextId, i.merkleRoot, w.now) then Some("UNACCEPTED_MERKLE_ROOT")
        else None
    {
      hide RootAccepted, ContextCurrent;
      if t.phase != PROOF_PENDING {
        return Some("INVALID_ZK_TRANSACTION_STATE");
      }
      if !w.productActive(t.product) {
        return Some("PRODUCT_NOT_ACTIVE");
      }
      if !w.owned(t.product) || !ContextCurrent(contexts, t.product, w.circuit, i) {
        return Some("ZK_BUSINESS_CONTEXT_RETIRED");
      }
      if i.fee != t.instruction.fee || i.recipient != t.instruction.recipient || i.relayer != t.instruction.relayer || t.instruction.expiresAt <= w.now {
        return Some("INVALID_ZK_EXECUTION_INSTRUCTION");
      }
      if w.ineligible(t.product, t.instruction).Some? {
        return w.ineligible(t.product, t.instruction);
      }
      if !w.circuitActive(w.circuit) || !w.artifactMatches {
        return Some("UNAPPROVED_PROOF_CIRCUIT");
      }
      if t.authorization.None? || t.authorization.value.verified {
        return Some("ZK_TRANSACTION_NOT_AUTHORIZED");
      }
      if !RootAccepted(roots, i.contextId, i.merkleRoot, w.now) {
        return Some("UNACCEPTED_MERKLE_ROOT");
      }
      return None;
    }

    method ProposeFinalization(w: World, transaction: string, root: string, size: int, maker: string) returns (reply: Reply)
      requires Valid()
      modifies this
      ensures Valid() && (View(), reply) == ConfidentialRail.ProposeFinalization(config, w, old(View()), transaction, root, size, maker)
    {
      hide Settlement, RootsGood, VerifiedExtension;
      reply := Proposed(w, transaction, root, size, maker);
      StepIsValid(Event(w, DoProposeFinalization(transaction, root, size, maker)));
    }

    method Proposed(w: World, transaction: string, root: string, size: int, maker: string) returns (reply: Reply)
      modifies this
      ensures (View(), reply) == ConfidentialRail.ProposeFinalization(config, w, old(View()), transaction, root, size, maker)
    {
      hide VerifiedExtension;
      if NormalizeFieldElement(root).Err? || size < 2 {
        return Error("INVALID_ROOT_PUBLICATION");
      }
      if transaction !in transfers || transfers[transaction].phase != ROOT_PENDING || transfers[transaction].receipt.None? {
        return Error("INVALID_ZK_TRANSACTION_STATE");
      }
      if !w.productActive(transfers[transaction].product) {
        return Error("PRODUCT_NOT_ACTIVE");
      }
      var extension := Extend(transfers[transaction].receipt.value);
      if extension.Err? {
        return Error(extension.code);
      }
      if extension.value.next.root != root || extension.value.next.treeSize != size {
        return Error("ROOT_PUBLICATION_MISMATCH");
      }
      if exists i :: 0 <= i < |finalizations| && finalizations[i].transaction == transaction && finalizations[i].status != Cancelled {
        return Error("ROOT_FINALIZATION_ALREADY_PROPOSED");
      }
      var base := roots[extension.value.row];
      finalizations := finalizations + [Finalization(transaction, base.root, base.size, root, size, maker, None, Live)];
      return Done;
    }

    /** Recomputes the CURRENT tree from its frontier and appends a receipt's two outputs. */
    method Extend(receipt: Receipt) returns (r: Result<Extension>)
      ensures r == VerifiedExtension(config, View(), receipt)
      ensures r.Ok? ==> r.value.row < |roots|
    {
      hide AppendLeaves;
      var row := CurrentRoot(roots, receipt.contextId, |roots|);
      if row.None? {
        return Err("ROOT_FRONTIER_UNAVAILABLE");
      }
      if |receipt.outputs| != 2 {
        return Err("ZK_OUTPUTS_UNAVAILABLE");
      }
      var current := roots[row.value];
      var next := AppendMerkleLeaves(config.node, current.size, current.frontier, Some(current.root), Texts(Leaves(config, receipt.outputs)));
      match next {
        case Err(code) => return Err(code);
        case Ok(tree) => return Ok(Extension(row.value, tree));
      }
    }

    method CancelFinalization(w: World, transaction: string) returns (reply: Reply)
      requires Valid()
      modifies this
      ensures Valid() && (View(), reply) == ConfidentialRail.CancelFinalization(old(View()), transaction)
    {
      hide Settlement, RootsGood, LiveProposal;
      var p := LiveProposal(finalizations, transaction, |finalizations|);
      if p.None? {
        reply := Error("ROOT_FINALIZATION_NOT_PENDING");
      } else {
        finalizations := finalizations[p.value := finalizations[p.value].(status := Cancelled)];
        reply := Done;
      }
      StepIsValid(Event(w, DoCancelFinalization(transaction)));
    }

    method Finalize(w: World, transaction: string, checker: string) returns (reply: Reply)
      requires Valid()
      modifies this
      ensures Valid() && (View(), reply) == ConfidentialRail.Finalize(config, w, old(View()), transaction, checker)
    {
      hide Settlement, RootsGood, VerifiedExtension, RootKnown, LiveProposal;
      reply := Finalized(w, transaction, checker);
      StepIsValid(Event(w, DoFinalize(transaction, checker)));
    }

    /** Applies a live proposal, or cancels it when the tree has moved on since it was made. */
    method Finalized(w: World, transaction: string, checker: string) returns (reply: Reply)
      modifies this
      ensures (View(), reply) == ConfidentialRail.Finalize(config, w, old(View()), transaction, checker)
    {
      hide VerifiedExtension, RootKnown, LiveProposal;
      var p := LiveProposal(finalizations, transaction, |finalizations|);
      if p.None? || transaction !in transfers || transfers[transaction].receipt.None? {
        return Error("UNKNOWN_ZK_TRANSACTION");
      }
      var t, proposal := transfers[transaction], finalizations[p.value];
      if t.phase != ROOT_PENDING {
        return Error("INVALID_ZK_TRANSACTION_STATE");
      }
      if !w.productActive(t.product) {
        return Error("PRODUCT_NOT_ACTIVE");
      }
      if proposal.maker == checker {
        return Error("MAKER_CHECKER_SEPARATION_REQUIRED");
      }
      var extension := Extend(t.receipt.value);
      if extension.Err? {
        return Error(extension.code);
      }
      var base, next := roots[extension.value.row], extension.value.next;
      if base.root != proposal.baseRoot || base.size != proposal.baseSize {
        finalizations := finalizations[p.value := proposal.(status := Cancelled)];
        return Error("STALE_ROOT_PUBLICATION");
      }
      if next.root != proposal.root || next.treeSize != proposal.size {
        return Error("ROOT_PUBLICATION_MISMATCH");
      }
      if RootKnown(roots, t.receipt.value.contextId, proposal.root) {
        return Error("23505");
      }
      roots := Retire(roots, t.receipt.value.contextId, w.now)
        + [RootRow(t.receipt.value.contextId, proposal.root, proposal.size, next.frontier, CURRENT, None)];
      finalizations := finalizations[p.value := proposal.(status := Applied, checker := Some(checker))];
      attestations := attestations + [Attestation(transaction, t.receipt.value.contextId, p.value)];
      transfers := transfers[transaction := t.(phase := SETTLED)];
      return Done;
    }
  }
}
