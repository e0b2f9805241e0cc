/**
 The confidential settlement rail: context governance, prepared transfers, immutable
 authorizations, two-phase proof acceptance and dual-control root finality. Each
 transaction of the program is one step. Field elements are canonical decimal texts,
 as in the tables; clocks, product status, eligibility and the proof verifier enter
 through a World that may differ at every step.
 */
module ConfidentialRail {
  import opened Common
  import opened FieldEncoding
  import opened NoteTree

  /** The 13 public inputs of a join-split proof. */
  datatype Inputs = Inputs(
    merkleRoot: string, contextId: string, assetType: string, fee: string, recipient: string, relayer: string, transactionHash: string,
    nullifier0: string, nullifier1: string, x0: string, x1: string, y0: string, y1: string)
  {
    /** In the order of the circuit's public signals. */
    function Signals(): (r: seq<string>)
      ensures |r| == SIGNAL_COUNT
    {
      [merkleRoot, contextId, assetType, fee, recipient, relayer, transactionHash, nullifier0, nullifier1, x0, x1, y0, y1]
    }

    predicate Canonical() {
      AllCanonical(Signals())
    }
  }

  datatype Parties = Parties(sender: string, senderCredential: string, recipient: string, recipientCredential: string)

  /** What `prepare` freezes. */
  datatype Instruction = Instruction(fee: string, recipient: string, relayer: string, authorizedBy: string, expiresAt: int, parties: Parties)

  datatype Phase = PROOF_PENDING | ROOT_PENDING | SETTLED

  datatype Authorization = Authorization(inputs: Inputs, verified: bool)

  datatype Receipt = Receipt(id: string, contextId: string, merkleRoot: string, signals: seq<string>, outputs: seq<(string, string)>)

  /** The rows keyed by a transaction: intent, instruction, authorization and receipt. */
  datatype Transfer = Transfer(product: string, key: string, origin: string, instruction: Instruction, phase: Phase,
    authorization: Option<Authorization>, receipt: Option<Receipt>)

  /** Keyed by product and circuit version; a product has one that is not retired. */
  datatype ContextRow = ContextRow(product: string, circuit: string, contextId: string, assetType: string, retired: bool)

  datatype Decision = Pending | Approved | Refused

  datatype ContextProposal = ContextProposal(product: string, circuit: string, contextId: string, assetType: string, maker: string,
    checker: Option<string>, decision: Decision)

  datatype RootStatus = CURRENT | HISTORICAL | REVOKED

  datatype RootRow = RootRow(contextId: string, root: string, size: int, frontier: seq<Option<string>>, status: RootStatus, expiresAt: Option<int>)

  datatype Finalization = Finalization(transaction: string, baseRoot: string, baseSize: int, root: string, size: int,
    maker: string, checker: Option<string>, status: FinalizationStatus)

  datatype FinalizationStatus = Live | Applied | Cancelled

  datatype Attestation = Attestation(transaction: string, contextId: string, proposal: nat)

  /** A proof check between the two phases of `accept`; `inputs` is the snapshot it was started with. */
  datatype Check = Check(transaction: string, inputs: Inputs, stage: Stage)

  datatype Stage = Running | Passed(signals: seq<string>) | Over

  datatype State = State(
    transfers: map<string, Transfer>, keys: map<string, string>,
    spent: map<(string, string), string>, outputs: map<(string, string, string), string>,
    contexts: seq<ContextRow>, proposals: seq<ContextProposal>, roots: seq<RootRow>,
    finalizations: seq<Finalization>, attestations: seq<Attestation>, checks: seq<Check>, active: nat)

  const INITIAL: State := State(map[], map[], map[], map[], [], [], [], [], [], [], 0)

  /** The node and leaf hashes, and the bound on concurrent proof checks. */
  datatype Config = Config(node: Hash, leaf: (string, string) -> Field, maxChecks: nat)

  /** `circuit` is the circuit version this runtime has pinned, `circuitActive` the versions that are active. */
  datatype World = World(now: int, productActive: string -> bool, owned: string -> bool, circuit: string, circuitActive: string -> bool,
    artifactMatches: bool, ineligible: (string, Instruction) -> Option<string>)

  datatype Reply = Done | Existing(transaction: string) | Error(code: string)

  // ----- lookups -----

  predicate ContextActive(contexts: seq<ContextRow>, i: nat, product: string) {
    i < |contexts| && contexts[i].product == product && !contexts[i].retired
  }

  predicate PinnedContext(contexts: seq<ContextRow>, i: nat, product: string, circuit: string) {
    ContextActive(contexts, i, product) && contexts[i].circuit == circuit
  }

  /** The product's context for the circuit that is not retired, if it has one. */
  function ActiveContext(contexts: seq<ContextRow>, product: string, circuit: string, n: nat): (r: Option<nat>)
    requires n <= |contexts|
    ensures r.Some? ==> r.value < n && PinnedContext(contexts, r.value, product, circuit)
    ensures r.None? ==> forall i :: 0 <= i < n ==> !PinnedContext(contexts, i, product, circuit)
  {
    if n == 0 then None
    else if PinnedContext(contexts, n - 1, product, circuit) then Some(n - 1)
    else ActiveContext(contexts, product, circuit, n - 1)
  }

  predicate IsCurrent(roots: seq<RootRow>, i: nat, contextId: string) {
    i < |roots| && roots[i].contextId == contextId && roots[i].status == CURRENT
  }

  /** The context's CURRENT root row. */
  function CurrentRoot(roots: seq<RootRow>, contextId: string, n: nat): (r: Option<nat>)
    requires n <= |roots|
    ensures r.Some? ==> r.value < n && IsCurrent(roots, r.value, contextId)
    ensures r.None? ==> forall i :: 0 <= i < n ==> !IsCurrent(roots, i, contextId)
  {
    if n == 0 then None
    else if IsCurrent(roots, n - 1, contextId) then Some(n - 1)
    else CurrentRoot(roots, contextId, n - 1)
  }

  /** The root is recorded for the context, not revoked and not past its grace period. */
  predicate RootAccepted(roots: seq<RootRow>, contextId: string, root: string, now: int) {
    exists i :: 0 <= i < |roots| && roots[i].contextId == contextId && roots[i].root == root
      && roots[i].status != REVOKED && !(roots[i].expiresAt.Some? && roots[i].expiresAt.value <= now)
  }

  predicate RootKnown(roots: seq<RootRow>, contextId: string, root: string) {
    exists i :: 0 <= i < |roots| && roots[i].contextId == contextId && roots[i].root == root
  }

  /** The transaction's PENDING finalization proposal. */
  function LiveProposal(fs: seq<Finalization>, transaction: string, n: nat): (r: Option<nat>)
    requires n <= |fs|
    ensures r.Some? ==> r.value < n && fs[r.value].transaction == transaction && fs[r.value].status == Live
    ensures r.None? ==> forall i :: 0 <= i < n ==> !(fs[i].transaction == transaction && fs[i].status == Live)
  {
    if n == 0 then None
    else if fs[n - 1].transaction == transaction && fs[n - 1].status == Live then Some(n - 1)
    else LiveProposal(fs, transaction, n - 1)
  }

  // ----- context governance -----

  function ContextAvailable(w: World, s: State, product: string, circuit: string, contextId: string): Option<string> {
    if !w.owned(product) then Some("UNKNOWN_PRODUCT")
    else if !w.circuitActive(circuit) then Some("UNAPPROVED_PROOF_CIRCUIT")
    else if exists i :: 0 <= i < |s.contexts| && ContextActive(s.contexts, i, product) then Some("ZK_CONTEXT_ALREADY_ACTIVE")
    else if (exists i :: 0 <= i < |s.contexts| && s.contexts[i].contextId == contextId)
         || (exists i :: 0 <= i < |s.roots| && s.roots[i].contextId == contextId) then Some("ZK_CONTEXT_ID_REUSED")
    else None
  }

  function ProposeContext(w: World, s: State, product: string, contextId: string, assetType: string, maker: string): (State, Reply) {
    if NormalizeFieldElement(contextId).Err? || NormalizeFieldElement(assetType).Err? || contextId == "0"
       || NormalizeFieldElement(assetType).value >= 0x1_0000_0000 then (s, Error("INVALID_ZK_PARAMETER_PROPOSAL"))
    else if ContextAvailable(w, s, product, w.circuit, contextId).Some? then (s, Error(ContextAvailable(w, s, product, w.circuit, contextId).value))
    else if exists i :: 0 <= i < |s.proposals| && s.proposals[i].decision == Pending && s.proposals[i].product == product
      then (s, Error("ZK_PARAMETER_PROPOSAL_PENDING"))
    else (s.(proposals := s.proposals + [ContextProposal(product, w.circuit, contextId, assetType, maker, None, Pending)]), Done)
  }

  /** Approval checks availability again, then creates the context with its empty tree. */
  function DecideContext(c: Config, w: World, s: State, p: nat, checker: string, approve: bool): (State, Reply) {
    if p >= |s.proposals| || s.proposals[p].decision != Pending then (s, Error("ZK_PARAMETER_PROPOSAL_NOT_PENDING"))
    else if s.proposals[p].maker == checker then (s, Error("MAKER_CHECKER_CONFLICT"))
    else
      var q := s.proposals[p];
      var decided := s.proposals[p := q.(checker := Some(checker), decision := if approve then Approved else Refused)];
      if !approve then (s.(proposals := decided), Done)
      else if ContextAvailable(w, s, q.product, q.circuit, q.contextId).Some? then (s, Error(ContextAvailable(w, s, q.product, q.circuit, q.contextId).value))
      else if exists i :: 0 <= i < |s.contexts| && s.contexts[i].product == q.product && s.contexts[i].circuit == q.circuit then (s, Error("23505"))
      else
        var genesis := StateOf(c.node, []);
        (s.(proposals := decided,
            contexts := s.contexts + [ContextRow(q.product, q.circuit, q.contextId, q.assetType, false)],
            roots := s.roots + [RootRow(q.contextId, genesis.root, 0, genesis.frontier, CURRENT, None)]), Done)
  }

  // ----- prepare and authorize -----

  const UINT64_LIMIT: nat := 0x1_0000_0000_0000_0000

  predicate InstructionAccepted(i: Instruction, now: int) {
    && now < i.expiresAt <= now + 86_400_000
    && NormalizeFieldElement(i.fee).Ok? && NormalizeFieldElement(i.recipient).Ok? && NormalizeFieldElement(i.relayer).Ok?
    && NormalizeFieldElement(i.fee).value < UINT64_LIMIT && i.recipient != "0"
  }

  function Prepare(w: World, s: State, transaction: string, key: string, product: string, i: Instruction, origin: string): (State, Reply) {
    if !InstructionAccepted(i, w.now) then (s, Error("INVALID_CONFIDENTIAL_INSTRUCTION"))
    else if ActiveContext(s.contexts, product, w.circuit, |s.contexts|).None? || !w.productActive(product) || !w.circuitActive(w.circuit) || !w.owned(product)
      then (s, Error("UNAPPROVED_PROOF_CONTEXT"))
    else if w.ineligible(product, i).Some? then (s, Error(w.ineligible(product, i).value))
    else if key in s.keys then
      var existing := s.keys[key];
      if existing !in s.transfers || existing != transaction || s.transfers[existing].product != product || s.transfers[existing].origin != origin
         || s.transfers[existing].instruction.(authorizedBy := "") != i.(authorizedBy := "") then (s, Error("IDEMPOTENCY_CONFLICT"))
      else (s, Existing(existing))
    else if transaction in s.transfers then (s, Error("23505"))
    else
      (s.(transfers := s.transfers[transaction := Transfer(product, key, origin, i, PROOF_PENDING, None, None)],
          keys := s.keys[key := transaction]), Done)
  }

  predicate MayAct(t: Transfer, actor: Option<string>) {
    actor.Some? ==> actor.value != "" && actor.value == t.origin
  }

  function AuthorizeError(w: World, s: State, t: Transfer, inputs: Inputs, actor: Option<string>): Option<string> {
    if !MayAct(t, actor) then Some("UNKNOWN_ZK_TRANSACTION")
    else if t.phase != PROOF_PENDING then Some("INVALID_ZK_TRANSACTION_STATE")
    else if !w.productActive(t.product) then Some("PRODUCT_NOT_ACTIVE")
    else
      var policy := ActiveContext(s.contexts, t.product, w.circuit, |s.contexts|);
      if policy.None? || !w.circuitActive(w.circuit) || !w.owned(t.product) then Some("UNAPPROVED_PROOF_CONTEXT")
      else if t.instruction.expiresAt <= w.now then Some("ZK_EXECUTION_INSTRUCTION_EXPIRED")
      else if w.ineligible(t.product, t.instruction).Some? then w.ineligible(t.product, t.instruction)
      else if inputs.contextId != s.contexts[policy.value].contextId || inputs.assetType != s.contexts[policy.value].assetType
           || inputs.fee != t.instruction.fee || inputs.recipient != t.instruction.recipient || inputs.relayer != t.instruction.relayer
        then Some("ZK_BUSINESS_CONTEXT_MISMATCH")
      else if !RootAccepted(s.roots, inputs.contextId, inputs.merkleRoot, w.now) then Some("UNACCEPTED_MERKLE_ROOT")
      else if t.authorization.Some? then Some("ZK_TRANSACTION_ALREADY_AUTHORIZED")
      else None
  }

  function Authorize(w: World, s: State, transaction: string, inputs: Inputs, actor: Option<string>): (State, Reply) {
    if !inputs.Canonical() || inputs.nullifier0 == inputs.nullifier1 then (s, Error("INVALID_ZK_AUTHORIZATION"))
    else if transaction !in s.transfers then (s, Error("UNKNOWN_ZK_TRANSACTION"))
    else
      var t := s.transfers[transaction];
      var error := AuthorizeError(w, s, t, inputs, actor);
      if error.Some? then (s, Error(error.value))
      else (s.(transfers := s.transfers[transaction := t.(authorization := Some(Authorization(inputs, false)))]), Done)
  }

  // ----- two-phase acceptance -----

  /** The first phase: reads the authorization and takes a verifier slot. */
  function BeginAccept(c: Config, w: World, s: State, transaction: string, actor: Option<string>): (State, Reply) {
    if transaction !in s.transfers then (s, Error("ZK_TRANSACTION_NOT_AUTHORIZED"))
    else
      var t := s.transfers[transaction];
      if t.authorization.None? || t.authorization.value.verified then (s, Error("ZK_TRANSACTION_NOT_AUTHORIZED"))
      else if !MayAct(t, actor) then (s, Error("UNKNOWN_ZK_TRANSACTION"))
      else if t.phase != PROOF_PENDING then (s, Error("INVALID_ZK_TRANSACTION_STATE"))
      else if !w.productActive(t.product) then (s, Error("PRODUCT_NOT_ACTIVE"))
      else if s.active >= c.maxChecks then (s, Error("PROOF_VERIFIER_BUSY"))
      else (s.(checks := s.checks + [Check(transaction, t.authorization.value.inputs, Running)], active := s.active + 1), Done)
  }

  /** The verifier's answer, outside any transaction; the slot is given back either way. */
  function EndCheck(s: State, k: nat, signals: seq<string>, proofHolds: bool): (State, Reply) {
    if k >= |s.checks| || s.checks[k].stage != Running || s.active == 0 then (s, Error("NO_SUCH_CHECK"))
    else
      var passed := signals == s.checks[k].inputs.Signals() && proofHolds;
      (s.(checks := s.checks[k := s.checks[k].(stage := if passed then Passed(signals) else Over)], active := s.active - 1),
       if passed then Done else Error(if |signals| != SIGNAL_COUNT then "INVALID_PROOF_PACKAGE"
         else if exists i :: 0 <= i < SIGNAL_COUNT && NormalizeFieldElement(signals[i]).Err? then "INVALID_PUBLIC_SIGNAL"
         else if signals != s.checks[k].inputs.Signals() then "PROOF_CONTEXT_MISMATCH" else "INVALID_ZERO_KNOWLEDGE_PROOF"))
  }

  /** The product's unretired context for the circuit still is the one the inputs name. */
  predicate ContextCurrent(contexts: seq<ContextRow>, product: string, circuit: string, inputs: Inputs) {
    exists i :: 0 <= i < |contexts| && PinnedContext(contexts, i, product, circuit)
      && contexts[i].contextId == inputs.contextId && contexts[i].assetType == inputs.assetType
  }

  function CompleteError(w: World, s: State, transaction: string, inputs: Inputs, receiptId: string): Option<string> {
    if transaction !in s.transfers then Some("UNKNOWN_ZK_TRANSACTION")
    else
      var t := s.transfers[transaction];
      if t.phase != PROOF_PENDING then Some("INVALID_ZK_TRANSACTION_STATE")
      else if !w.productActive(t.product) then Some("PRODUCT_NOT_ACTIVE")
      else if !w.owned(t.product) || !ContextCurrent(s.contexts, t.product, w.circuit, inputs) then Some("ZK_BUSINESS_CONTEXT_RETIRED")
      else if inputs.fee != t.instruction.fee || inputs.recipient != t.instruction.recipient || inputs.relayer != t.instruction.relayer
           || t.instruction.expiresAt <= w.now then Some("INVALID_ZK_EXECUTION_INSTRUCTION")
      else if w.ineligible(t.product, t.instruction).Some? then w.ineligible(t.product, t.instruction)
      else if !w.circuitActive(w.circuit) || !w.artifactMatches then Some("UNAPPROVED_PROOF_CIRCUIT")
      else if t.authorization.None? || t.authorization.value.verified then Some("ZK_TRANSACTION_NOT_AUTHORIZED")
      else if !RootAccepted(s.roots, inputs.contextId, inputs.merkleRoot, w.now) then Some("UNACCEPTED_MERKLE_ROOT")
      else if t.receipt.Some? || exists x :: x in s.transfers && s.transfers[x].receipt.Some? && s.transfers[x].receipt.value.id == receiptId
        then Some("23505")
      else if (inputs.contextId, inputs.nullifier0) in s.spent || (inputs.contextId, inputs.nullifier1) in s.spent
           || inputs.nullifier0 == inputs.nullifier1 then Some("NULLIFIER_ALREADY_SPENT")
      else if (inputs.contextId, inputs.x0, inputs.y0) in s.outputs || (inputs.contextId, inputs.x1, inputs.y1) in s.outputs
           || (inputs.x0, inputs.y0) == (inputs.x1, inputs.y1) then Some("23505")
      else None
  }

  function Spend(s: State, transaction: string, i: Inputs): map<(string, string), string> {
    s.spent[(i.contextId, i.nullifier0) := transaction][(i.contextId, i.nullifier1) := transaction]
  }

  function Record(s: State, transaction: string, i: Inputs): map<(string, string, string), string> {
    s.outputs[(i.contextId, i.x0, i.y0) := transaction][(i.contextId, i.x1, i.y1) := transaction]
  }

  function Received(t: Transfer, receiptId: string, i: Inputs, signals: seq<string>): Transfer
    requires t.authorization.Some?
  {
    t.(phase := ROOT_PENDING, authorization := Some(t.authorization.value.(verified := true)),
       receipt := Some(Receipt(receiptId, i.contextId, i.merkleRoot, signals, [(i.x0, i.y0), (i.x1, i.y1)])))
  }

  /** The second phase: every check again under locks, then receipt, nullifiers, outputs and state in one transaction. */
  function CompleteAccept(w: World, s: State, k: nat, receiptId: string): (State, Reply) {
    if k >= |s.checks| || !s.checks[k].stage.Passed? then (s, Error("NO_SUCH_CHECK"))
    else
      var check := s.checks[k];
      var over := s.(checks := s.checks[k := check.(stage := Over)]);
      var error := CompleteError(w, s, check.transaction, check.inputs, receiptId);
      if error.Some? then (over, Error(error.value))
      else
        var t := s.transfers[check.transaction];
        (over.(transfers := s.transfers[check.transaction := Received(t, receiptId, check.inputs, check.stage.signals)],
               spent := Spend(s, check.transaction, check.inputs), outputs := Record(s, check.transaction, check.inputs)), Done)
  }

  // ----- finality -----

  datatype Extension = Extension(row: nat, next: TreeState)

  function Leaves(c: Config, outputs: seq<(string, string)>): (r: seq<Field>)
    ensures |r| == |outputs|
  {
    if outputs == [] then [] else [c.leaf(outputs[0].0, outputs[0].1)] + Leaves(c, outputs[1..])
  }

  /** The server's own extension of the context's CURRENT tree by a receipt's two outputs. */
  function VerifiedExtension(c: Config, s: State, receipt: Receipt): Result<Extension> {
    match CurrentRoot(s.roots, receipt.contextId, |s.roots|)
    case None => Err("ROOT_FRONTIER_UNAVAILABLE")
    case Some(row) =>
      if |receipt.outputs| != 2 then Err("ZK_OUTPUTS_UNAVAILABLE")
      else
        match AppendLeaves(c.node, s.roots[row].size, s.roots[row].frontier, Some(s.roots[row].root), Texts(Leaves(c, receipt.outputs)))
        case Err(code) => Err(code)
        case Ok(next) => Ok(Extension(row, next))
  }

  function ProposeFinalization(c: Config, w: World, s: State, transaction: string, root: string, size: int, maker: string): (State, Reply) {
    if NormalizeFieldElement(root).Err? || size < 2 then (s, Error("INVALID_ROOT_PUBLICATION"))
    else if transaction !in s.transfers || s.transfers[transaction].phase != ROOT_PENDING || s.transfers[transaction].receipt.None?
      then (s, Error("INVALID_ZK_TRANSACTION_STATE"))
    else if !w.productActive(s.transfers[transaction].product) then (s, Error("PRODUCT_NOT_ACTIVE"))
    else
      match VerifiedExtension(c, s, s.transfers[transaction].receipt.value)
      case Err(code) => (s, Error(code))
      case Ok(e) =>
        if e.next.root != root || e.next.treeSize != size then (s, Error("ROOT_PUBLICATION_MISMATCH"))
        else if exists i :: 0 <= i < |s.finalizations| && s.finalizations[i].transaction == transaction && s.finalizations[i].status != Cancelled
          then (s, Error("ROOT_FINALIZATION_ALREADY_PROPOSED"))
        else
          (s.(finalizations := s.finalizations
            + [Finalization(transaction, s.roots[e.row].root, s.roots[e.row].size, root, size, maker, None, Live)]), Done)
  }

  function CancelProposal(s: State, p: nat): State
    requires p < |s.finalizations|
  {
    s.(finalizations := s.finalizations[p := s.finalizations[p].(status := Cancelled)])
  }

  function CancelFinalization(s: State, transaction: string): (State, Reply) {
    match LiveProposal(s.finalizations, transaction, |s.finalizations|)
    case None => (s, Error("ROOT_FINALIZATION_NOT_PENDING"))
    case Some(p) => (CancelProposal(s, p), Done)
  }

  /** Rows of the context stop being CURRENT and get an hour of grace. */
  function Retire(roots: seq<RootRow>, contextId: string, now: int): (r: seq<RootRow>)
    ensures |r| == |roots|
  {
    seq(|roots|, i requires 0 <= i < |roots| =>
      if roots[i].contextId == contextId && roots[i].status == CURRENT
      then roots[i].(status := HISTORICAL, expiresAt := Some(now + 3_600_000)) else roots[i])
  }

  function Settle(w: World, s: State, p: nat, next: TreeState, checker: string): State
    requires p < |s.finalizations| && s.finalizations[p].transaction in s.transfers
    requires s.transfers[s.finalizations[p].transaction].receipt.Some?
  {
    var q := s.finalizations[p];
    var t := s.transfers[q.transaction];
    s.(roots := Retire(s.roots, t.receipt.value.contextId, w.now)
         + [RootRow(t.receipt.value.contextId, q.root, q.size, next.frontier, CURRENT, None)],
       finalizations := s.finalizations[p := q.(status := Applied, checker := Some(checker))],
       attestations := s.attestations + [Attestation(q.transaction, t.receipt.value.contextId, p)],
       transfers := s.transfers[q.transaction := t.(phase := SETTLED)])
  }

  function Finalize(c: Config, w: World, s: State, transaction: string, checker: string): (State, Reply) {
    match LiveProposal(s.finalizations, transaction, |s.finalizations|)
    case None => (s, Error("UNKNOWN_ZK_TRANSACTION"))
    case Some(p) =>
      if transaction !in s.transfers || s.transfers[transaction].receipt.None? then (s, Error("UNKNOWN_ZK_TRANSACTION"))
      else if s.transfers[transaction].phase != ROOT_PENDING then (s, Error("INVALID_ZK_TRANSACTION_STATE"))
      else if !w.productActive(s.transfers[transaction].product) then (s, Error("PRODUCT_NOT_ACTIVE"))
      else if s.finalizations[p].maker == checker then (s, Error("MAKER_CHECKER_SEPARATION_REQUIRED"))
      else
        var q := s.finalizations[p];
        match VerifiedExtension(c, s, s.transfers[transaction].receipt.value)
        case Err(code) => (s, Error(code))
        case Ok(e) =>
          if s.roots[e.row].root != q.baseRoot || s.roots[e.row].size != q.baseSize then (CancelProposal(s, p), Error("STALE_ROOT_PUBLICATION"))
          else if e.next.root != q.root || e.next.treeSize != q.size then (s, Error("ROOT_PUBLICATION_MISMATCH"))
          else if RootKnown(s.roots, s.transfers[transaction].receipt.value.contextId, q.root) then (s, Error("23505"))
          else (Settle(w, s, p, e.next, checker), Done)
  }

  // ----- operators and runs -----

  /** Retiring a context, and revoking a root that is no longer CURRENT, happen outside the program. */
  function RetireContext(s: State, i: nat): (State, Reply) {
    if i >= |s.contexts| then (s, Error("UNKNOWN_CONTEXT"))
    else (s.(contexts := s.contexts[i := s.contexts[i].(retired := true)]), Done)
  }

  function RevokeRoot(s: State, i: nat): (State, Reply) {
    if i >= |s.roots| || s.roots[i].status != HISTORICAL then (s, Error("INVALID_ROOT"))
    else (s.(roots := s.roots[i := s.roots[i].(status := REVOKED)]), Done)
  }

  datatype Action =
    | DoProposeContext(product: string, contextId: string, assetType: string, maker: string)
    | DoDecideContext(proposal: nat, checker: string, approve: bool)
    | DoPrepare(transaction: string, key: string, product: string, instruction: Instruction, origin: string)
    | DoAuthorize(transaction: string, inputs: Inputs, actor: Option<string>)
    | DoBeginAccept(transaction: string, actor: Option<string>)
    | DoEndCheck(check: nat, signals: seq<string>, proofHolds: bool)
    | DoCompleteAccept(check: nat, receiptId: string)
    | DoProposeFinalization(transaction: string, root: string, size: int, maker: string)
    | DoCancelFinalization(transaction: string)
    | DoFinalize(transaction: string, checker: string)
    | DoRetireContext(context: nat)
    | DoRevokeRoot(row: nat)

  datatype Event = Event(world: World, action: Action)

  function Step(c: Config, s: State, e: Event): (State, Reply) {
    match e.action
    case DoProposeContext(product, contextId, assetType, maker) => ProposeContext(e.world, s, product, contextId, assetType, maker)
    case DoDecideContext(p, checker, approve) => DecideContext(c, e.world, s, p, checker, approve)
    case DoPrepare(transaction, key, product, i, origin) => Prepare(e.world, s, transaction, key, product, i, origin)
    case DoAuthorize(transaction, inputs, actor) => Authorize(e.world, s, transaction, inputs, actor)
    case DoBeginAccept(transaction, actor) => BeginAccept(c, e.world, s, transaction, actor)
    case DoEndCheck(k, signals, proofHolds) => EndCheck(s, k, signals, proofHolds)
    case DoCompleteAccept(k, receiptId) => CompleteAccept(e.world, s, k, receiptId)
    case DoProposeFinalization(transaction, root, size, maker) => ProposeFinalization(c, e.world, s, transaction, root, size, maker)
    case DoCancelFinalization(transaction) => CancelFinalization(s, transaction)
    case DoFinalize(transaction, checker) => Finalize(c, e.world, s, transaction, checker)
    case DoRetireContext(i) => RetireContext(s, i)
    case DoRevokeRoot(i) => RevokeRoot(s, i)
  }

  function Run(c: Config, events: seq<Event>): State {
    if events == [] then INITIAL else Step(c, Run(c, events[..|events| - 1]), events[|events| - 1]).0
  }
}
