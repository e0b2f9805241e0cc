/**
 The in-memory settlement engine: products, credentials, NAV evidence, cash and asset
 balances, the legal register, idempotent settlement, and the exception workflow.
 Balances are keyed by pairs, amounts are integers, and each call reads its clock once.
 A request stands for its own fingerprint.
 */
module ControlPlane {
  import opened Common

  datatype ProductStatus = DRAFT | ACTIVE | PAUSED

  datatype Product = Product(issuer: string, currency: string, classes: seq<string>, jurisdictions: seq<string>, maxDeviation: int, status: ProductStatus)

  datatype Credential = Credential(product: string, subject: string, investorClass: string, jurisdiction: string, validFrom: int, validUntil: int, maxUnits: int)

  datatype Nav = Nav(id: string, product: string, value: int, effectiveAt: int, expiresAt: int)

  datatype Kind = SUBSCRIBE | TRANSFER | REDEEM

  datatype TxState = SETTLED | REQUIRES_REVIEW | PENDING_APPROVAL | CANCELLED | REPLACED

  datatype Stage =
    | Requested | PolicyChecked | CashReserved | RegisterPending | RegisterFailed | RequiresReview | Settled
    | ReviewProposed | ReviewApproved | Cancelled | Replaced | RetryBlocked

  datatype Stamp = Stamp(stage: Stage, at: int)

  datatype Mode = STANDARD | RESTRICTED_EXIT | EXCEPTION_REVIEW

  /** What a transfer asks for; both the settling and the failing form take it. */
  datatype Request =
    | SubscribeRequest(id: string, product: string, investor: string, credential: string, units: int, cash: int)
    | TransferRequest(id: string, product: string, seller: string, sellerCredential: string, buyer: string, buyerCredential: string,
        units: int, price: int, fee: int, expiresAt: int)
    | RedeemRequest(id: string, product: string, investor: string, credential: string, units: int)

  /** The same request under another identifier. */
  function Renamed(r: Request, id: string): Request {
    match r
    case SubscribeRequest(_, product, investor, credential, units, cash) => SubscribeRequest(id, product, investor, credential, units, cash)
    case TransferRequest(_, product, seller, sellerCredential, buyer, buyerCredential, units, price, fee, expiresAt) =>
      TransferRequest(id, product, seller, sellerCredential, buyer, buyerCredential, units, price, fee, expiresAt)
    case RedeemRequest(_, product, investor, credential, units) => RedeemRequest(id, product, investor, credential, units)
  }

  datatype Transaction = Transaction(kind: Kind, product: string, seller: string, buyer: string, units: int, price: int, cash: int, fee: int,
    expiresAt: int, nav: Nav, mode: Mode, settledAt: Option<int>, state: TxState, lifecycle: seq<Stamp>)

  datatype CashState = CONFIRMED | RELEASED

  datatype CashRecord = CashRecord(state: CashState, at: int)

  datatype Receipt = Receipt(transaction: string, state: TxState, settledAt: Option<int>, mode: Mode, lifecycle: seq<Stage>)

  datatype Entry = Entry(request: Request, result: Receipt)

  datatype CaseStatus = OPEN | PENDING | RESOLVED_CANCELLED | RESOLVED_RETRIED

  datatype Proposal = Proposal(retry: bool, replacement: string, maker: string)

  /** `retry` is the failed transfer's request; a retry repeats it under a new identifier. */
  datatype Case = Case(transaction: string, product: string, status: CaseStatus, proposal: Option<Proposal>, replacement: Option<string>,
    checker: Option<string>, retry: Request)

  type Balances = map<(string, string), int>

  datatype Credit = Credit(account: string, currency: string, amount: int)

  datatype State = State(
    products: map<string, Product>, credentials: map<string, Credential>, restricted: set<string>, navs: seq<Nav>,
    cash: Balances, assets: Balances, register: Balances,
    transactions: map<string, Transaction>, settlements: map<string, CashRecord>, cases: map<string, Case>,
    idempotency: map<string, Entry>, credited: seq<Credit>)

  const INITIAL: State := State(map[], map[], {}, [], map[], map[], map[], map[], map[], map[], map[], [])

  /** One call's clock reading, whose signatures verify now, and whether the role tables allow the call. */
  datatype World = World(now: int, signed: string -> bool, allowed: bool)

  datatype Reply = Accepted | Receipted(receipt: Receipt) | Failed(code: string)

  function Get(m: Balances, k: (string, string)): int {
    if k in m then m[k] else 0
  }

  /** Adds to one balance. */
  function Put(m: Balances, k: (string, string), d: int): Balances {
    m[k := Get(m, k) + d]
  }

  // ----- eligibility and prices -----

  predicate CurrentCredential(c: Credential, now: int) {
    c.validFrom <= now < c.validUntil
  }

  function EligibleError(w: World, s: State, product: string, investor: string, credential: string, more: int): Option<string>
    requires product in s.products
  {
    if credential !in s.credentials then Some("UNKNOWN_CREDENTIAL")
    else
      var c, p := s.credentials[credential], s.products[product];
      if credential in s.restricted then Some("CREDENTIAL_REVOKED")
      else if !CurrentCredential(c, w.now) then Some("CREDENTIAL_TIME")
      else if c.product != product then Some("CREDENTIAL_SCOPE")
      else if c.subject != investor then Some("CREDENTIAL_SUBJECT")
      else if !w.signed(credential) then Some("INVALID_SIGNATURE")
      else if c.investorClass !in p.classes then Some("INVESTOR_CLASS")
      else if c.jurisdiction !in p.jurisdictions then Some("INVESTOR_JURISDICTION")
      else if Get(s.assets, (investor, product)) + more > c.maxUnits then Some("HOLDING_LIMIT")
      else None
  }

  /** A revoked credential still lets its holder leave; an expired or future one does not. */
  function ExitError(w: World, s: State, product: string, investor: string, credential: string): Option<string> {
    if credential !in s.credentials then Some("UNKNOWN_CREDENTIAL")
    else
      var c := s.credentials[credential];
      if c.product != product then Some("CREDENTIAL_SCOPE")
      else if c.subject != investor then Some("CREDENTIAL_SUBJECT")
      else if !w.signed(credential) then Some("INVALID_SIGNATURE")
      else if credential !in s.restricted && !CurrentCredential(c, w.now) then Some("EXIT_NOT_ALLOWED")
      else None
  }

  predicate Effective(nav: Nav, product: string, now: int) {
    nav.product == product && nav.effectiveAt <= now
  }

  /** The latest effective NAV, the earlier submission when two take effect together. */
  function LatestNav(navs: seq<Nav>, n: nat, product: string, now: int): (r: Option<nat>)
    requires n <= |navs|
    ensures r.Some? ==> r.value < n && Effective(navs[r.value], product, now)
    ensures r.Some? ==> forall i :: 0 <= i < n && Effective(navs[i], product, now) ==>
        navs[i].effectiveAt < navs[r.value].effectiveAt || (navs[i].effectiveAt == navs[r.value].effectiveAt && r.value <= i)
    ensures r.None? ==> forall i :: 0 <= i < n ==> !Effective(navs[i], product, now)
  {
    if n == 0 then None
    else
      var best := LatestNav(navs, n - 1, product, now);
      if Effective(navs[n - 1], product, now) && (best.None? || navs[best.value].effectiveAt < navs[n - 1].effectiveAt) then Some(n - 1) else best
  }

  function CurrentNav(s: State, product: string, now: int): Result<Nav> {
    match LatestNav(s.navs, |s.navs|, product, now)
    case None => Err("MISSING_EVIDENCE")
    case Some(i) => if s.navs[i].expiresAt <= now then Err("EVIDENCE_EXPIRED") else Ok(s.navs[i])
  }

  function Abs(x: int): nat {
    if x < 0 then -x else x
  }

  // ----- why a settlement is refused -----

  function ProductError(s: State, id: string, product: string): Option<string> {
    if id in s.transactions then Some("DUPLICATE_TRANSACTION")
    else if product !in s.products then Some("UNKNOWN_PRODUCT")
    else if s.products[product].status != ACTIVE then Some("PRODUCT_NOT_ACTIVE")
    else None
  }

  function SubscribeError(w: World, s: State, r: Request): Option<string>
    requires r.SubscribeRequest?
  {
    if ProductError(s, r.id, r.product).Some? then ProductError(s, r.id, r.product)
    else if r.units <= 0 || r.cash < 0 then Some("INVALID_AMOUNT")
    else if EligibleError(w, s, r.product, r.investor, r.credential, r.units).Some? then EligibleError(w, s, r.product, r.investor, r.credential, r.units)
    else
      match CurrentNav(s, r.product, w.now)
      case Err(code) => Some(code)
      case Ok(nav) =>
        if r.cash != r.units * nav.value then Some("PRICE_MISMATCH")
        else if Get(s.cash, (r.investor, s.products[r.product].currency)) < r.cash then Some("INSUFFICIENT_CASH")
        else None
  }

  function TransferError(w: World, s: State, r: Request): Option<string>
    requires r.TransferRequest?
  {
    if ProductError(s, r.id, r.product).Some? then ProductError(s, r.id, r.product)
    else if r.expiresAt <= w.now then Some("TRANSACTION_EXPIRED")
    else if r.units <= 0 || r.price <= 0 || r.fee < 0 then Some("INVALID_AMOUNT")
    else if r.seller == r.buyer then Some("SELF_TRANSFER")
    else if Get(s.assets, (r.seller, r.product)) < r.units then Some("INSUFFICIENT_ASSET")
    else if EligibleError(w, s, r.product, r.seller, r.sellerCredential, 0).Some? then EligibleError(w, s, r.product, r.seller, r.sellerCredential, 0)
    else if EligibleError(w, s, r.product, r.buyer, r.buyerCredential, r.units).Some? then EligibleError(w, s, r.product, r.buyer, r.buyerCredential, r.units)
    else
      match CurrentNav(s, r.product, w.now)
      case Err(code) => Some(code)
      case Ok(nav) =>
        if Abs(r.price - nav.value) * 10_000 > nav.value * s.products[r.product].maxDeviation then Some("PRICE_DEVIATION")
        else if Get(s.cash, (r.buyer, s.products[r.product].currency)) < r.units * r.price + r.fee then Some("INSUFFICIENT_CASH")
        else None
  }

  function RedeemError(w: World, s: State, r: Request): Option<string>
    requires r.RedeemRequest?
  {
    if ProductError(s, r.id, r.product).Some? then ProductError(s, r.id, r.product)
    else if r.units <= 0 then Some("INVALID_AMOUNT")
    else if ExitError(w, s, r.product, r.investor, r.credential).Some? then ExitError(w, s, r.product, r.investor, r.credential)
    else if Get(s.assets, (r.investor, r.product)) < r.units then Some("INSUFFICIENT_ASSET")
    else
      match CurrentNav(s, r.product, w.now)
      case Err(code) => Some(code)
      case Ok(nav) =>
        if Get(s.cash, (s.products[r.product].issuer, s.products[r.product].currency)) < r.units * nav.value then Some("INSUFFICIENT_REDEMPTION_CASH")
        else None
  }

  // ----- settlement -----

  function SettledLifecycle(now: int): seq<Stamp> {
    [Stamp(Requested, now), Stamp(PolicyChecked, now), Stamp(CashReserved, now), Stamp(RegisterPending, now), Stamp(Settled, now)]
  }

  function FailedLifecycle(now: int): seq<Stamp> {
    [Stamp(Requested, now), Stamp(PolicyChecked, now), Stamp(CashReserved, now), Stamp(RegisterFailed, now), Stamp(RequiresReview, now)]
  }

  function Stages(stamps: seq<Stamp>): seq<Stage> {
    seq(|stamps|, i requires 0 <= i < |stamps| => stamps[i].stage)
  }

  function ReceiptOf(id: string, t: Transaction): Receipt {
    Receipt(id, t.state, t.settledAt, t.mode, Stages(t.lifecycle))
  }

  /** Balances after a settled request: cash first, then the asset ledger and the register alike. */
  function Paid(s: State, r: Request, nav: Nav): Balances
    requires r.product in s.products
  {
    var p := s.products[r.product];
    match r
    case SubscribeRequest(_, _, investor, _, _, cash) => Put(Put(s.cash, (investor, p.currency), -cash), (p.issuer, p.currency), cash)
    case TransferRequest(_, _, seller, _, buyer, _, units, price, fee, _) =>
      Put(Put(Put(s.cash, (buyer, p.currency), -(units * price) - fee), (seller, p.currency), units * price), (p.issuer, p.currency), fee)
    case RedeemRequest(_, _, investor, _, units) =>
      Put(Put(s.cash, (p.issuer, p.currency), -(units * nav.value)), (investor, p.currency), units * nav.value)
  }

  function Moved(m: Balances, r: Request): Balances {
    match r
    case SubscribeRequest(_, product, investor, _, units, _) => Put(m, (investor, product), units)
    case TransferRequest(_, product, seller, _, buyer, _, units, _, _, _) => Put(Put(m, (seller, product), -units), (buyer, product), units)
    case RedeemRequest(_, product, investor, _, units) => Put(m, (investor, product), -units)
  }

  function SettledTransaction(s: State, r: Request, nav: Nav, now: int): Transaction {
    match r
    case SubscribeRequest(_, product, investor, _, units, cash) =>
      Transaction(SUBSCRIBE, product, "", investor, units, 0, cash, 0, 0, nav, STANDARD, Some(now), SETTLED, SettledLifecycle(now))
    case TransferRequest(_, product, seller, _, buyer, _, units, price, fee, expiresAt) =>
      Transaction(TRANSFER, product, seller, buyer, units, price, units * price, fee, expiresAt, nav, STANDARD, Some(now), SETTLED, SettledLifecycle(now))
    case RedeemRequest(_, product, investor, credential, units) =>
      Transaction(REDEEM, product, investor, "", units, 0, units * nav.value, 0, 0, nav,
        if credential in s.restricted then RESTRICTED_EXIT else STANDARD, Some(now), SETTLED, SettledLifecycle(now))
  }

  function Settle(w: World, s: State, r: Request, nav: Nav): State
    requires r.product in s.products
  {
    s.(cash := Paid(s, r, nav), assets := Moved(s.assets, r), register := Moved(s.register, r),
       settlements := s.settlements[r.id := CashRecord(CONFIRMED, w.now)],
       transactions := s.transactions[r.id := SettledTransaction(s, r, nav, w.now)])
  }

  function SettleError(w: World, s: State, r: Request): (e: Option<string>)
    ensures e.None? ==> r.product in s.products && CurrentNav(s, r.product, w.now).Ok? && r.id !in s.transactions
  {
    match r
    case SubscribeRequest(_, _, _, _, _, _) => SubscribeError(w, s, r)
    case TransferRequest(_, _, _, _, _, _, _, _, _, _) => TransferError(w, s, r)
    case RedeemRequest(_, _, _, _, _) => RedeemError(w, s, r)
  }

  /** Runs an operation once per key; the same request gets the stored result, another one a conflict. */
  function Replay(s: State, key: string, r: Request): Option<Reply> {
    if key == "" then Some(Failed("MISSING_IDEMPOTENCY_KEY"))
    else if key !in s.idempotency then None
    else if s.idempotency[key].request != r then Some(Failed("IDEMPOTENCY_CONFLICT"))
    else Some(Receipted(s.idempotency[key].result))
  }

  /** `subscribe`, `transfer` and `redeem`. */
  function Execute(w: World, s: State, key: string, r: Request): (result: (State, Reply))
    ensures s.transactions.Keys <= result.0.transactions.Keys
  {
    if Replay(s, key, r).Some? then (s, Replay(s, key, r).value)
    else if SettleError(w, s, r).Some? then (s, Failed(SettleError(w, s, r).value))
    else
      var t := Settle(w, s, r, CurrentNav(s, r.product, w.now).value);
      var receipt := ReceiptOf(r.id, t.transactions[r.id]);
      (t.(idempotency := t.idempotency[key := Entry(r, receipt)]), Receipted(receipt))
  }

  function FailedTransaction(r: Request, nav: Nav, now: int): Transaction
    requires r.TransferRequest?
  {
    Transaction(TRANSFER, r.product, r.seller, r.buyer, r.units, r.price, r.units * r.price, r.fee, r.expiresAt, nav, EXCEPTION_REVIEW, None,
      REQUIRES_REVIEW, FailedLifecycle(now))
  }

  function CaseId(transaction: string): string {
    "case-" + transaction
  }

  /** `simulateRegisterFailure`: the checks of a transfer, then a released reservation and an open case. */
  function Simulate(w: World, s: State, key: string, r: Request): (State, Reply)
    requires r.TransferRequest?
  {
    if Replay(s, key, r).Some? then (s, Replay(s, key, r).value)
    else if TransferError(w, s, r).Some? then (s, Failed(TransferError(w, s, r).value))
    else
      var t := FailedTransaction(r, CurrentNav(s, r.product, w.now).value, w.now);
      var receipt := ReceiptOf(r.id, t);
      (s.(settlements := s.settlements[r.id := CashRecord(RELEASED, w.now)], transactions := s.transactions[r.id := t],
          cases := s.cases[CaseId(r.id) := Case(r.id, r.product, OPEN, None, None, None, r)],
          idempotency := s.idempotency[key := Entry(r, receipt)]), Receipted(receipt))
  }

  // ----- exceptions -----

  function Mark(t: Transaction, state: TxState, stage: Stage, now: int): Transaction {
    t.(state := state, lifecycle := t.lifecycle + [Stamp(stage, now)])
  }

  function Propose(w: World, s: State, id: string, maker: string, retry: bool, replacement: string): (State, Reply) {
    if id !in s.cases || s.cases[id].transaction !in s.transactions then (s, Failed("UNKNOWN_EXCEPTION"))
    else if s.cases[id].status != OPEN then (s, Failed("EXCEPTION_NOT_OPEN"))
    else if maker == "" then (s, Failed("MISSING_MAKER"))
    else if retry && replacement == "" then (s, Failed("MISSING_REPLACEMENT_ID"))
    else
      var c := s.cases[id];
      (s.(transactions := s.transactions[c.transaction := Mark(s.transactions[c.transaction], PENDING_APPROVAL, ReviewProposed, w.now)],
          cases := s.cases[id := c.(status := PENDING, proposal := Some(Proposal(retry, replacement, maker)))]), Accepted)
  }

  function RetryKey(id: string, replacement: string): string {
    "exception-retry:" + id + ":" + replacement
  }

  function Resolve(s: State, id: string, state: TxState, stage: Stage, c: Case, now: int): State
    requires c.transaction in s.transactions
  {
    s.(transactions := s.transactions[c.transaction := Mark(s.transactions[c.transaction], state, stage, now)], cases := s.cases[id := c])
  }

  function Approve(w: World, s: State, id: string, checker: string): (State, Reply) {
    if id !in s.cases || s.cases[id].transaction !in s.transactions then (s, Failed("UNKNOWN_EXCEPTION"))
    else if s.cases[id].status != PENDING || s.cases[id].proposal.None? then (s, Failed("EXCEPTION_NOT_PENDING_APPROVAL"))
    else if checker == "" then (s, Failed("MISSING_CHECKER"))
    else if checker == s.cases[id].proposal.value.maker then (s, Failed("MAKER_CHECKER_CONFLICT"))
    else Decide(w, s, id, checker)
  }

  /** Cancels, or retries through `transfer`; a refused retry reopens the case. */
  function Decide(w: World, s: State, id: string, checker: string): (State, Reply)
    requires id in s.cases && s.cases[id].proposal.Some? && s.cases[id].transaction in s.transactions
  {
    var c := s.cases[id];
    var p := c.proposal.value;
    var approved := s.(transactions := s.transactions[c.transaction := Mark(s.transactions[c.transaction], s.transactions[c.transaction].state, ReviewApproved, w.now)]);
    if !p.retry then
      (Resolve(approved, id, CANCELLED, Cancelled, c.(status := RESOLVED_CANCELLED, checker := Some(checker)), w.now), Accepted)
    else
      var (t, reply) := Execute(w, approved, RetryKey(id, p.replacement), Renamed(c.retry, p.replacement));
      if reply.Failed? then
        (Resolve(approved, id, REQUIRES_REVIEW, RetryBlocked, c.(status := OPEN, proposal := None), w.now), reply)
      else
        (Resolve(t, id, REPLACED, Replaced, c.(status := RESOLVED_RETRIED, replacement := Some(p.replacement), checker := Some(checker)), w.now), Accepted)
  }

  // ----- set-up -----

  function CreateProduct(w: World, s: State, id: string, p: Product): (State, Reply) {
    if id in s.products then (s, Failed("DUPLICATE_PRODUCT"))
    else if !w.allowed then (s, Failed("UNAUTHORIZED_ISSUER"))
    else if p.currency == "" || p.classes == [] || p.jurisdictions == [] || p.maxDeviation < 0 || p.maxDeviation > 10_000 then (s, Failed("INVALID_RULES"))
    else (s.(products := s.products[id := p.(status := DRAFT)]), Accepted)
  }

  function Activate(w: World, s: State, id: string): (State, Reply) {
    if id !in s.products then (s, Failed("UNKNOWN_PRODUCT"))
    else if s.products[id].status == ACTIVE then (s, Failed("INVALID_PRODUCT_STATE"))
    else if !w.allowed then (s, Failed("INVALID_ROLE_ASSIGNMENT"))
    else (s.(products := s.products[id := s.products[id].(status := ACTIVE)]), Accepted)
  }

  function Pause(s: State, id: string): (State, Reply) {
    if id !in s.products then (s, Failed("UNKNOWN_PRODUCT"))
    else if s.products[id].status != ACTIVE then (s, Failed("INVALID_PRODUCT_STATE"))
    else (s.(products := s.products[id := s.products[id].(status := PAUSED)]), Accepted)
  }

  function RegisterCredential(w: World, s: State, id: string, c: Credential): (State, Reply) {
    if c.product !in s.products then (s, Failed("UNKNOWN_PRODUCT"))
    else if !w.allowed then (s, Failed("UNAUTHORIZED_CREDENTIAL_ISSUER"))
    else if !w.signed(id) then (s, Failed("INVALID_SIGNATURE"))
    else if id in s.credentials then (s, Failed("DUPLICATE_CREDENTIAL"))
    else if c.validUntil <= c.validFrom then (s, Failed("INVALID_CREDENTIAL_TIME"))
    else if c.maxUnits <= 0 then (s, Failed(if c.maxUnits < 0 then "INVALID_AMOUNT" else "INVALID_CREDENTIAL_LIMIT"))
    else (s.(credentials := s.credentials[id := c]), Accepted)
  }

  function RevokeCredential(s: State, id: string): (State, Reply) {
    if id !in s.credentials then (s, Failed("UNKNOWN_CREDENTIAL"))
    else if id in s.restricted then (s, Failed("CREDENTIAL_ALREADY_RESTRICTED"))
    else (s.(restricted := s.restricted + {id}), Accepted)
  }

  function SubmitNav(w: World, s: State, nav: Nav): (State, Reply) {
    if nav.product !in s.products then (s, Failed("UNKNOWN_PRODUCT"))
    else if !w.allowed then (s, Failed("UNAUTHORIZED_EVIDENCE_SOURCE"))
    else if !w.signed(nav.id) then (s, Failed("INVALID_SIGNATURE"))
    else if nav.expiresAt <= nav.effectiveAt then (s, Failed("INVALID_EVIDENCE_TIME"))
    else if nav.value <= 0 then (s, Failed(if nav.value < 0 then "INVALID_AMOUNT" else "INVALID_NAV"))
    else if exists i :: 0 <= i < |s.navs| && s.navs[i].id == nav.id then (s, Failed("DUPLICATE_EVIDENCE"))
    else (s.(navs := s.navs + [nav]), Accepted)
  }

  function CreditCash(s: State, account: string, currency: string, amount: int): (State, Reply) {
    if amount < 0 then (s, Failed("INVALID_AMOUNT"))
    else (s.(cash := Put(s.cash, (account, currency), amount), credited := s.credited + [Credit(account, currency, amount)]), Accepted)
  }

  datatype Action =
    | DoCreateProduct(id: string, product: Product)
    | DoActivate(id: string)
    | DoPause(id: string)
    | DoRegisterCredential(id: string, credential: Credential)
    | DoRevokeCredential(id: string)
    | DoSubmitNav(nav: Nav)
    | DoCredit(account: string, currency: string, amount: int)
    | DoExecute(key: string, request: Request)
    | DoSimulate(key: string, request: Request)
    | DoPropose(id: string, maker: string, retry: bool, replacement: string)
    | DoApprove(id: string, checker: string)

  datatype Event = Event(world: World, action: Action)

  /** Calls that set up products, credentials and evidence. */
  function Configure(s: State, e: Event): (State, Reply) {
    match e.action
    case DoCreateProduct(id, p) => CreateProduct(e.world, s, id, p)
    case DoActivate(id) => Activate(e.world, s, id)
    case DoPause(id) => Pause(s, id)
    case DoRegisterCredential(id, c) => RegisterCredential(e.world, s, id, c)
    case DoRevokeCredential(id) => RevokeCredential(s, id)
    case DoSubmitNav(nav) => SubmitNav(e.world, s, nav)
    case _ => (s, Failed("INVALID_REQUEST"))
  }

  function Step(s: State, e: Event): (State, Reply) {
    match e.action
    case DoExecute(key, r) => Execute(e.world, s, key, r)
    case DoSimulate(key, r) => if r.TransferRequest? then Simulate(e.world, s, key, r) else (s, Failed("INVALID_REQUEST"))
    case DoPropose(id, maker, retry, replacement) => Propose(e.world, s, id, maker, retry, replacement)
    case DoApprove(id, checker) => Approve(e.world, s, id, checker)
    case DoCredit(account, currency, amount) => CreditCash(s, account, currency, amount)
    case _ => Configure(s, e)
  }

  function Run(events: seq<Event>): State {
    if events == [] then INITIAL else Step(Run(events[..|events| - 1]), events[|events| - 1]).0
  }

  // ----- reports -----

  predicate AtCreation(stage: Stage) {
    stage in {Requested, PolicyChecked, CashReserved, RegisterPending, RegisterFailed, RequiresReview, Settled}
  }

  function Creation(stamps: seq<Stamp>): seq<Stamp> {
    if stamps == [] then []
    else Creation(stamps[..|stamps| - 1]) + if AtCreation(stamps[|stamps| - 1].stage) then [stamps[|stamps| - 1]] else []
  }

  /** The hashed core of a transaction's evidence package. */
  datatype EvidenceCore = EvidenceCore(id: string, product: string, kind: Kind, settledAtCreation: bool, nav: Nav, mode: Mode,
    lifecycle: seq<Stamp>, cash: Option<CashRecord>)

  function EvidencePackage(s: State, id: string): Result<EvidenceCore> {
    if id !in s.transactions then Err("UNKNOWN_TRANSACTION")
    else
      var t := s.transactions[id];
      Ok(EvidenceCore(id, t.product, t.kind, t.settledAt.Some?, t.nav, t.mode, Creation(t.lifecycle),
        if id in s.settlements then Some(s.settlements[id]) else None))
  }
}
