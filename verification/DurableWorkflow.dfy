/**
 The durable settlement workflow: intents with their state machine, double-entry
 settlement in ledger and register, and exceptions whose retry may be rolled back to a
 savepoint. A database transaction is one step; account identifiers are tuples, and
 cash and unit assets are distinct by construction.
 */
module DurableWorkflow {
  import opened Common
  import opened Ledger

  datatype Product = Product(issuer: string, currency: string, classes: seq<string>, jurisdictions: seq<string>, maxDeviation: int, active: bool)

  datatype Credential = Credential(product: string, subject: string, investorClass: string, jurisdiction: string,
    validFrom: int, validUntil: int, maxUnits: int, restricted: bool)

  datatype Nav = Nav(id: string, product: string, currency: string, value: int, effectiveAt: int, expiresAt: int)

  datatype Request =
    | SubscribeRequest(id: string, product: string, investor: string, credential: string, units: int, cash: int)
    | TransferRequest(id: string, product: string, seller: string, sellerCredential: string, buyer: string, buyerCredential: string,
        units: int, price: int, fee: int, expiresAt: int)
    | RedeemRequest(id: string, product: string, investor: string, credential: string, units: int)

  /** The same request under another identifier. */
  function Renamed(r: Request, id: string): Request {
    match r
    case SubscribeRequest(_, product, investor, credential, units, cash) => SubscribeRequest(id, product, investor, credential, units, cash)
    case TransferRequest(_, product, seller, sellerCredential, buyer, buyerCredential, units, price, fee, expiresAt) =>
      TransferRequest(id, product, seller, sellerCredential, buyer, buyerCredential, units, price, fee, expiresAt)
    case RedeemRequest(_, product, investor, credential, units) => RedeemRequest(id, product, investor, credential, units)
  }

  datatype TxState =
    | REQUESTED | POLICY_CHECKED | CASH_RESERVED | REGISTER_PENDING | PROOF_PENDING | ROOT_PENDING | SETTLED
    | REQUIRES_REVIEW | PENDING_APPROVAL | REPLACED | CANCELLED | REJECTED

  /** The transition table. */
  predicate MayFollow(from: TxState, to: TxState) {
    match from
    case REQUESTED => to == POLICY_CHECKED || to == REJECTED
    case POLICY_CHECKED => to == CASH_RESERVED || to == PROOF_PENDING || to == REJECTED
    case CASH_RESERVED => to == REGISTER_PENDING || to == REQUIRES_REVIEW || to == REJECTED
    case REGISTER_PENDING => to == SETTLED || to == REQUIRES_REVIEW || to == REJECTED
    case PROOF_PENDING => to == ROOT_PENDING || to == REQUIRES_REVIEW || to == REJECTED
    case ROOT_PENDING => to == SETTLED
    case REQUIRES_REVIEW => to == PENDING_APPROVAL || to == CANCELLED
    case PENDING_APPROVAL => to == REQUIRES_REVIEW || to == REPLACED || to == CANCELLED
    case _ => false
  }

  datatype Receipt = Receipt(transaction: string, state: TxState, restrictedExit: bool)

  /** A transaction row with its recorded states, oldest first, and its receipt once stored. */
  datatype Intent = Intent(key: string, request: Request, state: TxState, history: seq<TxState>, receipt: Option<Receipt>)

  datatype CaseStatus = OPEN | PENDING | RESOLVED_RETRIED | RESOLVED_CANCELLED

  /** One approval round: the maker's proposal and, once decided, the checker. */
  datatype Round = Round(maker: string, retry: bool, replacement: string, checker: Option<string>)

  datatype Case = Case(transaction: string, status: CaseStatus, rounds: seq<Round>, replacement: Option<string>)

  datatype State = State(
    products: map<string, Product>, credentials: map<string, Credential>, navs: seq<Nav>,
    accounts: set<Account>, registerAccounts: set<Account>, ledger: seq<Batch>, register: seq<Batch>,
    intents: map<string, Intent>, keys: map<string, string>, cases: map<string, Case>)

  const INITIAL: State := State(map[], map[], [], {}, {}, [], [], map[], map[], map[])

  /** One transaction's clock and whether the product has a cash provider assigned. */
  datatype World = World(now: int, cashProvider: bool)

  datatype Reply = Accepted | Receipted(receipt: Receipt) | RetryBlocked(code: string) | Failed(code: string)

  // ----- accounts and entries -----

  function InvestorCash(p: string, owner: string, currency: string): Account { Account(p, owner, Cash(currency), INVESTOR) }

  function IssuerCash(p: string, owner: string, currency: string): Account { Account(p, owner, Cash(currency), ISSUER) }

  function FeeCash(p: string, owner: string, currency: string): Account { Account(p, owner, Cash(currency), FEE) }

  function InvestorUnits(p: string, owner: string): Account { Account(p, owner, Units(p), INVESTOR) }

  function Treasury(p: string): Account { Account(p, "TREASURY", Units(p), TREASURY) }

  /** A debit and a credit of the same amount. */
  function Move(from: Account, to: Account, amount: int): seq<Entry> {
    [Entry(from, from.asset, -amount), Entry(to, to.asset, amount)]
  }

  function CashEntries(r: Request, p: Product, nav: int): seq<Entry> {
    match r
    case SubscribeRequest(_, product, investor, _, _, cash) =>
      Move(InvestorCash(product, investor, p.currency), IssuerCash(product, p.issuer, p.currency), cash)
    case TransferRequest(_, product, seller, _, buyer, _, units, price, fee, _) =>
      var from, to := InvestorCash(product, buyer, p.currency), InvestorCash(product, seller, p.currency);
      [Entry(from, from.asset, -(units * price + fee)), Entry(to, to.asset, units * price)]
        + if fee == 0 then [] else [Entry(FeeCash(product, p.issuer, p.currency), Cash(p.currency), fee)]
    case RedeemRequest(_, product, investor, _, units) =>
      Move(IssuerCash(product, p.issuer, p.currency), InvestorCash(product, investor, p.currency), units * nav)
  }

  /** The unit movement, posted alike to ledger and register. */
  function UnitEntries(r: Request): seq<Entry> {
    match r
    case SubscribeRequest(_, product, investor, _, units, _) => Move(Treasury(product), InvestorUnits(product, investor), units)
    case TransferRequest(_, product, seller, _, buyer, _, units, _, _, _) => Move(InvestorUnits(product, seller), InvestorUnits(product, buyer), units)
    case RedeemRequest(_, product, investor, _, units) => Move(InvestorUnits(product, investor), Treasury(product), units)
  }

  function AccountsOf(entries: seq<Entry>): set<Account> {
    set i | 0 <= i < |entries| :: entries[i].account
  }

  // ----- checks -----

  predicate NavUsable(nav: Nav, product: string, now: int) {
    nav.product == product && nav.effectiveAt <= now < nav.expiresAt
  }

  /** The latest effective NAV among those that have not expired. */
  function BestNav(navs: seq<Nav>, n: nat, product: string, now: int): (r: Option<nat>)
    requires n <= |navs|
    ensures r.Some? ==> r.value < n && NavUsable(navs[r.value], product, now)
    ensures r.Some? ==> forall i :: 0 <= i < n && NavUsable(navs[i], product, now) ==> navs[i].effectiveAt <= navs[r.value].effectiveAt
    ensures r.None? ==> forall i :: 0 <= i < n ==> !NavUsable(navs[i], product, now)
  {
    if n == 0 then None
    else
      var best := BestNav(navs, n - 1, product, now);
      if NavUsable(navs[n - 1], product, now) && (best.None? || navs[best.value].effectiveAt < navs[n - 1].effectiveAt) then Some(n - 1) else best
  }

  function CredentialError(w: World, s: State, p: Product, product: string, subject: string, credential: string, more: int, restrictedExit: bool): Option<string> {
    if credential !in s.credentials || s.credentials[credential].product != product then Some("UNKNOWN_CREDENTIAL")
    else
      var c := s.credentials[credential];
      if c.subject != subject then Some("CREDENTIAL_SUBJECT")
      else if !(c.validFrom <= w.now < c.validUntil) then Some("CREDENTIAL_TIME")
      else if c.restricted && !restrictedExit then Some("CREDENTIAL_REVOKED")
      else if c.investorClass !in p.classes then Some("INVESTOR_CLASS")
      else if c.jurisdiction !in p.jurisdictions then Some("INVESTOR_JURISDICTION")
      else if more > 0 && Balance(s.register, InvestorUnits(product, subject)) + more > c.maxUnits then Some("HOLDING_LIMIT")
      else None
  }

  function Abs(x: int): nat {
    if x < 0 then -x else x
  }

  function SubscribeError(w: World, s: State, r: Request, p: Product, nav: int): Option<string>
    requires r.SubscribeRequest?
  {
    if CredentialError(w, s, p, r.product, r.investor, r.credential, r.units, false).Some?
      then CredentialError(w, s, p, r.product, r.investor, r.credential, r.units, false)
    else if r.cash <= 0 then Some("INVALID_AMOUNT")
    else if r.cash != r.units * nav then Some("PRICE_MISMATCH")
    else if Balance(s.ledger, InvestorCash(r.product, r.investor, p.currency)) < r.cash then Some("INSUFFICIENT_CASH")
    else None
  }

  function TransferError(w: World, s: State, r: Request, p: Product, nav: int): Option<string>
    requires r.TransferRequest?
  {
    if r.expiresAt <= w.now then Some("TRANSACTION_EXPIRED")
    else if r.seller == r.buyer then Some("SELF_TRANSFER")
    else if CredentialError(w, s, p, r.product, r.seller, r.sellerCredential, 0, false).Some?
      then CredentialError(w, s, p, r.product, r.seller, r.sellerCredential, 0, false)
    else if CredentialError(w, s, p, r.product, r.buyer, r.buyerCredential, r.units, false).Some?
      then CredentialError(w, s, p, r.product, r.buyer, r.buyerCredential, r.units, false)
    else if r.price <= 0 || r.fee < 0 then Some("INVALID_AMOUNT")
    else if Abs(r.price - nav) * 10_000 > nav * p.maxDeviation then Some("PRICE_DEVIATION")
    else if Balance(s.ledger, InvestorUnits(r.product, r.seller)) < r.units then Some("INSUFFICIENT_ASSET")
    else if Balance(s.ledger, InvestorCash(r.product, r.buyer, p.currency)) < r.units * r.price + r.fee then Some("INSUFFICIENT_CASH")
    else None
  }

  function RedeemError(w: World, s: State, r: Request, p: Product, nav: int): Option<string>
    requires r.RedeemRequest?
  {
    if CredentialError(w, s, p, r.product, r.investor, r.credential, 0, true).Some?
      then CredentialError(w, s, p, r.product, r.investor, r.credential, 0, true)
    else if Balance(s.ledger, InvestorUnits(r.product, r.investor)) < r.units then Some("INSUFFICIENT_ASSET")
    else if Balance(s.ledger, IssuerCash(r.product, p.issuer, p.currency)) < r.units * nav then Some("INSUFFICIENT_REDEMPTION_CASH")
    else None
  }

  function KindError(w: World, s: State, r: Request, p: Product, nav: int): Option<string> {
    match r
    case SubscribeRequest(_, _, _, _, _, _) => SubscribeError(w, s, r, p, nav)
    case TransferRequest(_, _, _, _, _, _, _, _, _, _) => TransferError(w, s, r, p, nav)
    case RedeemRequest(_, _, _, _, _) => RedeemError(w, s, r, p, nav)
  }

  /** The NAV a request settles at, or why it is refused. */
  function Priced(w: World, s: State, r: Request): Result<int> {
    if r.product !in s.products || !s.products[r.product].active then Err("PRODUCT_NOT_ACTIVE")
    else
      match BestNav(s.navs, |s.navs|, r.product, w.now)
      case None => Err("MISSING_EVIDENCE")
      case Some(i) =>
        if s.navs[i].currency != s.products[r.product].currency then Err("EVIDENCE_CURRENCY")
        else if r.units <= 0 then Err("INVALID_AMOUNT")
        else if KindError(w, s, r, s.products[r.product], s.navs[i].value).Some? then Err(KindError(w, s, r, s.products[r.product], s.navs[i].value).value)
        else Ok(s.navs[i].value)
  }

  // ----- settlement -----

  /** `appendLedgerBatch` and `appendRegisterBatch`: balanced entries on existing accounts only. */
  function Append(batches: seq<Batch>, accounts: set<Account>, b: Batch, unknown: string): Result<seq<Batch>> {
    if BatchError(b.entries).Some? then Err(BatchError(b.entries).value)
    else if !(AccountsOf(b.entries) <= accounts) then Err(unknown)
    else Ok(batches + [b])
  }

  const SETTLED_PATH: seq<TxState> := [REQUESTED, POLICY_CHECKED, CASH_RESERVED, REGISTER_PENDING, SETTLED]

  const REVIEW_PATH: seq<TxState> := [REQUESTED, POLICY_CHECKED, CASH_RESERVED, REQUIRES_REVIEW]

  function RestrictedExit(s: State, r: Request): bool {
    r.RedeemRequest? && r.credential in s.credentials && s.credentials[r.credential].restricted
  }

  function CaseId(transaction: string): string {
    "case-" + transaction
  }

  function LedgerBatch(r: Request, p: Product, nav: int): Batch {
    Batch("ledger:" + r.id, Some(r.id), CashEntries(r, p, nav) + UnitEntries(r))
  }

  function RegisterBatch(r: Request): Batch {
    Batch("register:" + r.id, Some(r.id), UnitEntries(r))
  }

  /** A settled request posts one ledger batch and one register batch. */
  function Post(w: World, s: State, key: string, r: Request, nav: int): (State, Reply)
    requires r.product in s.products
  {
    match Append(s.ledger, s.accounts, LedgerBatch(r, s.products[r.product], nav), "UNKNOWN_LEDGER_ACCOUNT")
    case Err(code) => (s, Failed(code))
    case Ok(ledger) =>
      match Append(s.register, s.registerAccounts, RegisterBatch(r), "UNKNOWN_REGISTER_ACCOUNT")
      case Err(code) => (s, Failed(code))
      case Ok(register) =>
        if !w.cashProvider then (s, Failed("MISSING_ROLE"))
        else
          var receipt := Receipt(r.id, SETTLED, RestrictedExit(s, r));
          (s.(ledger := ledger, register := register, keys := s.keys[key := r.id],
              intents := s.intents[r.id := Intent(key, r, SETTLED, SETTLED_PATH, Some(receipt))]), Receipted(receipt))
  }

  /** A simulated register failure books nothing and opens a case. */
  function Review(w: World, s: State, key: string, r: Request): (State, Reply) {
    if !w.cashProvider then (s, Failed("MISSING_ROLE"))
    else
      var receipt := Receipt(r.id, REQUIRES_REVIEW, false);
      (s.(keys := s.keys[key := r.id], intents := s.intents[r.id := Intent(key, r, REQUIRES_REVIEW, REVIEW_PATH, Some(receipt))],
          cases := s.cases[CaseId(r.id) := Case(r.id, OPEN, [], None)]), Receipted(receipt))
  }

  /** `#settleInTransaction`: replays are answered first, and any failure leaves nothing behind. */
  function Settle(w: World, s: State, key: string, r: Request, registerFailure: bool): (result: (State, Reply))
    ensures s.intents.Keys <= result.0.intents.Keys
    ensures result.1.Receipted? || (result.1.Failed? && result.0 == s)
  {
    if key in s.keys && s.keys[key] in s.intents then
      var i := s.intents[s.keys[key]];
      if i.request != r then (s, Failed("IDEMPOTENCY_CONFLICT"))
      else if i.receipt.None? then (s, Failed("IDEMPOTENCY_IN_FLIGHT"))
      else (s, Receipted(i.receipt.value))
    else
      match Priced(w, s, r)
      case Err(code) => (s, Failed(code))
      case Ok(nav) =>
        if r.id in s.intents then (s, Failed("23505"))
        else if registerFailure then Review(w, s, key, r)
        else Post(w, s, key, r, nav)
  }

  // ----- exceptions -----

  function Transition(i: Intent, to: TxState): Result<Intent> {
    if MayFollow(i.state, to) then Ok(i.(state := to, history := i.history + [to])) else Err("INVALID_STATE_TRANSITION")
  }

  function Propose(s: State, id: string, maker: string, retry: bool, replacement: string): (State, Reply) {
    if retry == (replacement == "") then (s, Failed("INVALID_APPROVAL_PAYLOAD"))
    else if id !in s.cases || s.cases[id].status != OPEN || s.cases[id].transaction !in s.intents then (s, Failed("INVALID_EXCEPTION_STATE"))
    else
      var c := s.cases[id];
      match Transition(s.intents[c.transaction], PENDING_APPROVAL)
      case Err(code) => (s, Failed(code))
      case Ok(i) =>
        (s.(intents := s.intents[c.transaction := i],
            cases := s.cases[id := c.(status := PENDING, rounds := c.rounds + [Round(maker, retry, replacement, None)])]), Accepted)
  }

  function Checked(c: Case, checker: string): Case
    requires c.rounds != []
  {
    var n := |c.rounds| - 1;
    c.(rounds := c.rounds[n := c.rounds[n].(checker := Some(checker))])
  }

  /** Moves the original and its case together. */
  function Close(s: State, id: string, c: Case, to: TxState, status: CaseStatus, replacement: Option<string>): (State, Reply)
    requires c.transaction in s.intents
  {
    match Transition(s.intents[c.transaction], to)
    case Err(code) => (s, Failed(code))
    case Ok(i) =>
      (s.(intents := s.intents[c.transaction := i], cases := s.cases[id := c.(status := status, replacement := replacement)]), Accepted)
  }

  function RetryKey(id: string, replacement: string): string {
    "exception-retry:" + id + ":" + replacement
  }

  function Approve(w: World, s: State, id: string, checker: string, approve: bool): (State, Reply) {
    if id !in s.cases || s.cases[id].status != PENDING || s.cases[id].rounds == [] || s.cases[id].transaction !in s.intents
      then (s, Failed("INVALID_EXCEPTION_STATE"))
    else
      var c := s.cases[id];
      var round := c.rounds[|c.rounds| - 1];
      if round.maker == checker then (s, Failed("MAKER_CHECKER_CONFLICT"))
      else if !approve then Close(s, id, Checked(c, checker), REQUIRES_REVIEW, OPEN, None)
      else if !round.retry then Close(s, id, Checked(c, checker), CANCELLED, RESOLVED_CANCELLED, None)
      else Retry(w, s, id, Checked(c, checker), round.replacement)
  }

  /** Settles the replacement under a savepoint: a failure is rolled back and returns the case for review. */
  function Retry(w: World, s: State, id: string, c: Case, replacement: string): (State, Reply)
    requires c.transaction in s.intents
  {
    var (t, reply) := Settle(w, s, RetryKey(id, replacement), Renamed(s.intents[c.transaction].request, replacement), false);
    if reply.Failed? then
      var (u, closed) := Close(s, id, c, REQUIRES_REVIEW, OPEN, None);
      (u, if closed == Accepted then RetryBlocked(reply.code) else closed)
    else Close(t, id, c, REPLACED, RESOLVED_RETRIED, Some(replacement))
  }

  // ----- set-up -----

  function Opening(s: State, product: string, owner: string, amount: int): (State, Reply) {
    if product !in s.products || amount <= 0 then (s, Accepted)
    else
      var currency := s.products[product].currency;
      var id := "opening:" + product + ":" + owner + ":" + currency;
      if exists i :: 0 <= i < |s.ledger| && s.ledger[i].id == id then (s, Accepted)
      else
        var clearing := Account(product, "EXTERNAL_CASH", Cash(currency), CASH_CLEARING);
        match Append(s.ledger, s.accounts, Batch(id, None, Move(InvestorCash(product, owner, currency), clearing, -amount)), "UNKNOWN_LEDGER_ACCOUNT")
        case Err(code) => (s, Failed(code))
        case Ok(ledger) => (s.(ledger := ledger), Accepted)
  }

  datatype Action =
    | AddProduct(id: string, product: Product)
    | SetStatus(id: string, active: bool)
    | AddCredential(id: string, credential: Credential)
    | Restrict(id: string)
    | AddNav(nav: Nav)
    | AddAccounts(accounts: set<Account>, registerAccounts: set<Account>)
    | Open(id: string, owner: string, amount: int)
    | DoSettle(key: string, request: Request, registerFailure: bool)
    | DoPropose(id: string, maker: string, retry: bool, replacement: string)
    | DoApprove(id: string, checker: string, approve: bool)

  datatype Event = Event(world: World, action: Action)

  /** NAV evidence enters only with a positive value, as the in-memory engine has checked. */
  function Step(s: State, e: Event): (State, Reply) {
    match e.action
    case AddProduct(id, p) => if id in s.products then (s, Accepted) else (s.(products := s.products[id := p]), Accepted)
    case SetStatus(id, active) =>
      if id !in s.products then (s, Failed("UNKNOWN_PRODUCT"))
      else if s.products[id].active == active then (s, Failed("INVALID_PRODUCT_STATE"))
      else (s.(products := s.products[id := s.products[id].(active := active)]), Accepted)
    case AddCredential(id, c) => if id in s.credentials then (s, Accepted) else (s.(credentials := s.credentials[id := c]), Accepted)
    case Restrict(id) =>
      if id !in s.credentials || s.credentials[id].restricted then (s, Failed("INVALID_CREDENTIAL_STATE"))
      else (s.(credentials := s.credentials[id := s.credentials[id].(restricted := true)]), Accepted)
    case AddNav(nav) =>
      if nav.value <= 0 || exists i :: 0 <= i < |s.navs| && s.navs[i].id == nav.id then (s, Accepted) else (s.(navs := s.navs + [nav]), Accepted)
    case AddAccounts(accounts, registerAccounts) =>
      (s.(accounts := s.accounts + accounts, registerAccounts := s.registerAccounts + registerAccounts), Accepted)
    case Open(product, owner, amount) => Opening(s, product, owner, amount)
    case DoSettle(key, r, registerFailure) =>
      if registerFailure && !r.TransferRequest? then (s, Failed("INVALID_REQUEST")) else Settle(e.world, s, key, r, registerFailure)
    case DoPropose(id, maker, retry, replacement) => Propose(s, id, maker, retry, replacement)
    case DoApprove(id, checker, approve) => Approve(e.world, s, id, checker, approve)
  }

  function Run(events: seq<Event>): State {
    if events == [] then INITIAL else Step(Run(events[..|events| - 1]), events[|events| - 1]).0
  }
}
