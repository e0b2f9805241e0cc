/** What every sequence of calls keeps in the in-memory engine: conservation, the register mirror, limits, prices and the exception workflow. */
module ControlPlaneSafety {
  import opened Common
  import opened Sums
  import opened ControlPlane

  // ----- money and units -----

  /** Counts entries whose second component is the given currency or product. */
  function InColumn(c: string): ((string, string), int) -> int {
    (k: (string, string), v: int) => if k.1 == c then v else 0
  }

  ghost function Total(m: Balances, c: string): int {
    Sum(m, InColumn(c))
  }

  lemma PutTotal(m: Balances, k: (string, string), d: int, c: string)
    ensures Total(Put(m, k, d), c) == Total(m, c) + if k.1 == c then d else 0
  {
    SumUpdate(m, InColumn(c), k, Get(m, k) + d);
  }

  function Credits(credited: seq<Credit>, currency: string): int {
    if credited == [] then 0
    else Credits(credited[..|credited| - 1], currency) + if credited[|credited| - 1].currency == currency then credited[|credited| - 1].amount else 0
  }

  ghost predicate NonNegative(m: Balances) {
    forall k :: k in m ==> m[k] >= 0
  }

  lemma PutNonNegative(m: Balances, k: (string, string), d: int)
    requires NonNegative(m) && Get(m, k) + d >= 0
    ensures NonNegative(Put(m, k, d))
  {
  }

  /** Cash of each currency is what was credited, and no balance is negative. */
  ghost predicate Money(s: State) {
    NonNegative(s.cash) && forall c :: Total(s.cash, c) == Credits(s.credited, c)
  }

  /** What a settled transaction adds to a product's units. */
  function UnitsOf(product: string): (string, Transaction) -> int {
    (id: string, t: Transaction) =>
      if t.product != product || t.state != SETTLED then 0
      else if t.kind == SUBSCRIBE then t.units
      else if t.kind == REDEEM then -t.units
      else 0
  }

  /** The register mirrors the asset ledger, and a product's units are settled subscriptions minus redemptions. */
  ghost predicate Units(s: State) {
    s.assets == s.register && NonNegative(s.assets) && forall p :: Total(s.assets, p) == Sum(s.transactions, UnitsOf(p))
  }

  lemma MoneySettles(w: World, s: State, r: Request)
    requires Money(s) && NavsGood(s.navs) && SettleError(w, s, r).None?
    ensures Money(Settle(w, s, r, CurrentNav(s, r.product, w.now).value))
  {
    hide Total, EligibleError, ExitError, LatestNav, NonNegative, Put, Get, Credits;
    var nav := CurrentNav(s, r.product, w.now).value;
    var p := s.products[r.product];
    match r {
      case SubscribeRequest(_, _, investor, _, _, amount) =>
        Transfers(s.cash, (investor, p.currency), (p.issuer, p.currency), amount);
      case RedeemRequest(_, _, investor, _, units) =>
        NonNegativeProduct(units, nav.value);
        Transfers(s.cash, (p.issuer, p.currency), (investor, p.currency), units * nav.value);
      case TransferRequest(_, _, seller, _, buyer, _, units, price, fee, _) =>
        NonNegativeProduct(units, price);
        Splits(s.cash, (buyer, p.currency), (seller, p.currency), (p.issuer, p.currency), units * price, fee);
    }
  }

  lemma NonNegativeProduct(a: int, b: int)
    requires a >= 0 && b >= 0
    ensures a * b >= 0
  {
  }

  /** Moving an amount between two balances of a currency, which may be the same one. */
  lemma Transfers(m: Balances, from: (string, string), to: (string, string), amount: int)
    requires NonNegative(m) && 0 <= amount <= Get(m, from) && from.1 == to.1
    ensures var t := Put(Put(m, from, -amount), to, amount); NonNegative(t) && forall c :: Total(t, c) == Total(m, c)
  {
    hide Total;
    var once := Put(m, from, -amount);
    PutNonNegative(m, from, -amount);
    PutNonNegative(once, to, amount);
    forall c ensures Total(Put(once, to, amount), c) == Total(m, c) {
      PutTotal(m, from, -amount, c);
      PutTotal(once, to, amount, c);
    }
  }

  /** Paying a price and a fee from one balance to two others, any of which may coincide. */
  lemma Splits(m: Balances, from: (string, string), first: (string, string), second: (string, string), price: int, fee: int)
    requires NonNegative(m) && 0 <= price && 0 <= fee && price + fee <= Get(m, from) && from.1 == first.1 == second.1
    ensures var t := Put(Put(Put(m, from, -price - fee), first, price), second, fee); NonNegative(t) && forall c :: Total(t, c) == Total(m, c)
  {
    hide Total;
    var once := Put(m, from, -price - fee);
    var twice := Put(once, first, price);
    PutNonNegative(m, from, -price - fee);
    PutNonNegative(once, first, price);
    PutNonNegative(twice, second, fee);
    forall c ensures Total(Put(twice, second, fee), c) == Total(m, c) {
      PutTotal(m, from, -price - fee, c);
      PutTotal(once, first, price, c);
      PutTotal(twice, second, fee, c);
    }
  }

  /** Settling changes a product's asset total by the settled transaction's own contribution. */
  lemma UnitsSettle(w: World, s: State, r: Request)
    requires Units(s) && SettleError(w, s, r).None?
    ensures Units(Settle(w, s, r, CurrentNav(s, r.product, w.now).value))
  {
    hide Total, EligibleError, ExitError, CurrentNav, NonNegative, Put, Get, Paid;
    var nav := CurrentNav(s, r.product, w.now).value;
    var t := SettledTransaction(s, r, nav, w.now);
    UnitsMoved(w, s, r);
    forall p ensures Total(Moved(s.assets, r), p) == Sum(s.transactions[r.id := t], UnitsOf(p)) {
      SumUpdate(s.transactions, UnitsOf(p), r.id, t);
    }
  }

  lemma UnitsMoved(w: World, s: State, r: Request)
    requires NonNegative(s.assets) && SettleError(w, s, r).None?
    ensures NonNegative(Moved(s.assets, r))
    ensures forall p ::
      Total(Moved(s.assets, r), p) == Total(s.assets, p) + if r.product != p || r.TransferRequest? then 0 else if r.SubscribeRequest? then r.units else -r.units
  {
    hide Total, CurrentNav, NonNegative, Put, Get, EligibleError, ExitError;
    var k := match r case TransferRequest(_, _, seller, _, _, _, _, _, _, _) => (seller, r.product)
      case SubscribeRequest(_, _, investor, _, _, _) => (investor, r.product)
      case RedeemRequest(_, _, investor, _, _) => (investor, r.product);
    if r.TransferRequest? {
      Transfers(s.assets, k, (r.buyer, r.product), r.units);
    } else {
      var d := if r.SubscribeRequest? then r.units else -r.units;
      GetNonNegative(s.assets, k);
      PutNonNegative(s.assets, k, d);
      forall p ensures Total(Put(s.assets, k, d), p) == Total(s.assets, p) + if r.product == p then d else 0 {
        PutTotal(s.assets, k, d, p);
      }
    }
  }

  lemma GetNonNegative(m: Balances, k: (string, string))
    requires NonNegative(m)
    ensures Get(m, k) >= 0
  {
  }

  // ----- holding limits -----

  predicate Covers(c: Credential, k: (string, string), units: int) {
    c.subject == k.0 && c.product == k.1 && c.maxUnits >= units
  }

  /** Every positive holding is within the limit of a registered credential of that investor and product. */
  ghost predicate Holdings(s: State) {
    forall k :: k in s.assets && s.assets[k] > 0 ==> exists id :: id in s.credentials && Covers(s.credentials[id], k, s.assets[k])
  }

  lemma HoldingsSettle(w: World, s: State, r: Request)
    requires Holdings(s) && SettleError(w, s, r).None?
    ensures Holdings(Settle(w, s, r, CurrentNav(s, r.product, w.now).value))
  {
    hide CurrentNav, Paid, ExitError, EligibleError, Covers, Put, Get;
    match r {
      case SubscribeRequest(_, product, investor, credential, units, _) =>
        EligibleCovers(w, s, product, investor, credential, units);
        HoldingGrows(s.credentials, s.assets, (investor, product), units, credential);
      case RedeemRequest(_, product, investor, _, units) =>
        HoldingShrinks(s.credentials, s.assets, (investor, product), units);
      case TransferRequest(_, product, seller, _, buyer, buyerCredential, units, _, _, _) =>
        EligibleCovers(w, s, product, buyer, buyerCredential, units);
        OtherBalance(s.assets, (seller, product), -units, (buyer, product));
        HoldingShrinks(s.credentials, s.assets, (seller, product), units);
        HoldingGrows(s.credentials, Put(s.assets, (seller, product), -units), (buyer, product), units, buyerCredential);
    }
  }

  lemma EligibleCovers(w: World, s: State, product: string, investor: string, credential: string, more: int)
    requires product in s.products && EligibleError(w, s, product, investor, credential, more).None?
    ensures credential in s.credentials && Covers(s.credentials[credential], (investor, product), Get(s.assets, (investor, product)) + more)
  {
    hide Get;
  }

  lemma OtherBalance(m: Balances, k: (string, string), d: int, other: (string, string))
    requires k != other
    ensures Get(Put(m, k, d), other) == Get(m, other)
  {
  }

  ghost predicate AllCovered(credentials: map<string, Credential>, assets: Balances) {
    forall k :: k in assets && assets[k] > 0 ==> exists id :: id in credentials && Covers(credentials[id], k, assets[k])
  }

  lemma HoldingGrows(credentials: map<string, Credential>, assets: Balances, k: (string, string), units: int, credential: string)
    requires AllCovered(credentials, assets) && credential in credentials && Covers(credentials[credential], k, Get(assets, k) + units)
    ensures AllCovered(credentials, Put(assets, k, units))
  {
  }

  lemma HoldingShrinks(credentials: map<string, Credential>, assets: Balances, k: (string, string), units: int)
    requires AllCovered(credentials, assets) && units >= 0
    ensures AllCovered(credentials, Put(assets, k, -units))
  {
    var t := Put(assets, k, -units);
    forall j | j in t && t[j] > 0 ensures exists id :: id in credentials && Covers(credentials[id], j, t[j]) {
      var id :| id in credentials && Covers(credentials[id], j, assets[j]);
      assert Covers(credentials[id], j, t[j]);
    }
  }

  // ----- the books -----

  /** The price rules, for the NAV recorded with the transaction. */
  ghost predicate PriceGood(t: Transaction, maxDeviation: int) {
    && t.units > 0 && t.nav.value > 0
    && (t.kind != TRANSFER ==> t.cash == t.units * t.nav.value)
    && (t.kind == TRANSFER ==>
      && t.cash == t.units * t.price
      && Abs(t.cash - t.units * t.nav.value) * 10_000 <= t.units * t.nav.value * maxDeviation)
  }

  lemma DeviationScales(units: int, price: int, nav: int, maxDeviation: int)
    requires units > 0 && Abs(price - nav) * 10_000 <= nav * maxDeviation
    ensures Abs(units * price - units * nav) * 10_000 <= units * nav * maxDeviation
  {
    var d := price - nav;
    assert units * price - units * nav == units * d;
    assert Abs(units * d) == units * Abs(d) by {
      if d < 0 {
        assert units * d < 0;
      } else {
        assert units * d >= 0;
      }
    }
    Scale(units, Abs(d) * 10_000, nav * maxDeviation);
    assert units * (Abs(d) * 10_000) == units * Abs(d) * 10_000;
    assert units * (nav * maxDeviation) == units * nav * maxDeviation;
  }

  lemma Scale(units: int, a: int, b: int)
    requires units > 0 && a <= b
    ensures units * a <= units * b
  {
  }

  ghost predicate NavsGood(navs: seq<Nav>) {
    && (forall i :: 0 <= i < |navs| ==> navs[i].value > 0)
    && forall i, j :: 0 <= i < j < |navs| ==> navs[i].id != navs[j].id
  }

  ghost predicate BookGood(s: State, id: string)
    requires id in s.transactions
  {
    var t := s.transactions[id];
    && id in s.settlements && s.settlements[id].state == (if t.state == SETTLED then CONFIRMED else RELEASED)
    && (t.settledAt.Some? <==> t.state == SETTLED) && (t.state != SETTLED ==> t.kind == TRANSFER)
    && t.product in s.products && t.nav in s.navs && t.nav.product == t.product
    && PriceGood(t, s.products[t.product].maxDeviation)
  }

  ghost predicate Books(s: State) {
    NavsGood(s.navs) && forall id :: id in s.transactions ==> BookGood(s, id)
  }

  /** A new transaction with its cash record leaves the other books alone. */
  lemma BooksGrow(s: State, t: State, id: string)
    requires Books(s) && id !in s.transactions && t.products == s.products && t.navs == s.navs
    requires id in t.transactions && t.transactions == s.transactions[id := t.transactions[id]]
    requires id in t.settlements && t.settlements == s.settlements[id := t.settlements[id]]
    requires BookGood(t, id)
    ensures Books(t)
  {
    hide PriceGood;
    forall x | x in t.transactions ensures BookGood(t, x) {
      if x != id {
        assert BookGood(s, x);
      }
    }
  }

  lemma BooksSettle(w: World, s: State, r: Request)
    requires Books(s) && SettleError(w, s, r).None?
    ensures Books(Settle(w, s, r, CurrentNav(s, r.product, w.now).value))
  {
    hide EligibleError, ExitError, LatestNav, Paid, Moved, PriceGood;
    var nav := CurrentNav(s, r.product, w.now).value;
    var t := Settle(w, s, r, nav);
    NavIsCurrent(s, r.product, w.now);
    SettledPrice(w, s, r);
    hide SettleError;
    assert BookGood(t, r.id);
    hide SettledTransaction;
    BooksGrow(s, t, r.id);
  }

  lemma NavIsCurrent(s: State, product: string, now: int)
    requires NavsGood(s.navs) && CurrentNav(s, product, now).Ok?
    ensures var nav := CurrentNav(s, product, now).value;
      nav in s.navs && nav.product == product && nav.value > 0 && nav.effectiveAt <= now < nav.expiresAt
  {
  }

  lemma SettledPrice(w: World, s: State, r: Request)
    requires NavsGood(s.navs) && SettleError(w, s, r).None?
    ensures var nav := CurrentNav(s, r.product, w.now).value;
      PriceGood(SettledTransaction(s, r, nav, w.now), s.products[r.product].maxDeviation)
  {
    hide EligibleError, ExitError, LatestNav;
    NavIsCurrent(s, r.product, w.now);
    hide CurrentNav;
    if r.TransferRequest? {
      DeviationScales(r.units, r.price, CurrentNav(s, r.product, w.now).value.value, s.products[r.product].maxDeviation);
    }
  }

  // ----- the exception workflow -----

  /** A transaction carries the economics of the request it was made for. */
  predicate Carries(t: Transaction, r: Request) {
    t.product == r.product && t.units == r.units
    && match r
       case SubscribeRequest(_, _, investor, _, _, cash) => t.kind == SUBSCRIBE && t.buyer == investor && t.cash == cash
       case TransferRequest(_, _, seller, _, buyer, _, _, price, fee, expiresAt) =>
         t.kind == TRANSFER && t.seller == seller && t.buyer == buyer && t.price == price && t.fee == fee && t.expiresAt == expiresAt
       case RedeemRequest(_, _, investor, _, _) => t.kind == REDEEM && t.seller == investor
  }

  /** A stored result names the transaction its request created. */
  ghost predicate EntryGood(s: State, key: string)
    requires key in s.idempotency
  {
    var e := s.idempotency[key];
    && e.result.transaction == e.request.id && e.request.id in s.transactions
    && Carries(s.transactions[e.request.id], e.request)
    && (e.result.state == SETTLED <==> s.transactions[e.request.id].state == SETTLED)
  }

  predicate Decided(c: Case) {
    c.proposal.Some? && c.checker.Some? && c.checker.value != c.proposal.value.maker
  }

  /** Case and transaction correspond, and a resolution has two people behind it. */
  ghost predicate CaseGood(s: State, id: string)
    requires id in s.cases
  {
    var c := s.cases[id];
    && id == CaseId(c.transaction) && c.transaction in s.transactions && c.retry.TransferRequest? && c.retry.product == c.product
    && Carries(s.transactions[c.transaction], c.retry)
    && var state := s.transactions[c.transaction].state;
      match c.status
      case OPEN => state == REQUIRES_REVIEW && c.proposal.None?
      case PENDING => state == PENDING_APPROVAL && c.proposal.Some?
      case RESOLVED_CANCELLED => state == CANCELLED && Decided(c) && !c.proposal.value.retry
      case RESOLVED_RETRIED =>
        && state == REPLACED && Decided(c) && c.proposal.value.retry && c.replacement == Some(c.proposal.value.replacement)
        && RetryKey(id, c.replacement.value) in s.idempotency
        && s.idempotency[RetryKey(id, c.replacement.value)].request == Renamed(c.retry, c.replacement.value)
  }

  ghost predicate Workflow(s: State) {
    && (forall key :: key in s.idempotency ==> EntryGood(s, key))
    && (forall k, l :: k in s.idempotency && l in s.idempotency && s.idempotency[k].request.id == s.idempotency[l].request.id ==> k == l)
    && (forall id :: id in s.cases ==> CaseGood(s, id))
    && (forall x :: x in s.transactions ==> (s.transactions[x].state != SETTLED <==> CaseId(x) in s.cases))
  }

  lemma CaseIdInjective(x: string, y: string)
    requires CaseId(x) == CaseId(y)
    ensures x == y
  {
    assert CaseId(x)[5..] == x && CaseId(y)[5..] == y;
  }

  /** Equal replacements make equal retry keys only for equal cases. */
  lemma RetryKeyInjective(a: string, b: string, replacement: string)
    requires RetryKey(a, replacement) == RetryKey(b, replacement)
    ensures a == b
  {
    var prefix, suffix := "exception-retry:", ":" + replacement;
    assert RetryKey(a, replacement) == prefix + (a + suffix) && RetryKey(b, replacement) == prefix + (b + suffix);
    assert (prefix + (a + suffix))[|prefix|..] == a + suffix && (prefix + (b + suffix))[|prefix|..] == b + suffix;
    assert |a| == |b| && (a + suffix)[..|a|] == a && (b + suffix)[..|b|] == b;
  }

  /** A transaction created under a fresh key. */
  lemma WorkflowGrows(s: State, t: State, key: string, r: Request, tx: Transaction, receipt: Receipt)
    requires Workflow(s) && key !in s.idempotency && r.id !in s.transactions
    requires t.transactions == s.transactions[r.id := tx] && t.idempotency == s.idempotency[key := Entry(r, receipt)]
    requires Carries(tx, r) && receipt.transaction == r.id && receipt.state == tx.state
    requires tx.state == SETTLED ==> t.cases == s.cases
    requires tx.state != SETTLED ==>
      tx.state == REQUIRES_REVIEW && r.TransferRequest? && t.cases == s.cases[CaseId(r.id) := Case(r.id, r.product, OPEN, None, None, None, r)]
    ensures Workflow(t)
  {
    hide Carries, EntryGood, CaseGood, CaseId;
    EntriesGrow(s, t, key, r, tx, receipt);
    CasesElsewhere(s, r.id);
    CasesStay(s, t, r.id);
    if tx.state != SETTLED {
      NewCaseGood(t, r, tx);
    }
  }

  /** No case belongs to a transaction that does not exist yet. */
  lemma CasesElsewhere(s: State, x: string)
    requires x !in s.transactions && forall id :: id in s.cases ==> CaseGood(s, id)
    ensures forall id :: id in s.cases ==> s.cases[id].transaction != x && id != CaseId(x)
    ensures forall y :: y in s.transactions ==> CaseId(y) != CaseId(x)
  {
    hide Carries, RetryKey;
    forall id | id in s.cases ensures s.cases[id].transaction != x && id != CaseId(x) {
      assert CaseGood(s, id);
      if id == CaseId(x) {
        CaseIdInjective(s.cases[id].transaction, x);
      }
    }
    forall y | y in s.transactions ensures CaseId(y) != CaseId(x) {
      if CaseId(y) == CaseId(x) {
        CaseIdInjective(y, x);
      }
    }
  }

  lemma EntriesGrow(s: State, t: State, key: string, r: Request, tx: Transaction, receipt: Receipt)
    requires forall k :: k in s.idempotency ==> EntryGood(s, k)
    requires key !in s.idempotency && r.id !in s.transactions
    requires t.transactions == s.transactions[r.id := tx] && t.idempotency == s.idempotency[key := Entry(r, receipt)]
    requires Carries(tx, r) && receipt.transaction == r.id && receipt.state == tx.state
    ensures forall k :: k in t.idempotency ==> EntryGood(t, k)
    ensures forall k :: k in s.idempotency ==> s.idempotency[k].request.id != r.id
  {
    hide Carries;
    forall k | k in s.idempotency ensures EntryGood(s, k) {
    }
  }

  lemma NewCaseGood(t: State, r: Request, tx: Transaction)
    requires r.TransferRequest? && r.id in t.transactions && t.transactions[r.id] == tx && tx.state == REQUIRES_REVIEW && Carries(tx, r)
    requires CaseId(r.id) in t.cases && t.cases[CaseId(r.id)] == Case(r.id, r.product, OPEN, None, None, None, r)
    ensures CaseGood(t, CaseId(r.id))
  {
    hide Carries;
  }

  /** Cases other than a new one keep their transactions and retry keys. */
  lemma CasesStay(s: State, t: State, x: string)
    requires forall id :: id in s.cases ==> CaseGood(s, id) && s.cases[id].transaction != x && id != CaseId(x)
    requires forall y :: y in s.transactions && y != x ==> y in t.transactions && t.transactions[y] == s.transactions[y]
    requires forall k :: k in s.idempotency ==> k in t.idempotency && t.idempotency[k] == s.idempotency[k]
    requires forall id :: id in s.cases ==> id in t.cases && t.cases[id] == s.cases[id]
    ensures forall id :: id in s.cases ==> CaseGood(t, id)
  {
    hide Carries, CaseId, RetryKey;
    forall id | id in s.cases ensures CaseGood(t, id) {
      assert CaseGood(s, id);
    }
  }

  /** A step of the workflow on one case and its transaction. */
  lemma WorkflowMoves(s: State, t: State, id: string, state: TxState)
    requires Workflow(s) && id in s.cases && id in t.cases && t.cases == s.cases[id := t.cases[id]] && t.idempotency == s.idempotency
    requires var x := s.cases[id].transaction;
      && x in s.transactions && s.transactions[x].state != SETTLED && state != SETTLED && x in t.transactions
      && t.transactions == s.transactions[x := t.transactions[x]]
      && t.transactions[x] == s.transactions[x].(state := state, lifecycle := t.transactions[x].lifecycle)
    requires CaseGood(t, id)
    ensures Workflow(t)
  {
    hide RetryKey, CaseId, Carries, CaseGood, EntryGood;
    EntriesMove(s, t, s.cases[id].transaction);
    CasesMove(s, t, id);
  }

  lemma EntriesMove(s: State, t: State, x: string)
    requires forall k :: k in s.idempotency ==> EntryGood(s, k)
    requires t.idempotency == s.idempotency && x in s.transactions && x in t.transactions && t.transactions == s.transactions[x := t.transactions[x]]
    requires s.transactions[x].state != SETTLED && t.transactions[x].state != SETTLED
    requires t.transactions[x] == s.transactions[x].(state := t.transactions[x].state, lifecycle := t.transactions[x].lifecycle)
    ensures forall k :: k in t.idempotency ==> EntryGood(t, k)
  {
    SameCarries(s.transactions[x], t.transactions[x]);
    hide Carries;
    forall k | k in t.idempotency ensures EntryGood(t, k) {
      assert EntryGood(s, k);
    }
  }

  lemma CasesMove(s: State, t: State, id: string)
    requires (forall j :: j in s.cases ==> CaseGood(s, j)) && id in s.cases && id in t.cases && t.cases == s.cases[id := t.cases[id]]
    requires t.idempotency == s.idempotency && CaseGood(t, id)
    requires var x := s.cases[id].transaction; x in t.transactions && t.transactions == s.transactions[x := t.transactions[x]]
    ensures forall j :: j in t.cases ==> CaseGood(t, j)
  {
    hide RetryKey, CaseId, Carries;
    forall j | j in s.cases && j != id ensures CaseGood(t, j) && s.cases[j].transaction != s.cases[id].transaction {
      assert CaseGood(s, j) && CaseGood(s, id);
    }
  }

  lemma SameCarries(t: Transaction, u: Transaction)
    requires u == t.(state := u.state, lifecycle := u.lifecycle)
    ensures forall r :: Carries(u, r) == Carries(t, r)
  {
  }

  ghost predicate Inv(s: State) {
    Money(s) && Units(s) && Holdings(s) && Books(s) && Workflow(s)
  }

  lemma BooksNavs(s: State)
    requires Books(s)
    ensures NavsGood(s.navs)
  {
    hide NavsGood;
  }

  lemma SettledCarries(s: State, r: Request, nav: Nav, now: int)
    requires r.SubscribeRequest? || r.TransferRequest? || r.RedeemRequest?
    ensures Carries(SettledTransaction(s, r, nav, now), r) && SettledTransaction(s, r, nav, now).state == SETTLED
  {
  }

  lemma ExecuteKeeps(w: World, s: State, key: string, r: Request)
    requires Inv(s)
    ensures Inv(Execute(w, s, key, r).0)
  {
    hide SettleError, Inv, Money, Units, Holdings, Books, Workflow, CurrentNav, SettledTransaction, Paid, Moved;
    if Replay(s, key, r).None? && SettleError(w, s, r).None? {
      SettleKeeps(w, s, key, r);
    }
  }

  lemma SettleKeeps(w: World, s: State, key: string, r: Request)
    requires Inv(s) && Replay(s, key, r).None? && SettleError(w, s, r).None?
    ensures Inv(Execute(w, s, key, r).0)
  {
    hide SettleError, Money, Units, Holdings, Books, Workflow, CurrentNav, SettledTransaction, Paid, Moved;
    var nav := CurrentNav(s, r.product, w.now).value;
    var t, u := Settle(w, s, r, nav), Execute(w, s, key, r).0;
    BooksNavs(s);
    MoneySettles(w, s, r);
    UnitsSettle(w, s, r);
    HoldingsSettle(w, s, r);
    BooksSettle(w, s, r);
    SameBooks(t, u);
    SettledCarries(s, r, nav, w.now);
    WorkflowGrows(s, u, key, r, t.transactions[r.id], ReceiptOf(r.id, t.transactions[r.id]));
  }

  /** Idempotency entries and cases do not enter balances and books. */
  lemma SameBooks(s: State, t: State)
    requires t == s.(idempotency := t.idempotency, cases := t.cases)
    ensures (Money(s) ==> Money(t)) && (Units(s) ==> Units(t)) && (Holdings(s) ==> Holdings(t)) && (Books(s) ==> Books(t))
  {
    hide Total, NonNegative, PriceGood, Covers;
    if Books(s) {
      forall id | id in t.transactions ensures BookGood(t, id) {
        assert BookGood(s, id);
      }
    }
  }

  /** An exception transaction counts for nothing. */
  lemma UnitsUnsettled(s: State, t: State, x: string)
    requires Units(s) && t.assets == s.assets && t.register == s.register && x in t.transactions && t.transactions == s.transactions[x := t.transactions[x]]
    requires t.transactions[x].state != SETTLED && (x in s.transactions ==> s.transactions[x].state != SETTLED)
    ensures Units(t)
  {
    hide Total, NonNegative;
    forall p ensures Sum(t.transactions, UnitsOf(p)) == Sum(s.transactions, UnitsOf(p)) {
      SumUpdate(s.transactions, UnitsOf(p), x, t.transactions[x]);
    }
  }

  lemma SameMoney(s: State, t: State)
    requires t.cash == s.cash && t.credited == s.credited
    ensures Money(s) ==> Money(t)
  {
    hide Total, NonNegative;
  }

  lemma SameHoldings(s: State, t: State)
    requires t.assets == s.assets && forall id :: id in s.credentials ==> id in t.credentials && t.credentials[id] == s.credentials[id]
    ensures Holdings(s) ==> Holdings(t)
  {
    if Holdings(s) {
      forall k | k in t.assets && t.assets[k] > 0 ensures exists id :: id in t.credentials && Covers(t.credentials[id], k, t.assets[k]) {
        var id :| id in s.credentials && Covers(s.credentials[id], k, s.assets[k]);
        assert Covers(t.credentials[id], k, t.assets[k]);
      }
    }
  }

  lemma SimulateKeeps(w: World, s: State, key: string, r: Request)
    requires Inv(s) && r.TransferRequest?
    ensures Inv(Simulate(w, s, key, r).0)
  {
    hide TransferError, Money, Units, Holdings, Books, Workflow, CurrentNav;
    if Replay(s, key, r).None? && TransferError(w, s, r).None? {
      var t := Simulate(w, s, key, r).0;
      SameMoney(s, t);
      SameHoldings(s, t);
      SimulatedBook(w, s, key, r);
      NewTransaction(w, s, r);
      assert t.transactions[r.id].state == REQUIRES_REVIEW;
      UnitsUnsettled(s, t, r.id);
      WorkflowGrows(s, t, key, r, t.transactions[r.id], ReceiptOf(r.id, t.transactions[r.id]));
    }
  }

  lemma NewTransaction(w: World, s: State, r: Request)
    requires r.TransferRequest? && TransferError(w, s, r).None?
    ensures r.id !in s.transactions && r.product in s.products && CurrentNav(s, r.product, w.now).Ok?
  {
    hide EligibleError, CurrentNav;
  }

  lemma SimulatedBook(w: World, s: State, key: string, r: Request)
    requires Books(s) && r.TransferRequest? && Replay(s, key, r).None? && TransferError(w, s, r).None?
    ensures Books(Simulate(w, s, key, r).0)
  {
    hide EligibleError, PriceGood, LatestNav, Replay;
    var t := Simulate(w, s, key, r).0;
    NavIsCurrent(s, r.product, w.now);
    var nav := CurrentNav(s, r.product, w.now).value;
    assert SettleError(w, s, r).None?;
    SettledPrice(w, s, r);
    SamePrice(SettledTransaction(s, r, nav, w.now), FailedTransaction(r, nav, w.now), s.products[r.product].maxDeviation);
    hide TransferError, CurrentNav;
    assert BookGood(t, r.id);
    BooksGrow(s, t, r.id);
  }

  lemma SamePrice(t: Transaction, u: Transaction, maxDeviation: int)
    requires PriceGood(t, maxDeviation) && u.kind == t.kind && u.units == t.units && u.cash == t.cash && u.price == t.price && u.nav == t.nav
    ensures PriceGood(u, maxDeviation)
  {
  }

  /** Changing the state and history of an exception transaction together with its case. */
  lemma CaseMoves(s: State, t: State, id: string, state: TxState)
    requires Inv(s) && id in s.cases && id in t.cases && t == s.(transactions := t.transactions, cases := s.cases[id := t.cases[id]])
    requires var x := s.cases[id].transaction;
      && x in s.transactions && s.transactions[x].state != SETTLED && state != SETTLED && x in t.transactions
      && t.transactions == s.transactions[x := t.transactions[x]]
      && t.transactions[x] == s.transactions[x].(state := state, lifecycle := t.transactions[x].lifecycle)
    requires CaseGood(t, id)
    ensures Inv(t)
  {
    hide CaseGood, Money, Holdings;
    var x := s.cases[id].transaction;
    SameMoney(s, t);
    SameHoldings(s, t);
    UnitsUnsettled(s, t, x);
    hide Units;
    WorkflowMoves(s, t, id, state);
    hide Workflow;
    BooksMove(s, t, x);
  }

  lemma BooksMove(s: State, t: State, x: string)
    requires Books(s) && x in s.transactions && x in t.transactions && t == s.(transactions := s.transactions[x := t.transactions[x]], cases := t.cases)
    requires t.transactions[x] == s.transactions[x].(state := t.transactions[x].state, lifecycle := t.transactions[x].lifecycle)
    requires s.transactions[x].state != SETTLED && t.transactions[x].state != SETTLED
    ensures Books(t)
  {
    hide PriceGood;
    forall id | id in t.transactions ensures BookGood(t, id) {
      assert BookGood(s, id);
      if id == x {
        assert PriceGood(t.transactions[x], s.products[t.transactions[x].product].maxDeviation) by {
          SamePrice(s.transactions[x], t.transactions[x], s.products[s.transactions[x].product].maxDeviation);
        }
      }
    }
  }

  lemma CaseFacts(s: State, id: string)
    requires Inv(s) && id in s.cases
    ensures CaseGood(s, id) && s.cases[id].transaction in s.transactions && s.transactions[s.cases[id].transaction].state != SETTLED
  {
    assert CaseGood(s, id);
  }

  lemma ProposeKeeps(w: World, s: State, id: string, maker: string, retry: bool, replacement: string)
    requires Inv(s)
    ensures Inv(Propose(w, s, id, maker, retry, replacement).0)
  {
    hide Inv;
    var (t, reply) := Propose(w, s, id, maker, retry, replacement);
    if reply == Accepted {
      CaseFacts(s, id);
      var x := s.cases[id].transaction;
      SameCarries(s.transactions[x], t.transactions[x]);
      hide Carries, CaseId;
      CaseMoves(s, t, id, PENDING_APPROVAL);
    }
  }

  lemma ResolveKeeps(s: State, id: string, state: TxState, stage: Stage, c: Case, now: int)
    requires Inv(s) && id in s.cases && c.transaction == s.cases[id].transaction && c.transaction in s.transactions && state != SETTLED
    requires CaseGood(Resolve(s, id, state, stage, c, now), id)
    ensures Inv(Resolve(s, id, state, stage, c, now))
  {
    hide Inv, CaseGood;
    CaseFacts(s, id);
    CaseMoves(s, Resolve(s, id, state, stage, c, now), id, state);
  }

  /** Approval first stamps the original transaction, which leaves everything else as it is. */
  lemma ApprovedStamp(s: State, id: string, now: int)
    requires Inv(s) && id in s.cases && s.cases[id].transaction in s.transactions
    ensures var x := s.cases[id].transaction;
      Inv(s.(transactions := s.transactions[x := Mark(s.transactions[x], s.transactions[x].state, ReviewApproved, now)]))
  {
    hide Inv;
    CaseFacts(s, id);
    var x := s.cases[id].transaction;
    var t := s.(transactions := s.transactions[x := Mark(s.transactions[x], s.transactions[x].state, ReviewApproved, now)]);
    SameCarries(s.transactions[x], t.transactions[x]);
    hide Carries;
    assert s.cases[id := s.cases[id]] == s.cases;
    CaseMoves(s, t, id, s.transactions[x].state);
  }

  lemma DecideKeeps(w: World, s: State, id: string, checker: string)
    requires Inv(s) && id in s.cases && s.cases[id].transaction in s.transactions && s.cases[id].proposal.Some?
    requires s.cases[id].status == PENDING && checker != s.cases[id].proposal.value.maker
    ensures Inv(Decide(w, s, id, checker).0)
  {
    hide Inv, Execute;
    var c := s.cases[id];
    var p := c.proposal.value;
    ApprovedStamp(s, id, w.now);
    var x := c.transaction;
    var approved := s.(transactions := s.transactions[x := Mark(s.transactions[x], s.transactions[x].state, ReviewApproved, w.now)]);
    CaseFacts(approved, id);
    if !p.retry {
      CancelledGood(approved, id, c.(status := RESOLVED_CANCELLED, checker := Some(checker)), w.now);
      ResolveKeeps(approved, id, CANCELLED, Cancelled, c.(status := RESOLVED_CANCELLED, checker := Some(checker)), w.now);
    } else {
      var (t, reply) := Execute(w, approved, RetryKey(id, p.replacement), Renamed(c.retry, p.replacement));
      if reply.Failed? {
        ReopenedGood(approved, id, c.(status := OPEN, proposal := None), w.now);
        ResolveKeeps(approved, id, REQUIRES_REVIEW, RetryBlocked, c.(status := OPEN, proposal := None), w.now);
      } else {
        ExecuteKeeps(w, approved, RetryKey(id, p.replacement), Renamed(c.retry, p.replacement));
        ExecuteRecords(w, approved, RetryKey(id, p.replacement), Renamed(c.retry, p.replacement));
        CaseFacts(t, id);
        var d := c.(status := RESOLVED_RETRIED, replacement := Some(p.replacement), checker := Some(checker));
        RetriedGood(t, id, d, w.now);
        ResolveKeeps(t, id, REPLACED, Replaced, d, w.now);
      }
    }
  }

  lemma CancelledGood(s: State, id: string, c: Case, now: int)
    requires id in s.cases && CaseGood(s, id) && c == s.cases[id].(status := RESOLVED_CANCELLED, checker := c.checker)
    requires Decided(c) && !c.proposal.value.retry
    ensures CaseGood(Resolve(s, id, CANCELLED, Cancelled, c, now), id)
  {
    SameCarries(s.transactions[c.transaction], Mark(s.transactions[c.transaction], CANCELLED, Cancelled, now));
    hide Carries;
  }

  lemma ReopenedGood(s: State, id: string, c: Case, now: int)
    requires id in s.cases && CaseGood(s, id) && c == s.cases[id].(status := OPEN, proposal := None)
    ensures CaseGood(Resolve(s, id, REQUIRES_REVIEW, RetryBlocked, c, now), id)
  {
    SameCarries(s.transactions[c.transaction], Mark(s.transactions[c.transaction], REQUIRES_REVIEW, RetryBlocked, now));
    hide Carries;
  }

  lemma RetriedGood(s: State, id: string, c: Case, now: int)
    requires id in s.cases && CaseGood(s, id) && c == s.cases[id].(status := RESOLVED_RETRIED, replacement := c.replacement, checker := c.checker)
    requires Decided(c) && c.proposal.value.retry && c.replacement == Some(c.proposal.value.replacement)
    requires RetryKey(id, c.replacement.value) in s.idempotency && s.idempotency[RetryKey(id, c.replacement.value)].request == Renamed(c.retry, c.replacement.value)
    ensures CaseGood(Resolve(s, id, REPLACED, Replaced, c, now), id)
  {
    SameCarries(s.transactions[c.transaction], Mark(s.transactions[c.transaction], REPLACED, Replaced, now));
    hide Carries, RetryKey;
  }

  /** A call that is not refused has its request and result on record, and no case moves. */
  lemma ExecuteRecords(w: World, s: State, key: string, r: Request)
    requires !Execute(w, s, key, r).1.Failed?
    ensures var t := Execute(w, s, key, r).0;
      key in t.idempotency && t.idempotency[key].request == r && t.cases == s.cases
  {
    hide SettleError, CurrentNav, SettledTransaction, Paid, Moved;
  }

  lemma ApproveKeeps(w: World, s: State, id: string, checker: string)
    requires Inv(s)
    ensures Inv(Approve(w, s, id, checker).0)
  {
    hide Inv, Decide;
    if id in s.cases && s.cases[id].transaction in s.transactions && s.cases[id].status == PENDING && s.cases[id].proposal.Some?
      && checker != "" && checker != s.cases[id].proposal.value.maker
    {
      DecideKeeps(w, s, id, checker);
    }
  }

  /** Set-up calls add products, credentials and evidence, or change a product's status. */
  ghost predicate SetUp(s: State, t: State) {
    && t == s.(products := t.products, credentials := t.credentials, restricted := t.restricted, navs := t.navs)
    && (forall id :: id in s.products ==> id in t.products && t.products[id] == s.products[id].(status := t.products[id].status))
    && (forall id :: id in s.credentials ==> id in t.credentials && t.credentials[id] == s.credentials[id])
    && |s.navs| <= |t.navs| && t.navs[..|s.navs|] == s.navs && (NavsGood(s.navs) ==> NavsGood(t.navs))
  }

  lemma SetUpKeeps(s: State, t: State)
    requires Inv(s) && SetUp(s, t)
    ensures Inv(t)
  {
    hide Money, Units, Holdings, Workflow, NavsGood, PriceGood;
    SameMoney(s, t);
    SameHoldings(s, t);
    assert Units(t) by {
      SameUnits(s, t);
    }
    SameWorkflow(s, t);
    forall id | id in t.transactions ensures BookGood(t, id) {
      assert BookGood(s, id);
      var i :| 0 <= i < |s.navs| && s.navs[i] == s.transactions[id].nav;
      assert t.navs[i] == t.navs[..|s.navs|][i];
    }
  }

  lemma SameUnits(s: State, t: State)
    requires t.assets == s.assets && t.register == s.register && t.transactions == s.transactions
    ensures Units(s) ==> Units(t)
  {
    hide Total, NonNegative;
  }

  lemma SameWorkflow(s: State, t: State)
    requires t.idempotency == s.idempotency && t.cases == s.cases && t.transactions == s.transactions
    ensures Workflow(s) ==> Workflow(t)
  {
    hide Carries, RetryKey, CaseId;
    if Workflow(s) {
      forall k | k in t.idempotency ensures EntryGood(t, k) {
        assert EntryGood(s, k);
      }
      forall id | id in t.cases ensures CaseGood(t, id) {
        assert CaseGood(s, id);
      }
    }
  }

  /** A product is added, or its status changes. */
  lemma ProductChange(s: State, t: State)
    requires t == s.(products := t.products)
    requires forall id :: id in s.products ==> id in t.products && t.products[id] == s.products[id].(status := t.products[id].status)
    ensures SetUp(s, t)
  {
    hide NavsGood;
    assert s.navs[..|s.navs|] == s.navs;
  }

  lemma CredentialChange(s: State, t: State)
    requires t == s.(credentials := t.credentials, restricted := t.restricted)
    requires forall id :: id in s.credentials ==> id in t.credentials && t.credentials[id] == s.credentials[id]
    ensures SetUp(s, t)
  {
    hide NavsGood;
    assert s.navs[..|s.navs|] == s.navs;
  }

  lemma NavStep(w: World, s: State, nav: Nav)
    ensures SetUp(s, SubmitNav(w, s, nav).0)
  {
    hide SetUp;
    NothingSetUp(s);
    if nav.value > 0 && forall i :: 0 <= i < |s.navs| ==> s.navs[i].id != nav.id {
      NavAdded(s, nav);
    }
  }

  lemma NavAdded(s: State, nav: Nav)
    requires nav.value > 0 && forall i :: 0 <= i < |s.navs| ==> s.navs[i].id != nav.id
    ensures SetUp(s, s.(navs := s.navs + [nav]))
  {
    assert (s.navs + [nav])[..|s.navs|] == s.navs;
  }

  lemma NothingSetUp(s: State)
    ensures SetUp(s, s)
  {
    hide NavsGood;
    assert s.navs[..|s.navs|] == s.navs;
  }

  /** One product entry written, keeping everything but its status if it was there. */
  lemma ProductWritten(s: State, id: string, p: Product)
    requires id in s.products ==> p == s.products[id].(status := p.status)
    ensures SetUp(s, s.(products := s.products[id := p]))
  {
    hide SetUp;
    ProductChange(s, s.(products := s.products[id := p]));
  }

  lemma ProductSetUp(w: World, s: State, id: string, p: Product)
    ensures SetUp(s, CreateProduct(w, s, id, p).0)
  {
    hide SetUp;
    NothingSetUp(s);
    if id !in s.products {
      ProductWritten(s, id, p.(status := DRAFT));
    }
  }

  lemma StatusSetUp(w: World, s: State, id: string)
    ensures SetUp(s, Activate(w, s, id).0) && SetUp(s, Pause(s, id).0)
  {
    hide SetUp;
    NothingSetUp(s);
    if id in s.products {
      ProductWritten(s, id, s.products[id].(status := ACTIVE));
      ProductWritten(s, id, s.products[id].(status := PAUSED));
    }
  }

  lemma CredentialSetUp(w: World, s: State, id: string, c: Credential)
    ensures SetUp(s, RegisterCredential(w, s, id, c).0)
  {
    hide SetUp;
    NothingSetUp(s);
    if id !in s.credentials {
      CredentialWritten(s, id, c);
    }
  }

  lemma CredentialWritten(s: State, id: string, c: Credential)
    requires id !in s.credentials
    ensures SetUp(s, s.(credentials := s.credentials[id := c]))
  {
    hide SetUp;
    CredentialChange(s, s.(credentials := s.credentials[id := c]));
  }

  lemma RevokeSetUp(s: State, id: string)
    ensures SetUp(s, RevokeCredential(s, id).0)
  {
    hide SetUp;
    CredentialChange(s, RevokeCredential(s, id).0);
  }

  lemma ConfigureSetUp(s: State, e: Event)
    ensures SetUp(s, Configure(s, e).0)
  {
    hide SetUp, CreateProduct, Activate, Pause, RegisterCredential, RevokeCredential, SubmitNav;
    match e.action
    case DoCreateProduct(id, p) => ProductSetUp(e.world, s, id, p);
    case DoActivate(id) => StatusSetUp(e.world, s, id);
    case DoPause(id) => StatusSetUp(e.world, s, id);
    case DoRegisterCredential(id, c) => CredentialSetUp(e.world, s, id, c);
    case DoRevokeCredential(id) => RevokeSetUp(s, id);
    case DoSubmitNav(nav) => NavStep(e.world, s, nav);
    case _ => NothingSetUp(s);
  }

  /** Set-up calls touch no balance, transaction, case or stored result. */
  lemma ConfigureLeaves(s: State, e: Event)
    ensures var t := Configure(s, e).0;
      && t.cash == s.cash && t.assets == s.assets && t.register == s.register && t.credited == s.credited
      && t.transactions == s.transactions && t.settlements == s.settlements && t.cases == s.cases && t.idempotency == s.idempotency
  {
    ConfigureSetUp(s, e);
    hide Configure, NavsGood;
  }

  lemma CreditKeeps(s: State, account: string, currency: string, amount: int)
    requires Inv(s)
    ensures Inv(CreditCash(s, account, currency, amount).0)
  {
    hide Total, NonNegative, Put, Get;
    if amount >= 0 {
      var t := CreditCash(s, account, currency, amount).0;
      GetNonNegative(s.cash, (account, currency));
      PutNonNegative(s.cash, (account, currency), amount);
      forall c ensures Total(t.cash, c) == Credits(t.credited, c) {
        PutTotal(s.cash, (account, currency), amount, c);
        assert t.credited[..|s.credited|] == s.credited;
      }
      hide Money;
      SameHoldings(s, t);
      SameUnits(s, t);
      SameWorkflow(s, t);
      hide Units, Holdings, Workflow, PriceGood;
      forall id | id in t.transactions ensures BookGood(t, id) {
        assert BookGood(s, id);
      }
    }
  }

  lemma StepKeeps(s: State, e: Event)
    requires Inv(s)
    ensures Inv(Step(s, e).0)
  {
    hide Inv, SetUp, Execute, Simulate, Propose, Approve, CreditCash, Configure;
    match e.action
    case DoExecute(key, r) => ExecuteKeeps(e.world, s, key, r);
    case DoSimulate(key, r) =>
      if r.TransferRequest? {
        SimulateKeeps(e.world, s, key, r);
      }
    case DoPropose(id, maker, retry, replacement) => ProposeKeeps(e.world, s, id, maker, retry, replacement);
    case DoApprove(id, checker) => ApproveKeeps(e.world, s, id, checker);
    case DoCredit(account, currency, amount) => CreditKeeps(s, account, currency, amount);
    case _ =>
      ConfigureSetUp(s, e);
      SetUpKeeps(s, Step(s, e).0);
  }

  lemma {:induction false} RunKeeps(events: seq<Event>)
    ensures Inv(Run(events))
  {
    hide Inv, Step;
    if events == [] {
      InitialInv();
    } else {
      RunKeeps(events[..|events| - 1]);
      StepKeeps(Run(events[..|events| - 1]), events[|events| - 1]);
    }
  }

  lemma InitialInv()
    ensures Inv(INITIAL)
  {
    forall c ensures Total(INITIAL.cash, c) == 0 {
      SumZero(INITIAL.cash, InColumn(c));
    }
    forall p ensures Sum(INITIAL.transactions, UnitsOf(p)) == 0 && Total(INITIAL.assets, p) == 0 {
      SumZero(INITIAL.transactions, UnitsOf(p));
      SumZero(INITIAL.assets, InColumn(p));
    }
  }

  // ----- conservation -----

  /**
   After any sequence of calls, whoever shares an account: each currency's cash is what
   was credited, assets equal the register account by account, nothing is negative, and
   a product's units are its settled subscriptions minus redemptions.
   */
  lemma Conservation(events: seq<Event>, currency: string, product: string)
    ensures var s := Run(events);
      && Total(s.cash, currency) == Credits(s.credited, currency)
      && s.assets == s.register && Total(s.assets, product) == Sum(s.transactions, UnitsOf(product))
      && forall k :: (k in s.cash ==> s.cash[k] >= 0) && (k in s.assets ==> s.assets[k] >= 0)
  {
    RunKeeps(events);
    hide Run, Total, Holdings, Books, Workflow;
  }

  /** A call that throws leaves every balance as it was. */
  lemma FailureKeepsBalances(s: State, e: Event)
    requires Step(s, e).1.Failed?
    ensures var t := Step(s, e).0; t.cash == s.cash && t.assets == s.assets && t.register == s.register && t.credited == s.credited
  {
    hide Execute, Simulate, Propose, Approve, Configure;
    match e.action
    case DoExecute(key, r) => FailureIsIdle(e.world, s, key, r);
    case DoSimulate(key, r) =>
      if r.TransferRequest? {
        SimulateBalances(e.world, s, key, r);
      }
    case DoPropose(id, maker, retry, replacement) => ProposeBalances(e.world, s, id, maker, retry, replacement);
    case DoApprove(id, checker) => FailedApproval(e.world, s, id, checker);
    case DoCredit(_, _, _) =>
    case _ => ConfigureLeaves(s, e);
  }

  lemma FailureIsIdle(w: World, s: State, key: string, r: Request)
    ensures Execute(w, s, key, r).1.Failed? ==> Execute(w, s, key, r).0 == s
  {
    hide SettleError;
  }

  lemma SimulateBalances(w: World, s: State, key: string, r: Request)
    requires r.TransferRequest?
    ensures SameBalances(s, Simulate(w, s, key, r).0)
  {
    hide TransferError, CurrentNav;
  }

  lemma ProposeBalances(w: World, s: State, id: string, maker: string, retry: bool, replacement: string)
    ensures SameBalances(s, Propose(w, s, id, maker, retry, replacement).0)
  {
    hide Mark;
  }

  predicate SameBalances(s: State, t: State) {
    t.cash == s.cash && t.assets == s.assets && t.register == s.register && t.credited == s.credited
  }

  lemma ResolveLeaves(s: State, id: string, state: TxState, stage: Stage, c: Case, now: int)
    requires c.transaction in s.transactions
    ensures SameBalances(s, Resolve(s, id, state, stage, c, now)) && Resolve(s, id, state, stage, c, now).idempotency == s.idempotency
  {
    hide Mark;
  }

  lemma FailedApproval(w: World, s: State, id: string, checker: string)
    ensures Approve(w, s, id, checker).1.Failed? ==> SameBalances(s, Approve(w, s, id, checker).0)
  {
    hide Execute, RetryKey, Mark, Resolve;
    if id in s.cases && s.cases[id].transaction in s.transactions && s.cases[id].proposal.Some? {
      var c := s.cases[id];
      var approved := s.(transactions := s.transactions[c.transaction := Mark(s.transactions[c.transaction], s.transactions[c.transaction].state, ReviewApproved, w.now)]);
      ResolveLeaves(approved, id, REQUIRES_REVIEW, RetryBlocked, c.(status := OPEN, proposal := None), w.now);
    }
  }

  /** Every positive holding is covered by a registered credential, and every settled price is within its product's band. */
  lemma LimitsAndPrices(events: seq<Event>, k: (string, string), id: string)
    ensures var s := Run(events);
      k in s.assets && s.assets[k] > 0 ==>
        exists c :: c in s.credentials && s.credentials[c].subject == k.0 && s.credentials[c].product == k.1 && s.credentials[c].maxUnits >= s.assets[k]
    ensures var s := Run(events);
      id in s.transactions && s.transactions[id].state == SETTLED ==>
        var t := s.transactions[id];
        && t.product in s.products && t.nav in s.navs && t.nav.product == t.product
        && (t.kind == TRANSFER ==>
          Abs(t.cash - t.units * t.nav.value) * 10_000 <= t.units * t.nav.value * s.products[t.product].maxDeviation)
        && (t.kind != TRANSFER ==> t.cash == t.units * t.nav.value)
  {
    RunKeeps(events);
    hide Run, Money, Units, Workflow;
    var s := Run(events);
    if k in s.assets && s.assets[k] > 0 {
      var c :| c in s.credentials && Covers(s.credentials[c], k, s.assets[k]);
    }
    if id in s.transactions {
      assert BookGood(s, id);
    }
  }

  /** A credential of this holder for this product that may take on the given holding now. */
  predicate MayHold(w: World, s: State, product: string, investor: string, credential: string, holding: int)
    requires product in s.products
  {
    && credential in s.credentials && credential !in s.restricted && w.signed(credential)
    && var c := s.credentials[credential];
      && c.product == product && c.subject == investor && c.validFrom <= w.now < c.validUntil && holding <= c.maxUnits
      && c.investorClass in s.products[product].classes && c.jurisdiction in s.products[product].jurisdictions
  }

  /** Some credential lets this investor hold that much now. */
  ghost predicate Eligible(w: World, s: State, product: string, investor: string, holding: int)
    requires product in s.products
  {
    exists c :: MayHold(w, s, product, investor, c, holding)
  }

  /** A credential that lets this holder leave: revoked ones are a restricted exit, others must be in their window. */
  predicate MayLeave(w: World, s: State, product: string, investor: string, credential: string, mode: Mode) {
    && credential in s.credentials && w.signed(credential)
    && var c := s.credentials[credential];
      && c.product == product && c.subject == investor
      && mode == (if credential in s.restricted then RESTRICTED_EXIT else STANDARD)
      && (credential in s.restricted || c.validFrom <= w.now < c.validUntil)
  }

  /** The evidence is unexpired, in effect, and nothing in effect is later. */
  predicate CurrentFor(s: State, nav: Nav, product: string, now: int) {
    && nav in s.navs && Effective(nav, product, now) && now < nav.expiresAt
    && forall i :: 0 <= i < |s.navs| && Effective(s.navs[i], product, now) ==> s.navs[i].effectiveAt <= nav.effectiveAt
  }

  /** What the law of the product asks of a transaction at the moment it settles. */
  ghost predicate Lawful(w: World, s: State, t: Transaction) {
    && t.product in s.products && s.products[t.product].status == ACTIVE && t.units > 0 && CurrentFor(s, t.nav, t.product, w.now)
    && t.settledAt == Some(w.now) && (t.kind != REDEEM ==> t.mode == STANDARD)
    && var p := s.products[t.product];
      match t.kind
      case SUBSCRIBE =>
        && t.cash == t.units * t.nav.value <= Get(s.cash, (t.buyer, p.currency))
        && Eligible(w, s, t.product, t.buyer, Get(s.assets, (t.buyer, t.product)) + t.units)
      case TRANSFER =>
        && t.seller != t.buyer && w.now < t.expiresAt && t.price > 0 && t.fee >= 0
        && t.units <= Get(s.assets, (t.seller, t.product)) && t.units * t.price + t.fee <= Get(s.cash, (t.buyer, p.currency))
        && Abs(t.price - t.nav.value) * 10_000 <= t.nav.value * p.maxDeviation
        && Eligible(w, s, t.product, t.seller, Get(s.assets, (t.seller, t.product)))
        && Eligible(w, s, t.product, t.buyer, Get(s.assets, (t.buyer, t.product)) + t.units)
      case REDEEM =>
        && t.units <= Get(s.assets, (t.seller, t.product)) && t.cash == t.units * t.nav.value <= Get(s.cash, (p.issuer, p.currency))
        && exists c :: MayLeave(w, s, t.product, t.seller, c, t.mode)
  }

  lemma NavIsCurrentFor(s: State, product: string, now: int)
    requires CurrentNav(s, product, now).Ok?
    ensures CurrentFor(s, CurrentNav(s, product, now).value, product, now)
  {
  }

  lemma SettlesLawfully(w: World, s: State, r: Request)
    requires SettleError(w, s, r).None?
    ensures Lawful(w, s, SettledTransaction(s, r, CurrentNav(s, r.product, w.now).value, w.now))
  {
    hide LatestNav, Get, Abs, Effective, CurrentFor, MayHold;
    NavIsCurrentFor(s, r.product, w.now);
    match r
    case SubscribeRequest(_, _, investor, credential, units, _) => EligibleIff(w, s, r.product, investor, credential, units);
    case TransferRequest(_, _, seller, sellerCredential, buyer, buyerCredential, units, _, _, _) =>
      EligibleIff(w, s, r.product, seller, sellerCredential, 0);
      EligibleIff(w, s, r.product, buyer, buyerCredential, units);
    case RedeemRequest(_, _, investor, credential, _) =>
      assert MayLeave(w, s, r.product, investor, credential, if credential in s.restricted then RESTRICTED_EXIT else STANDARD);
  }

  /** A step that settles a transaction creates it, lawfully for the state and clock it runs in. */
  ghost predicate SettlesNow(s: State, e: Event, id: string, t: Transaction) {
    id !in s.transactions && Lawful(e.world, s, t)
  }

  predicate IsSettled(s: State, id: string) {
    id in s.transactions && s.transactions[id].state == SETTLED
  }

  lemma ExecuteSettles(w: World, s: State, key: string, r: Request, id: string)
    requires IsSettled(Execute(w, s, key, r).0, id)
    ensures IsSettled(s, id) || (id !in s.transactions && Lawful(w, s, Execute(w, s, key, r).0.transactions[id]))
  {
    hide SettleError, CurrentNav, Paid, Moved, SettledTransaction, Lawful;
    if Replay(s, key, r).None? && SettleError(w, s, r).None? {
      SettlesLawfully(w, s, r);
    }
  }

  /** Neither transactions nor cases matter to the rules. */
  lemma LawfulIgnoresHistory(w: World, s: State, u: State, t: Transaction)
    requires u == s.(transactions := u.transactions, cases := u.cases)
    ensures Lawful(w, u, t) == Lawful(w, s, t)
  {
    hide Get, Abs, Effective;
    if t.product in s.products {
      assert forall i, c, holding :: MayHold(w, u, t.product, i, c, holding) == MayHold(w, s, t.product, i, c, holding);
      assert forall i, holding :: Eligible(w, u, t.product, i, holding) == Eligible(w, s, t.product, i, holding);
      assert forall i, c, mode :: MayLeave(w, u, t.product, i, c, mode) == MayLeave(w, s, t.product, i, c, mode);
      hide MayHold, MayLeave, Eligible;
    }
  }

  lemma ApproveSettles(w: World, s: State, id: string, checker: string, x: string)
    requires Inv(s) && IsSettled(Approve(w, s, id, checker).0, x)
    ensures IsSettled(s, x) || (x !in s.transactions && Lawful(w, s, Approve(w, s, id, checker).0.transactions[x]))
  {
    hide Execute, RetryKey, Lawful, Resolve, Mark, Inv;
    if id in s.cases && s.cases[id].transaction in s.transactions && s.cases[id].proposal.Some? {
      var c, p := s.cases[id], s.cases[id].proposal.value;
      var y := c.transaction;
      var approved := s.(transactions := s.transactions[y := Mark(s.transactions[y], s.transactions[y].state, ReviewApproved, w.now)]);
      var t := Execute(w, approved, RetryKey(id, p.replacement), Renamed(c.retry, p.replacement)).0;
      ResolveSettles(approved, id, CANCELLED, Cancelled, c.(status := RESOLVED_CANCELLED, checker := Some(checker)), w.now, x);
      ResolveSettles(approved, id, REQUIRES_REVIEW, RetryBlocked, c.(status := OPEN, proposal := None), w.now, x);
      ResolveSettles(t, id, REPLACED, Replaced, c.(status := RESOLVED_RETRIED, replacement := Some(p.replacement), checker := Some(checker)), w.now, x);
      MarkSettles(s, y, ReviewApproved, w.now, x);
      if IsSettled(t, x) {
        ExecuteSettles(w, approved, RetryKey(id, p.replacement), Renamed(c.retry, p.replacement), x);
        LawfulIgnoresHistory(w, s, approved, t.transactions[x]);
      }
    }
  }

  lemma ResolveSettles(s: State, id: string, state: TxState, stage: Stage, c: Case, now: int, x: string)
    requires c.transaction in s.transactions && state != SETTLED
    ensures var t := Resolve(s, id, state, stage, c, now);
      IsSettled(t, x) ==> IsSettled(s, x) && t.transactions[x] == s.transactions[x]
  {
  }

  lemma MarkSettles(s: State, y: string, stage: Stage, now: int, x: string)
    requires y in s.transactions
    ensures var t := s.(transactions := s.transactions[y := Mark(s.transactions[y], s.transactions[y].state, stage, now)]);
      IsSettled(t, x) == IsSettled(s, x) && (x in t.transactions <==> x in s.transactions)
  {
  }

  lemma SimulateSettlesNothing(w: World, s: State, key: string, r: Request, x: string)
    requires r.TransferRequest?
    ensures IsSettled(Simulate(w, s, key, r).0, x) ==> IsSettled(s, x)
  {
    hide CurrentNav, EligibleError, Get, Abs;
  }

  lemma ProposeSettlesNothing(w: World, s: State, id: string, maker: string, retry: bool, replacement: string, x: string)
    ensures IsSettled(Propose(w, s, id, maker, retry, replacement).0, x) ==> IsSettled(s, x)
  {
  }

  lemma StepSettles(s: State, e: Event, x: string)
    requires Inv(s) && IsSettled(Step(s, e).0, x)
    ensures IsSettled(s, x) || SettlesNow(s, e, x, Step(s, e).0.transactions[x])
  {
    hide Inv, Execute, Simulate, Propose, Approve, CreditCash, Configure, Lawful;
    match e.action
    case DoExecute(key, r) => ExecuteSettles(e.world, s, key, r, x);
    case DoSimulate(key, r) =>
      if r.TransferRequest? {
        SimulateSettlesNothing(e.world, s, key, r, x);
      }
    case DoPropose(id, maker, retry, replacement) => ProposeSettlesNothing(e.world, s, id, maker, retry, replacement, x);
    case DoApprove(id, checker) => ApproveSettles(e.world, s, id, checker, x);
    case DoCredit(account, currency, amount) => CreditKeepsEntries(s, account, currency, amount);
    case _ => ConfigureLeaves(s, e);
  }

  /** The rules look at what a transaction was made for, never at its state or history. */
  lemma LawfulIgnoresState(w: World, s: State, t: Transaction, u: Transaction)
    requires u == t.(state := u.state, lifecycle := u.lifecycle)
    ensures Lawful(w, s, u) == Lawful(w, s, t)
  {
    hide Get, Abs, CurrentFor, Eligible, MayLeave;
  }

  /** The call at position i settles the transaction. */
  ghost predicate SettlesAt(events: seq<Event>, i: nat, id: string)
    requires IsSettled(Run(events), id)
  {
    i < |events| && SettlesNow(Run(events[..i]), events[i], id, Run(events).transactions[id]) && IsSettled(Run(events[..i + 1]), id)
  }

  /**
   Whichever way it came about, by a direct call or by an approved retry, every settled
   transaction was lawful at the one moment it was created: product active, evidence
   current, parties eligible at the balances and clock of that moment, price within the
   band and paid for.
   */
  lemma {:induction false} SettledWasLawful(events: seq<Event>, id: string)
    requires IsSettled(Run(events), id)
    ensures exists i: nat :: SettlesAt(events, i, id)
  {
    hide Step, Inv, Lawful, SettlesNow;
    var m := |events| - 1;
    var front := events[..m];
    RunKeeps(front);
    StepSettles(Run(front), events[m], id);
    assert events[..m + 1] == events;
    if IsSettled(Run(front), id) {
      SettledWasLawful(front, id);
      var i: nat :| SettlesAt(front, i, id);
      assert front[..i] == events[..i] && front[..i + 1] == events[..i + 1];
      SettledStays(front, events[m], id);
      SameSettlement(Run(events[..i]), events[i], id, Run(front).transactions[id], Run(events).transactions[id]);
      assert SettlesAt(events, i, id);
    } else {
      assert SettlesAt(events, m, id);
    }
  }

  lemma SettledStays(front: seq<Event>, e: Event, id: string)
    requires id in Run(front).transactions
    ensures var t := Step(Run(front), e).0;
      id in t.transactions && t.transactions[id] == Run(front).transactions[id].(state := t.transactions[id].state, lifecycle := t.transactions[id].lifecycle)
  {
    hide Step, Run;
    StepKeepsEvidence(Run(front), e, id);
  }

  lemma SameSettlement(s: State, e: Event, id: string, t: Transaction, u: Transaction)
    requires SettlesNow(s, e, id, t) && u == t.(state := u.state, lifecycle := u.lifecycle)
    ensures SettlesNow(s, e, id, u)
  {
    hide Lawful;
    LawfulIgnoresState(e.world, s, t, u);
  }

  lemma EligibleIff(w: World, s: State, product: string, investor: string, credential: string, more: int)
    requires product in s.products
    ensures EligibleError(w, s, product, investor, credential, more).None?
      <==> MayHold(w, s, product, investor, credential, Get(s.assets, (investor, product)) + more)
  {
    hide Get;
  }

  /** A redemption that everything but its credential allows. */
  predicate Redeemable(w: World, s: State, key: string, r: Request) {
    && r.RedeemRequest? && key != "" && key !in s.idempotency && r.id !in s.transactions
    && r.product in s.products && s.products[r.product].status == ACTIVE
    && 0 < r.units <= Get(s.assets, (r.investor, r.product))
    && CurrentNav(s, r.product, w.now).Ok?
    && r.units * CurrentNav(s, r.product, w.now).value.value <= Get(s.cash, (s.products[r.product].issuer, s.products[r.product].currency))
  }

  /** The redemption went through and took the units off the investor in ledger and register. */
  predicate Redeemed(s: State, t: State, reply: Reply, r: Request, mode: Mode)
    requires r.RedeemRequest?
  {
    && reply.Receipted? && reply.receipt.transaction == r.id && reply.receipt.state == SETTLED && reply.receipt.mode == mode
    && t.assets == Put(s.assets, (r.investor, r.product), -r.units) && t.register == Put(s.register, (r.investor, r.product), -r.units)
  }

  /**
   A revoked credential redeems whatever its window; an unrevoked one outside its window
   does not, and the call changes nothing.
   */
  lemma RevokedHoldersMayExit(w: World, s: State, key: string, r: Request)
    requires Redeemable(w, s, key, r) && r.credential in s.credentials && w.signed(r.credential)
    requires s.credentials[r.credential].product == r.product && s.credentials[r.credential].subject == r.investor
    ensures var (t, reply) := Execute(w, s, key, r);
      if r.credential in s.restricted then Redeemed(s, t, reply, r, RESTRICTED_EXIT)
      else if CurrentCredential(s.credentials[r.credential], w.now) then Redeemed(s, t, reply, r, STANDARD)
      else t == s && reply == Failed("EXIT_NOT_ALLOWED")
  {
    hide CurrentNav, Get, Put;
  }

  /** Revoking a credential, whoever's it is, takes no redemption away: what could be redeemed before still can, for the same cash. */
  lemma RevocationNeverTraps(w: World, s: State, key: string, r: Request, revoked: string)
    requires r.RedeemRequest? && !Execute(w, s, key, r).1.Failed?
    ensures var u := RevokeCredential(s, revoked).0;
      !Execute(w, u, key, r).1.Failed? && SameBalances(Execute(w, s, key, r).0, Execute(w, u, key, r).0)
  {
    hide Execute, Settle, SubscribeError, TransferError, RedeemError, CurrentNav, Replay, RevokeCredential;
    var u := RevokeCredential(s, revoked).0;
    RevokeRestricts(s, revoked);
    SameNav(s, u, r.product, w.now);
    SameReplay(s, u, key, r);
    ExecuteCases(w, s, key, r);
    ExecuteCases(w, u, key, r);
    if Replay(s, key, r).None? {
      StillRedeemable(w, s, u, r);
      SamePayment(w, s, u, r);
    }
  }

  lemma RevokeRestricts(s: State, id: string)
    ensures var u := RevokeCredential(s, id).0; u == s.(restricted := u.restricted) && s.restricted <= u.restricted
  {
  }

  lemma SameNav(s: State, u: State, product: string, now: int)
    requires u.navs == s.navs
    ensures CurrentNav(u, product, now) == CurrentNav(s, product, now)
  {
  }

  lemma SameReplay(s: State, u: State, key: string, r: Request)
    requires u.idempotency == s.idempotency
    ensures Replay(u, key, r) == Replay(s, key, r)
  {
  }

  lemma ExecuteCases(w: World, s: State, key: string, r: Request)
    ensures var (t, reply) := Execute(w, s, key, r);
      if Replay(s, key, r).Some? then t == s && Some(reply) == Replay(s, key, r)
      else if SettleError(w, s, r).Some? then t == s && reply.Failed?
      else !reply.Failed? && SameBalances(Settle(w, s, r, CurrentNav(s, r.product, w.now).value), t)
  {
    hide Replay, SettleError, CurrentNav, Paid, Moved, SettledTransaction;
  }

  lemma StillRedeemable(w: World, s: State, u: State, r: Request)
    requires r.RedeemRequest? && RedeemError(w, s, r).None?
    requires u == s.(restricted := u.restricted) && s.restricted <= u.restricted
    requires CurrentNav(u, r.product, w.now) == CurrentNav(s, r.product, w.now)
    ensures RedeemError(w, u, r).None?
  {
    hide CurrentNav, Get;
  }

  lemma SamePayment(w: World, s: State, u: State, r: Request)
    requires r.product in s.products && CurrentNav(s, r.product, w.now).Ok?
    requires u == s.(restricted := u.restricted)
    requires CurrentNav(u, r.product, w.now) == CurrentNav(s, r.product, w.now)
    ensures var nav := CurrentNav(s, r.product, w.now).value; SameBalances(Settle(w, s, r, nav), Settle(w, u, r, nav))
  {
    hide CurrentNav, Put;
  }

  // ----- replay -----

  ghost predicate EntriesStay(s: State, t: State) {
    forall k :: k in s.idempotency ==> k in t.idempotency && t.idempotency[k] == s.idempotency[k]
  }

  lemma ExecuteKeepsEntries(w: World, s: State, key: string, r: Request)
    ensures EntriesStay(s, Execute(w, s, key, r).0)
    ensures !Execute(w, s, key, r).1.Failed? ==>
      var t := Execute(w, s, key, r).0; key in t.idempotency && t.idempotency[key].request == r && Execute(w, s, key, r).1 == Receipted(t.idempotency[key].result)
  {
    hide SettleError, CurrentNav, Paid, Moved, SettledTransaction;
  }

  lemma SimulateKeepsEntries(w: World, s: State, key: string, r: Request)
    requires r.TransferRequest?
    ensures EntriesStay(s, Simulate(w, s, key, r).0)
  {
    hide TransferError, CurrentNav;
  }

  lemma ApprovalKeepsEntries(w: World, s: State, id: string, checker: string)
    ensures EntriesStay(s, Approve(w, s, id, checker).0)
  {
    hide Execute, RetryKey, Mark, Resolve;
    if id in s.cases && s.cases[id].transaction in s.transactions && s.cases[id].proposal.Some? {
      var c := s.cases[id];
      var p := c.proposal.value;
      var approved := s.(transactions := s.transactions[c.transaction := Mark(s.transactions[c.transaction], s.transactions[c.transaction].state, ReviewApproved, w.now)]);
      var t := Execute(w, approved, RetryKey(id, p.replacement), Renamed(c.retry, p.replacement)).0;
      ExecuteKeepsEntries(w, approved, RetryKey(id, p.replacement), Renamed(c.retry, p.replacement));
      ResolveLeaves(approved, id, CANCELLED, Cancelled, c.(status := RESOLVED_CANCELLED, checker := Some(checker)), w.now);
      ResolveLeaves(approved, id, REQUIRES_REVIEW, RetryBlocked, c.(status := OPEN, proposal := None), w.now);
      ResolveLeaves(t, id, REPLACED, Replaced, c.(status := RESOLVED_RETRIED, replacement := Some(p.replacement), checker := Some(checker)), w.now);
    }
  }

  /** A stored result is never replaced. */
  lemma StepKeepsEntries(s: State, e: Event)
    ensures EntriesStay(s, Step(s, e).0)
  {
    hide EntriesStay, Execute, Simulate, Propose, Approve, CreditCash, Configure;
    match e.action
    case DoExecute(key, r) => ExecuteKeepsEntries(e.world, s, key, r);
    case DoSimulate(key, r) =>
      if r.TransferRequest? {
        SimulateKeepsEntries(e.world, s, key, r);
      } else {
        SameEntries(s, s);
      }
    case DoApprove(id, checker) => ApprovalKeepsEntries(e.world, s, id, checker);
    case DoPropose(id, maker, retry, replacement) => ProposeKeepsEntries(e.world, s, id, maker, retry, replacement);
    case DoCredit(account, currency, amount) =>
      CreditKeepsEntries(s, account, currency, amount);
      SameEntries(s, Step(s, e).0);
    case _ =>
      ConfigureLeaves(s, e);
      SameEntries(s, Step(s, e).0);
  }

  lemma ProposeKeepsEntries(w: World, s: State, id: string, maker: string, retry: bool, replacement: string)
    ensures EntriesStay(s, Propose(w, s, id, maker, retry, replacement).0)
    ensures Propose(w, s, id, maker, retry, replacement).0.idempotency == s.idempotency
  {
    hide Mark;
  }

  lemma CreditKeepsEntries(s: State, account: string, currency: string, amount: int)
    ensures var t := CreditCash(s, account, currency, amount).0;
      t.idempotency == s.idempotency && t.transactions == s.transactions && t.settlements == s.settlements
  {
    hide Put;
  }

  lemma SameEntries(s: State, t: State)
    requires t.idempotency == s.idempotency
    ensures EntriesStay(s, t)
  {
  }

  /** Once a call has succeeded under a key, repeating it returns the stored result and changes nothing, after any further calls. */
  lemma ReplayReturnsTheFirstResult(before: seq<Event>, w: World, key: string, r: Request, later: seq<Event>, again: World)
    requires !Execute(w, Run(before), key, r).1.Failed?
    ensures var events := before + [Event(w, DoExecute(key, r))] + later;
      Execute(again, Run(events), key, r) == (Run(events), Execute(w, Run(before), key, r).1)
  {
    var first := before + [Event(w, DoExecute(key, r))];
    StoredAfter(before, w, key, r, later);
    var s := Run(first + later);
    ExecuteKeepsEntries(w, Run(before), key, r);
    KeyIsNotEmpty(w, Run(before), key, r);
    hide SettleError, CurrentNav, Run;
    assert Replay(s, key, r) == Some(Receipted(s.idempotency[key].result));
  }

  lemma KeyIsNotEmpty(w: World, s: State, key: string, r: Request)
    requires !Execute(w, s, key, r).1.Failed?
    ensures key != ""
  {
    hide SettleError, CurrentNav, Paid, Moved, SettledTransaction;
  }

  lemma {:induction false} StoredAfter(before: seq<Event>, w: World, key: string, r: Request, later: seq<Event>)
    requires !Execute(w, Run(before), key, r).1.Failed?
    ensures var t := Run(before + [Event(w, DoExecute(key, r))] + later);
      key in t.idempotency && t.idempotency[key].request == r && Execute(w, Run(before), key, r).1 == Receipted(t.idempotency[key].result)
    decreases |later|
  {
    hide Execute;
    var first := before + [Event(w, DoExecute(key, r))];
    if later == [] {
      ExecuteKeepsEntries(w, Run(before), key, r);
      assert first + later == first && first[..|before|] == before;
    } else {
      var front, last := later[..|later| - 1], later[|later| - 1];
      StoredAfter(before, w, key, r, front);
      assert (first + later)[..|first + later| - 1] == first + front && (first + later)[|first + later| - 1] == last;
      hide Step;
      StepKeepsEntries(Run(first + front), last);
    }
  }

  // ----- the exception workflow -----

  /** Case status and transaction state correspond, and every resolution has a checker other than its maker. */
  lemma ExceptionLifecycle(events: seq<Event>, id: string, x: string)
    ensures var s := Run(events);
      id in s.cases ==>
        var c := s.cases[id];
        && c.transaction in s.transactions
        && (c.status == OPEN <==> s.transactions[c.transaction].state == REQUIRES_REVIEW)
        && (c.status == PENDING <==> s.transactions[c.transaction].state == PENDING_APPROVAL)
        && (c.status == RESOLVED_CANCELLED <==> s.transactions[c.transaction].state == CANCELLED)
        && (c.status == RESOLVED_RETRIED <==> s.transactions[c.transaction].state == REPLACED)
        && (c.status == RESOLVED_CANCELLED || c.status == RESOLVED_RETRIED ==>
          c.proposal.Some? && c.checker.Some? && c.checker.value != c.proposal.value.maker)
    ensures var s := Run(events);
      x in s.transactions ==> (s.transactions[x].state == SETTLED <==> CaseId(x) !in s.cases)
  {
    RunKeeps(events);
    hide Run, Money, Units, Holdings, Books, RetryKey, Carries;
    var s := Run(events);
    if id in s.cases {
      assert CaseGood(s, id);
    }
  }

  predicate Retried(s: State, id: string) {
    id in s.cases && s.cases[id].status == RESOLVED_RETRIED && s.cases[id].replacement.Some?
  }

  /**
   Retried cases have pairwise distinct replacements with the stored economics, and a
   replacement is settled exactly when no register failure was first simulated under the
   case's retry key for that same request.
   */
  lemma RetriedReplacements(events: seq<Event>, a: string, b: string)
    requires Retried(Run(events), a)
    ensures var s := Run(events); var r := s.cases[a].replacement.value;
      && r in s.transactions && Carries(s.transactions[r], s.cases[a].retry)
      && (s.transactions[r].state == SETTLED <==> !SimulatedBefore(events, RetryKey(a, r), Renamed(s.cases[a].retry, r)))
    ensures var s := Run(events);
      Retried(s, b) && s.cases[b].replacement == s.cases[a].replacement ==> a == b
  {
    RunKeeps(events);
    hide Run, Money, Units, Holdings, Books;
    var s := Run(events);
    var r := s.cases[a].replacement.value;
    hide SimulatedBefore;
    UnsettledIff(events, RetryKey(a, r), Renamed(s.cases[a].retry, r));
    assert CaseGood(s, a) && EntryGood(s, RetryKey(a, r));
    CarriesIgnoresId(s.transactions[r], s.cases[a].retry, r);
    if Retried(s, b) && s.cases[b].replacement == s.cases[a].replacement {
      assert CaseGood(s, b);
      hide CaseGood, RetryKey, Carries;
      assert s.idempotency[RetryKey(a, r)].request.id == s.idempotency[RetryKey(b, r)].request.id;
      RetryKeyInjective(a, b, r);
    }
  }

  lemma CarriesIgnoresId(t: Transaction, r: Request, id: string)
    requires r.TransferRequest?
    ensures Carries(t, Renamed(r, id)) == Carries(t, r)
  {
  }

  /** Keys the retry path uses. */
  predicate Reserved(key: string) {
    |key| >= 16 && key[..16] == "exception-retry:"
  }

  /** Nobody simulates a register failure under a reserved key. */
  predicate NoReservedSimulation(events: seq<Event>) {
    forall i :: 0 <= i < |events| && events[i].action.DoSimulate? ==> !Reserved(events[i].action.key)
  }

  /** The stored result of a key is this request's and is not settled. */
  predicate Unsettled(s: State, key: string, r: Request) {
    key in s.idempotency && s.idempotency[key].request == r && s.idempotency[key].result.state != SETTLED
  }

  /** A call that simulates this failure under a key not used before. */
  predicate SimulatesFirst(s: State, e: Event, key: string, r: Request) {
    e.action == DoSimulate(key, r) && key !in s.idempotency && !Step(s, e).1.Failed?
  }

  ghost predicate SimulatedBefore(events: seq<Event>, key: string, r: Request) {
    exists i :: 0 <= i < |events| && SimulatesFirst(Run(events[..i]), events[i], key, r)
  }

  lemma ExecuteStoresSettled(w: World, s: State, k: string, q: Request, key: string, r: Request)
    ensures Unsettled(Execute(w, s, k, q).0, key, r) == Unsettled(s, key, r)
  {
    hide SettleError, CurrentNav, Paid, Moved;
    if Replay(s, k, q).None? && SettleError(w, s, q).None? {
      SettledCarries(s, q, CurrentNav(s, q.product, w.now).value, w.now);
    }
  }

  lemma SimulateStoresUnsettled(w: World, s: State, k: string, q: Request, key: string, r: Request)
    requires q.TransferRequest?
    ensures var (t, reply) := Simulate(w, s, k, q);
      Unsettled(t, key, r) <==> Unsettled(s, key, r) || (k == key && q == r && key !in s.idempotency && !reply.Failed?)
  {
    hide TransferError, CurrentNav;
  }

  lemma ApproveStoresSettled(w: World, s: State, id: string, checker: string, key: string, r: Request)
    ensures Unsettled(Approve(w, s, id, checker).0, key, r) == Unsettled(s, key, r)
  {
    hide Execute, RetryKey, Mark, Resolve;
    if id in s.cases && s.cases[id].transaction in s.transactions && s.cases[id].proposal.Some? {
      var c := s.cases[id];
      var p := c.proposal.value;
      var approved := s.(transactions := s.transactions[c.transaction := Mark(s.transactions[c.transaction], s.transactions[c.transaction].state, ReviewApproved, w.now)]);
      var t := Execute(w, approved, RetryKey(id, p.replacement), Renamed(c.retry, p.replacement)).0;
      ExecuteStoresSettled(w, approved, RetryKey(id, p.replacement), Renamed(c.retry, p.replacement), key, r);
      ResolveLeaves(approved, id, CANCELLED, Cancelled, c.(status := RESOLVED_CANCELLED, checker := Some(checker)), w.now);
      ResolveLeaves(approved, id, REQUIRES_REVIEW, RetryBlocked, c.(status := OPEN, proposal := None), w.now);
      ResolveLeaves(t, id, REPLACED, Replaced, c.(status := RESOLVED_RETRIED, replacement := Some(p.replacement), checker := Some(checker)), w.now);
    }
  }

  /** Only a first simulation makes an unsettled stored result, and it stays. */
  lemma StepUnsettledIff(s: State, e: Event, key: string, r: Request)
    ensures Unsettled(Step(s, e).0, key, r) <==> Unsettled(s, key, r) || SimulatesFirst(s, e, key, r)
  {
    hide Execute, Simulate, Propose, Approve, CreditCash, Configure;
    match e.action
    case DoExecute(k, q) => ExecuteStoresSettled(e.world, s, k, q, key, r);
    case DoApprove(id, checker) => ApproveStoresSettled(e.world, s, id, checker, key, r);
    case DoSimulate(k, q) =>
      if q.TransferRequest? {
        SimulateStoresUnsettled(e.world, s, k, q, key, r);
      }
    case DoPropose(id, maker, retry, replacement) => ProposeKeepsEntries(e.world, s, id, maker, retry, replacement);
    case DoCredit(account, currency, amount) => CreditKeepsEntries(s, account, currency, amount);
    case _ => ConfigureLeaves(s, e);
  }

  lemma {:induction false} UnsettledIff(events: seq<Event>, key: string, r: Request)
    ensures Unsettled(Run(events), key, r) <==> SimulatedBefore(events, key, r)
  {
    if events != [] {
      hide Step, SimulatesFirst, SimulatedBefore;
      var m := |events| - 1;
      UnsettledIff(events[..m], key, r);
      StepUnsettledIff(Run(events[..m]), events[m], key, r);
      SimulatedSplits(events, key, r);
    }
  }

  lemma SimulatedSplits(events: seq<Event>, key: string, r: Request)
    requires events != []
    ensures var m := |events| - 1;
      SimulatedBefore(events, key, r) <==> SimulatedBefore(events[..m], key, r) || SimulatesFirst(Run(events[..m]), events[m], key, r)
  {
    hide Run, SimulatesFirst;
    var m := |events| - 1;
    var front := events[..m];
    if SimulatedBefore(front, key, r) {
      var i :| 0 <= i < m && SimulatesFirst(Run(front[..i]), front[i], key, r);
      assert front[..i] == events[..i] && SimulatesFirst(Run(events[..i]), events[i], key, r);
    }
    if SimulatedBefore(events, key, r) && !SimulatesFirst(Run(front), events[m], key, r) {
      var i :| 0 <= i < |events| && SimulatesFirst(Run(events[..i]), events[i], key, r);
      assert i < m && front[..i] == events[..i] && SimulatesFirst(Run(front[..i]), front[i], key, r);
    }
  }

  /**
   Approving a retry closes the case on a replacement that is not settled exactly when, before
   the call, the retry key already held an unsettled result of that same request, that is,
   exactly when that failure had been simulated under the retry key.
   */
  lemma RetryClosesUnsettledIff(events: seq<Event>, w: World, id: string, checker: string)
    requires var s := Run(events);
      id in s.cases && s.cases[id].status == PENDING && s.cases[id].proposal.Some? && s.cases[id].proposal.value.retry
      && checker != "" && checker != s.cases[id].proposal.value.maker
    ensures var s := Run(events); var c := s.cases[id]; var r := c.proposal.value.replacement;
      var t := Approve(w, s, id, checker).0;
      && (ClosedUnsettled(t, id, r) <==> Unsettled(s, RetryKey(id, r), Renamed(c.retry, r)))
      && (ClosedUnsettled(t, id, r) <==> SimulatedBefore(events, RetryKey(id, r), Renamed(c.retry, r)))
  {
    RunKeeps(events);
    var s := Run(events);
    var r := s.cases[id].proposal.value.replacement;
    UnsettledIff(events, RetryKey(id, r), Renamed(s.cases[id].retry, r));
    ApproveKeeps(w, s, id, checker);
    ApproveStoresSettled(w, s, id, checker, RetryKey(id, r), Renamed(s.cases[id].retry, r));
    hide Run, SimulatedBefore;
    var t := Approve(w, s, id, checker).0;
    PendingFacts(s, id);
    hide Inv, Unsettled;
    ApproveKeepsRequest(w, s, id, checker);
    if Unsettled(s, RetryKey(id, r), Renamed(s.cases[id].retry, r)) {
      RetryAnswered(w, s, id, checker);
    }
    if Retried(t, id) && t.cases[id].replacement == Some(r) {
      ClosedOn(t, id);
    }
  }

  lemma PendingFacts(s: State, id: string)
    requires Inv(s) && id in s.cases
    ensures s.cases[id].transaction in s.transactions && s.cases[id].retry.TransferRequest?
  {
    hide Money, Units, Holdings, Books, RetryKey, Carries;
    assert CaseGood(s, id);
  }

  lemma ApproveKeepsRequest(w: World, s: State, id: string, checker: string)
    requires id in s.cases
    ensures var t := Approve(w, s, id, checker).0; id in t.cases && t.cases[id].retry == s.cases[id].retry
  {
    hide Execute, RetryKey, Mark, Resolve;
    if s.cases[id].transaction in s.transactions && s.cases[id].proposal.Some? {
      var c, p := s.cases[id], s.cases[id].proposal.value;
      var x := c.transaction;
      var approved := s.(transactions := s.transactions[x := Mark(s.transactions[x], s.transactions[x].state, ReviewApproved, w.now)]);
      var t := Execute(w, approved, RetryKey(id, p.replacement), Renamed(c.retry, p.replacement)).0;
      ResolveCase(approved, id, CANCELLED, Cancelled, c.(status := RESOLVED_CANCELLED, checker := Some(checker)), w.now);
      ResolveCase(approved, id, REQUIRES_REVIEW, RetryBlocked, c.(status := OPEN, proposal := None), w.now);
      ResolveCase(t, id, REPLACED, Replaced, c.(status := RESOLVED_RETRIED, replacement := Some(p.replacement), checker := Some(checker)), w.now);
    }
  }

  lemma ResolveCase(s: State, id: string, state: TxState, stage: Stage, c: Case, now: int)
    requires c.transaction in s.transactions
    ensures var t := Resolve(s, id, state, stage, c, now); id in t.cases && t.cases[id] == c
  {
  }

  /** A retry whose key already holds its request's result closes the case on the stored result. */
  lemma RetryAnswered(w: World, s: State, id: string, checker: string)
    requires id in s.cases && s.cases[id].transaction in s.transactions && s.cases[id].status == PENDING && s.cases[id].proposal.Some?
    requires s.cases[id].proposal.value.retry && checker != "" && checker != s.cases[id].proposal.value.maker
    requires var r := s.cases[id].proposal.value.replacement; Unsettled(s, RetryKey(id, r), Renamed(s.cases[id].retry, r))
    ensures var t := Approve(w, s, id, checker).0; Retried(t, id) && t.cases[id].replacement == Some(s.cases[id].proposal.value.replacement)
  {
    hide SettleError, CurrentNav, RetryKey, Mark, Settle;
    ReservedKey(id, s.cases[id].proposal.value.replacement);
  }

  /** A closed retry's replacement is settled exactly when its stored result is. */
  lemma ClosedOn(s: State, id: string)
    requires Inv(s) && Retried(s, id)
    ensures var r := s.cases[id].replacement.value;
      r in s.transactions && (s.transactions[r].state != SETTLED <==> Unsettled(s, RetryKey(id, r), Renamed(s.cases[id].retry, r)))
  {
    hide Money, Units, Holdings, Books, Carries, RetryKey;
    assert CaseGood(s, id) && EntryGood(s, RetryKey(id, s.cases[id].replacement.value));
  }

  /** The case is closed on this replacement, which exists and is not settled. */
  predicate ClosedUnsettled(s: State, id: string, replacement: string) {
    Retried(s, id) && s.cases[id].replacement == Some(replacement) && replacement in s.transactions && s.transactions[replacement].state != SETTLED
  }

  /** In particular, if no register failure is simulated under a reserved key, every replacement is settled. */
  lemma RetriedReplacementsSettle(events: seq<Event>, id: string)
    requires NoReservedSimulation(events) && Retried(Run(events), id)
    ensures var s := Run(events); var r := s.cases[id].replacement.value; r in s.transactions && s.transactions[r].state == SETTLED
  {
    hide Run, RetryKey, Step;
    RetriedReplacements(events, id, id);
    ReservedKey(id, Run(events).cases[id].replacement.value);
  }

  lemma ReservedKey(id: string, replacement: string)
    ensures Reserved(RetryKey(id, replacement))
  {
    assert RetryKey(id, replacement) == "exception-retry:" + (id + ":" + replacement);
  }

  // ----- evidence -----

  /** Later history entries are filtered out of the package. */
  lemma CreationIgnoresReview(stamps: seq<Stamp>, stamp: Stamp)
    requires !AtCreation(stamp.stage)
    ensures Creation(stamps + [stamp]) == Creation(stamps)
  {
    assert (stamps + [stamp])[..|stamps|] == stamps;
  }

  /** A transaction and its cash record as its evidence package sees them. */
  ghost predicate SameEvidence(s: State, t: State, x: string) {
    && x in s.transactions && x in t.transactions
    && t.transactions[x] == s.transactions[x].(state := t.transactions[x].state, lifecycle := t.transactions[x].lifecycle)
    && Creation(t.transactions[x].lifecycle) == Creation(s.transactions[x].lifecycle)
    && (x in s.settlements <==> x in t.settlements) && (x in s.settlements ==> t.settlements[x] == s.settlements[x])
  }

  lemma ExecuteKeepsEvidence(w: World, s: State, key: string, r: Request, x: string)
    requires x in s.transactions
    ensures SameEvidence(s, Execute(w, s, key, r).0, x)
  {
    hide SettleError, CurrentNav, Paid, Moved, SettledTransaction, Creation;
  }

  lemma SimulateKeepsEvidence(w: World, s: State, key: string, r: Request, x: string)
    requires x in s.transactions && r.TransferRequest?
    ensures SameEvidence(s, Simulate(w, s, key, r).0, x)
  {
    hide CurrentNav, EligibleError, Creation;
  }

  lemma MarkKeepsEvidence(s: State, t: State, x: string, y: string, state: TxState, stage: Stage, now: int)
    requires x in s.transactions && y in s.transactions && !AtCreation(stage) && t.settlements == s.settlements
    requires t.transactions == s.transactions[y := Mark(s.transactions[y], state, stage, now)]
    ensures SameEvidence(s, t, x)
  {
    hide Creation;
    CreationIgnoresReview(s.transactions[y].lifecycle, Stamp(stage, now));
  }

  lemma SameEvidenceChain(s: State, t: State, u: State, x: string)
    requires SameEvidence(s, t, x) && SameEvidence(t, u, x)
    ensures SameEvidence(s, u, x)
  {
    hide Creation;
  }

  lemma DecideKeepsEvidence(w: World, s: State, id: string, checker: string, x: string)
    requires id in s.cases && s.cases[id].proposal.Some? && s.cases[id].transaction in s.transactions && x in s.transactions
    ensures SameEvidence(s, Decide(w, s, id, checker).0, x)
  {
    hide Execute, SameEvidence, RetryKey, Mark;
    var c := s.cases[id];
    var p, y := c.proposal.value, c.transaction;
    var approved := s.(transactions := s.transactions[y := Mark(s.transactions[y], s.transactions[y].state, ReviewApproved, w.now)]);
    var end := Decide(w, s, id, checker).0;
    MarkKeepsEvidence(s, approved, x, y, s.transactions[y].state, ReviewApproved, w.now);
    if !p.retry {
      MarkKeepsEvidence(approved, end, x, y, CANCELLED, Cancelled, w.now);
      SameEvidenceChain(s, approved, end, x);
    } else {
      var (t, reply) := Execute(w, approved, RetryKey(id, p.replacement), Renamed(c.retry, p.replacement));
      if reply.Failed? {
        MarkKeepsEvidence(approved, end, x, y, REQUIRES_REVIEW, RetryBlocked, w.now);
        SameEvidenceChain(s, approved, end, x);
      } else {
        ExecuteKeepsEvidence(w, approved, RetryKey(id, p.replacement), Renamed(c.retry, p.replacement), x);
        SameEvidenceChain(s, approved, t, x);
        MarkKeepsEvidence(t, end, x, y, REPLACED, Replaced, w.now);
        SameEvidenceChain(s, t, end, x);
      }
    }
  }

  lemma StepKeepsEvidence(s: State, e: Event, x: string)
    requires x in s.transactions
    ensures SameEvidence(s, Step(s, e).0, x)
  {
    hide Execute, Simulate, Approve, SameEvidence, Propose, CreditCash, Configure;
    match e.action
    case DoExecute(key, r) => ExecuteKeepsEvidence(e.world, s, key, r, x);
    case DoSimulate(key, r) =>
      if r.TransferRequest? {
        SimulateKeepsEvidence(e.world, s, key, r, x);
      } else {
        SameTransactions(s, s, x);
      }
    case DoPropose(id, maker, retry, replacement) => ProposeKeepsEvidence(e.world, s, id, maker, retry, replacement, x);
    case DoApprove(id, checker) => ApproveKeepsEvidence(e.world, s, id, checker, x);
    case DoCredit(account, currency, amount) =>
      CreditKeepsEntries(s, account, currency, amount);
      SameTransactions(s, Step(s, e).0, x);
    case _ =>
      ConfigureLeaves(s, e);
      SameTransactions(s, Step(s, e).0, x);
  }

  lemma SameTransactions(s: State, t: State, x: string)
    requires x in s.transactions && t.transactions == s.transactions && t.settlements == s.settlements
    ensures SameEvidence(s, t, x)
  {
    hide Creation;
  }

  lemma ApproveKeepsEvidence(w: World, s: State, id: string, checker: string, x: string)
    requires x in s.transactions
    ensures SameEvidence(s, Approve(w, s, id, checker).0, x)
  {
    hide Decide, SameEvidence;
    SameTransactions(s, s, x);
    if id in s.cases && s.cases[id].transaction in s.transactions && s.cases[id].proposal.Some? {
      DecideKeepsEvidence(w, s, id, checker, x);
    }
  }

  lemma ProposeKeepsEvidence(w: World, s: State, id: string, maker: string, retry: bool, replacement: string, x: string)
    requires x in s.transactions
    ensures SameEvidence(s, Propose(w, s, id, maker, retry, replacement).0, x)
  {
    hide Creation, Mark;
    var (t, reply) := Propose(w, s, id, maker, retry, replacement);
    if reply == Accepted {
      MarkKeepsEvidence(s, t, x, s.cases[id].transaction, PENDING_APPROVAL, ReviewProposed, w.now);
    }
  }

  /** Once a transaction exists, the core of its evidence package is the same after any further calls. */
  lemma {:induction false} EvidenceIsImmutable(before: seq<Event>, later: seq<Event>, x: string)
    requires x in Run(before).transactions
    ensures x in Run(before + later).transactions
    ensures EvidencePackage(Run(before + later), x) == EvidencePackage(Run(before), x) && EvidencePackage(Run(before), x).Ok?
    decreases |later|
  {
    hide Step, Creation;
    if later == [] {
      assert before + later == before;
    } else {
      var front, last := later[..|later| - 1], later[|later| - 1];
      EvidenceIsImmutable(before, front, x);
      assert (before + later)[..|before + later| - 1] == before + front && (before + later)[|before + later| - 1] == last;
      StepKeepsEvidence(Run(before + front), last, x);
    }
  }

  // ----- reconciliation -----

  /** Transactions of a product that are settled and cash-confirmed. */
  function SettledOf(product: string): (string, Transaction) -> int {
    (id: string, t: Transaction) => if t.product == product && t.state == SETTLED then 1 else 0
  }

  predicate Unresolved(c: Case, product: string) {
    c.product == product && c.status != RESOLVED_CANCELLED && c.status != RESOLVED_RETRIED
  }

  datatype Status = RECONCILIATION_EXCEPTION | ATTENTION_REQUIRED | SANDBOX_CONTROLLED

  predicate CashConfirmed(s: State, product: string) {
    forall id :: id in s.transactions && s.transactions[id].product == product && s.transactions[id].state == SETTLED ==>
      id in s.settlements && s.settlements[id].state == CONFIRMED
  }

  predicate AnyUnresolved(s: State, product: string) {
    exists id :: id in s.cases && Unresolved(s.cases[id], product)
  }

  /** The overall status `reconcile` derives. */
  ghost function Overall(s: State, product: string): Status {
    if !(Total(s.assets, product) == Total(s.register, product) && CashConfirmed(s, product)) then RECONCILIATION_EXCEPTION
    else if AnyUnresolved(s, product) then ATTENTION_REQUIRED
    else SANDBOX_CONTROLLED
  }

  /** Reconciliation never finds a mismatch, and asks for attention exactly while a case of the product is unresolved. */
  lemma ReconciliationMatches(events: seq<Event>, product: string)
    ensures var s := Run(events);
      && Overall(s, product) != RECONCILIATION_EXCEPTION
      && (Overall(s, product) == ATTENTION_REQUIRED <==> exists id :: id in s.cases && Unresolved(s.cases[id], product))
      && (exists id :: id in s.cases && Unresolved(s.cases[id], product)) ==
         (exists x :: x in s.transactions && s.transactions[x].product == product && (s.transactions[x].state == REQUIRES_REVIEW || s.transactions[x].state == PENDING_APPROVAL))
  {
    RunKeeps(events);
    hide Run, Total, Money, Holdings, RetryKey, Carries;
    var s := Run(events);
    forall id | id in s.transactions && s.transactions[id].product == product && s.transactions[id].state == SETTLED
      ensures id in s.settlements && s.settlements[id].state == CONFIRMED
    {
      assert BookGood(s, id);
    }
    hide Books, Units;
    UnresolvedCases(s, product);
  }

  lemma UnresolvedCases(s: State, product: string)
    requires Workflow(s)
    ensures (exists id :: id in s.cases && Unresolved(s.cases[id], product)) ==
         (exists x :: x in s.transactions && s.transactions[x].product == product && (s.transactions[x].state == REQUIRES_REVIEW || s.transactions[x].state == PENDING_APPROVAL))
  {
    hide RetryKey;
    if id :| id in s.cases && Unresolved(s.cases[id], product) {
      assert CaseGood(s, id);
      assert s.cases[id].transaction in s.transactions;
    }
    if x :| x in s.transactions && s.transactions[x].product == product && (s.transactions[x].state == REQUIRES_REVIEW || s.transactions[x].state == PENDING_APPROVAL) {
      assert CaseId(x) in s.cases && CaseGood(s, CaseId(x));
      CaseIdInjective(x, s.cases[CaseId(x)].transaction);
    }
  }
}
