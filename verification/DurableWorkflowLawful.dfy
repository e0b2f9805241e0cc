/**
 The law of the durable workflow, read off its tables: what every transaction was made
 under at the one event that created it, what it moved, and who decided its exception.
 */
module DurableWorkflowLawful {
  import opened Common
  import opened Ledger
  import opened DurableWorkflow
  import opened DurableWorkflowSafety
  import opened DurableWorkflowRetries

  // ----- the law -----

  /** Evidence row n is in effect for the product, and nothing in effect is later. */
  predicate Governs(navs: seq<Nav>, n: nat, product: string, now: int) {
    && n < |navs| && navs[n].product == product && navs[n].effectiveAt <= now < navs[n].expiresAt
    && forall m :: 0 <= m < |navs| && navs[m].product == product && navs[m].effectiveAt <= now < navs[m].expiresAt ==>
      navs[m].effectiveAt <= navs[n].effectiveAt
  }

  /** The credential is this subject's, in its window, acceptable to the product, and unrestricted unless its holder leaves. */
  predicate Allows(w: World, s: State, product: string, subject: string, credential: string, leaving: bool)
    requires product in s.products
  {
    credential in s.credentials &&
    var c, p := s.credentials[credential], s.products[product];
    && c.product == product && c.subject == subject && c.validFrom <= w.now < c.validUntil && (c.restricted ==> leaving)
    && c.investorClass in p.classes && c.jurisdiction in p.jurisdictions
  }

  /** The credential also covers what its holder will own in the register. */
  predicate AllowsMore(w: World, s: State, product: string, subject: string, credential: string, more: int)
    requires product in s.products
  {
    && Allows(w, s, product, subject, credential, false)
    && Balance(s.register, InvestorUnits(product, subject)) + more <= s.credentials[credential].maxUnits
  }

  /** The request is lawful at this state and clock under evidence row n. */
  predicate Lawful(w: World, s: State, r: Request, n: nat) {
    && r.product in s.products && s.products[r.product].active && r.units > 0
    && Governs(s.navs, n, r.product, w.now) && s.navs[n].currency == s.products[r.product].currency && w.cashProvider
    && var p, nav := s.products[r.product], s.navs[n].value;
      match r
      case SubscribeRequest(_, product, investor, credential, units, cash) =>
        && cash > 0 && cash == units * nav && cash <= Balance(s.ledger, InvestorCash(product, investor, p.currency))
        && AllowsMore(w, s, product, investor, credential, units)
      case TransferRequest(_, product, seller, sellerCredential, buyer, buyerCredential, units, price, fee, expiresAt) =>
        && w.now < expiresAt && seller != buyer && price > 0 && fee >= 0
        && (if price < nav then nav - price else price - nav) * 10_000 <= nav * p.maxDeviation
        && units <= Balance(s.ledger, InvestorUnits(product, seller))
        && units * price + fee <= Balance(s.ledger, InvestorCash(product, buyer, p.currency))
        && Allows(w, s, product, seller, sellerCredential, false) && AllowsMore(w, s, product, buyer, buyerCredential, units)
      case RedeemRequest(_, product, investor, credential, units) =>
        && units <= Balance(s.ledger, InvestorUnits(product, investor))
        && units * nav <= Balance(s.ledger, IssuerCash(product, p.issuer, p.currency))
        && Allows(w, s, product, investor, credential, true)
  }

  /** The accounts a request writes to. */
  predicate Touches(r: Request, p: Product, a: Account) {
    match r
    case SubscribeRequest(_, product, investor, _, _, _) =>
      a in {InvestorCash(product, investor, p.currency), IssuerCash(product, p.issuer, p.currency), Treasury(product), InvestorUnits(product, investor)}
    case TransferRequest(_, product, seller, _, buyer, _, _, _, fee, _) =>
      || a in {InvestorCash(product, buyer, p.currency), InvestorCash(product, seller, p.currency), InvestorUnits(product, seller), InvestorUnits(product, buyer)}
      || (fee != 0 && a == FeeCash(product, p.issuer, p.currency))
    case RedeemRequest(_, product, investor, _, _) =>
      a in {InvestorCash(product, investor, p.currency), IssuerCash(product, p.issuer, p.currency), Treasury(product), InvestorUnits(product, investor)}
  }

  /** Every account it writes to exists, the unit accounts in the register as well. */
  ghost predicate AccountsExist(s: State, r: Request)
    requires r.product in s.products
  {
    forall a :: Touches(r, s.products[r.product], a) ==> a in s.accounts && (a.asset.Units? ==> a in s.registerAccounts)
  }

  /** A settlement moves the request's cash and units and nothing else; a review moves nothing. */
  ghost predicate Moves(s: State, t: State, r: Request, nav: int, settled: bool)
    requires r.product in s.products
  {
    if !settled then t.ledger == s.ledger && t.register == s.register
    else AccountsExist(s, r) && forall a ::
      && Balance(t.ledger, a) == Balance(s.ledger, a) + CashDelta(r, s.products[r.product], nav, a) + UnitDelta(r, a)
      && Balance(t.register, a) == Balance(s.register, a) + UnitDelta(r, a)
  }

  /** The receipt tells whether the transaction settled, and whether as a restricted exit. */
  predicate ReceiptTells(s: State, i: Intent) {
    && i.receipt.Some? && i.receipt.value.transaction == i.request.id && (i.receipt.value.state == SETTLED || i.receipt.value.state == REQUIRES_REVIEW)
    && (i.receipt.value.restrictedExit <==>
      i.receipt.value.state == SETTLED && i.request.RedeemRequest? && i.request.credential in s.credentials && s.credentials[i.request.credential].restricted)
  }

  /** Between two states a transaction was made, lawfully and with what it moves. */
  ghost predicate MadeLawfully(w: World, s: State, t: State, x: string, n: nat) {
    && x !in s.intents && x in t.intents && t.intents[x].request.id == x
    && var i := t.intents[x];
      && Lawful(w, s, i.request, n) && ReceiptTells(s, i)
      && i.state == i.receipt.value.state && Moves(s, t, i.request, s.navs[n].value, i.state == SETTLED)
  }

  // ----- what the checks establish -----

  lemma AllowsChecked(w: World, s: State, p: Product, product: string, subject: string, credential: string, more: int, leaving: bool)
    requires product in s.products && p == s.products[product]
    ensures CredentialError(w, s, p, product, subject, credential, more, leaving).None? <==>
      && Allows(w, s, product, subject, credential, leaving)
      && (more > 0 ==> Balance(s.register, InvestorUnits(product, subject)) + more <= s.credentials[credential].maxUnits)
  {
    hide Balance;
  }

  lemma GovernsBest(navs: seq<Nav>, product: string, now: int)
    ensures BestNav(navs, |navs|, product, now).Some? ==> Governs(navs, BestNav(navs, |navs|, product, now).value, product, now)
    ensures BestNav(navs, |navs|, product, now).None? ==> forall n: nat :: !Governs(navs, n, product, now)
  {
  }

  lemma KindChecked(w: World, s: State, r: Request, n: nat)
    requires r.product in s.products && r.units > 0 && n < |s.navs|
    ensures var p, nav := s.products[r.product], s.navs[n].value;
      KindError(w, s, r, p, nav).None? ==>
      match r
      case SubscribeRequest(_, product, investor, credential, units, cash) =>
        && cash > 0 && cash == units * nav && cash <= Balance(s.ledger, InvestorCash(product, investor, p.currency))
        && AllowsMore(w, s, product, investor, credential, units)
      case TransferRequest(_, product, seller, sellerCredential, buyer, buyerCredential, units, price, fee, expiresAt) =>
        && w.now < expiresAt && seller != buyer && price > 0 && fee >= 0
        && (if price < nav then nav - price else price - nav) * 10_000 <= nav * p.maxDeviation
        && units <= Balance(s.ledger, InvestorUnits(product, seller))
        && units * price + fee <= Balance(s.ledger, InvestorCash(product, buyer, p.currency))
        && Allows(w, s, product, seller, sellerCredential, false) && AllowsMore(w, s, product, buyer, buyerCredential, units)
      case RedeemRequest(_, product, investor, credential, units) =>
        && units <= Balance(s.ledger, InvestorUnits(product, investor))
        && units * nav <= Balance(s.ledger, IssuerCash(product, p.issuer, p.currency))
        && Allows(w, s, product, investor, credential, true)
  {
    var p := s.products[r.product];
    hide Balance, CredentialError, Allows;
    match r
    case SubscribeRequest(_, product, investor, credential, units, cash) => AllowsChecked(w, s, p, product, investor, credential, units, false);
    case TransferRequest(_, product, seller, sellerCredential, buyer, buyerCredential, units, _, _, _) =>
      AllowsChecked(w, s, p, product, seller, sellerCredential, 0, false);
      AllowsChecked(w, s, p, product, buyer, buyerCredential, units, false);
    case RedeemRequest(_, product, investor, credential, _) => AllowsChecked(w, s, p, product, investor, credential, 0, true);
  }

  lemma PricedLawfully(w: World, s: State, r: Request)
    requires Priced(w, s, r).Ok? && w.cashProvider
    ensures r.product in s.products && BestNav(s.navs, |s.navs|, r.product, w.now).Some?
    ensures var n := BestNav(s.navs, |s.navs|, r.product, w.now).value;
      Lawful(w, s, r, n) && Priced(w, s, r) == Ok(s.navs[n].value)
  {
    GovernsBest(s.navs, r.product, w.now);
    var best := BestNav(s.navs, |s.navs|, r.product, w.now);
    hide BestNav, Governs, Balance;
    if best.Some? && r.product in s.products && r.units > 0 {
      KindChecked(w, s, r, best.value);
    }
    hide KindError, AllowsMore, Allows;
  }

  // ----- what is written -----

  /** `appendLedgerBatch` and `appendRegisterBatch` take exactly the balanced batches on accounts they know. */
  lemma AppendIff(batches: seq<Batch>, accounts: set<Account>, b: Batch, unknown: string)
    ensures var r := Append(batches, accounts, b, unknown);
      && (r.Ok? <==> Balanced(b.entries) && forall i :: 0 <= i < |b.entries| ==> b.entries[i].account in accounts)
      && (r.Ok? ==> r.value == batches + [b])
  {
    AcceptedMeansBalanced(b.entries);
    hide Balanced, BatchError;
    if !(AccountsOf(b.entries) <= accounts) {
      var a :| a in AccountsOf(b.entries) && a !in accounts;
      var i :| 0 <= i < |b.entries| && b.entries[i].account == a;
    }
  }

  /** The accounts a request writes to are those of its entries. */
  lemma TouchedEntries(r: Request, p: Product, nav: int, a: Account)
    requires Touches(r, p, a)
    ensures exists i :: 0 <= i < |LedgerBatch(r, p, nav).entries| && LedgerBatch(r, p, nav).entries[i].account == a
    ensures a.asset.Units? ==> exists i :: 0 <= i < |RegisterBatch(r).entries| && RegisterBatch(r).entries[i].account == a
  {
    var l, g, n := LedgerBatch(r, p, nav).entries, RegisterBatch(r).entries, |CashEntries(r, p, nav)|;
    assert l[0].account == CashEntries(r, p, nav)[0].account && l[1].account == CashEntries(r, p, nav)[1].account;
    assert l[n].account == g[0].account && l[n + 1].account == g[1].account;
    if r.TransferRequest? && r.fee != 0 {
      assert l[2].account == FeeCash(r.product, p.issuer, p.currency);
    }
  }

  lemma PostNeedsAccounts(w: World, s: State, key: string, r: Request, nav: int)
    requires r.product in s.products && Post(w, s, key, r, nav).1.Receipted?
    ensures AccountsExist(s, r)
  {
    var p := s.products[r.product];
    AppendIff(s.ledger, s.accounts, LedgerBatch(r, p, nav), "UNKNOWN_LEDGER_ACCOUNT");
    AppendIff(s.register, s.registerAccounts, RegisterBatch(r), "UNKNOWN_REGISTER_ACCOUNT");
    hide Append, LedgerBatch, RegisterBatch, RestrictedExit, Balanced, Touches;
    forall a | Touches(r, p, a) ensures a in s.accounts && (a.asset.Units? ==> a in s.registerAccounts) {
      TouchedEntries(r, p, nav, a);
    }
  }

  lemma PostMoves(w: World, s: State, key: string, r: Request, nav: int)
    requires r.product in s.products && Post(w, s, key, r, nav).1.Receipted?
    ensures w.cashProvider && Moves(s, Post(w, s, key, r, nav).0, r, nav, true)
    ensures r.id in Post(w, s, key, r, nav).0.intents
    ensures Post(w, s, key, r, nav).0.intents[r.id] == Intent(key, r, SETTLED, SETTLED_PATH, Some(Receipt(r.id, SETTLED, RestrictedExit(s, r))))
  {
    var p := s.products[r.product];
    PostWrites(w, s, key, r, nav);
    PostNeedsRole(w, s, key, r, nav);
    PostNeedsAccounts(w, s, key, r, nav);
    PostedSums(r, p, nav);
    CashSums(r, p, nav);
    UnitSums(r);
    var t := Post(w, s, key, r, nav).0;
    hide Post, CashEntries, UnitEntries, CashDelta, UnitDelta, Sum, Total, RestrictedExit, Touches;
    forall a
      ensures Balance(t.ledger, a) == Balance(s.ledger, a) + CashDelta(r, p, nav, a) + UnitDelta(r, a)
      ensures Balance(t.register, a) == Balance(s.register, a) + UnitDelta(r, a)
    {
      TotalMore(s.ledger, LedgerBatch(r, p, nav), OfAccount(a));
      TotalMore(s.register, RegisterBatch(r), OfAccount(a));
      assert LedgerBatch(r, p, nav).entries == Posted(r, p, nav);
    }
  }

  lemma PostNeedsRole(w: World, s: State, key: string, r: Request, nav: int)
    requires r.product in s.products && Post(w, s, key, r, nav).1.Receipted?
    ensures w.cashProvider
  {
    hide Append, LedgerBatch, RegisterBatch, RestrictedExit;
  }

  lemma SettleMakes(w: World, s: State, key: string, r: Request, registerFailure: bool, x: string)
    requires Inv(s) && x !in s.intents && x in Settle(w, s, key, r, registerFailure).0.intents
    ensures exists n: nat :: MadeLawfully(w, s, Settle(w, s, key, r, registerFailure).0, x, n)
    ensures registerFailure ==> Settle(w, s, key, r, registerFailure).0.intents[x].state == REQUIRES_REVIEW
  {
    KeysKnown(s);
    hide Inv, Priced, Post, Moves, Lawful;
    if key !in s.keys && Priced(w, s, r).Ok? && r.id !in s.intents {
      ProductPriced(w, s, r);
      var n := BestNav(s.navs, |s.navs|, r.product, w.now);
      if registerFailure {
        ReviewMakes(w, s, key, r, x);
      } else {
        if Post(w, s, key, r, Priced(w, s, r).value).1.Receipted? {
          PostMakes(w, s, key, r, x);
        }
      }
    }
  }

  lemma PostMakes(w: World, s: State, key: string, r: Request, x: string)
    requires Priced(w, s, r).Ok? && r.product in s.products && r.id !in s.intents && Post(w, s, key, r, Priced(w, s, r).value).1.Receipted?
    requires x !in s.intents && x in Post(w, s, key, r, Priced(w, s, r).value).0.intents
    ensures exists n: nat :: MadeLawfully(w, s, Post(w, s, key, r, Priced(w, s, r).value).0, x, n)
  {
    var nav := Priced(w, s, r).value;
    PostMoves(w, s, key, r, nav);
    PostWrites(w, s, key, r, nav);
    PricedLawfully(w, s, r);
    var t, n := Post(w, s, key, r, nav).0, BestNav(s.navs, |s.navs|, r.product, w.now).value;
    hide Priced, Post, Moves, Lawful, BestNav;
    assert x == r.id;
    assert MadeLawfully(w, s, t, x, n);
  }

  lemma ReviewMakes(w: World, s: State, key: string, r: Request, x: string)
    requires Priced(w, s, r).Ok? && r.product in s.products && r.id !in s.intents && x !in s.intents && x in Review(w, s, key, r).0.intents
    ensures exists n: nat :: MadeLawfully(w, s, Review(w, s, key, r).0, x, n)
    ensures Review(w, s, key, r).0.intents[x].state == REQUIRES_REVIEW
  {
    PricedLawfully(w, s, r);
    var t, n := Review(w, s, key, r).0, BestNav(s.navs, |s.navs|, r.product, w.now).value;
    hide Priced, Lawful, BestNav, CaseId;
    assert MadeLawfully(w, s, t, x, n);
  }

  lemma CloseAddsNothing(s: State, id: string, c: Case, to: TxState, status: CaseStatus, replacement: Option<string>)
    requires c.transaction in s.intents
    ensures var t := Close(s, id, c, to, status, replacement).0;
      && t.intents.Keys == s.intents.Keys && t.ledger == s.ledger && t.register == s.register
      && (forall x :: x in s.intents && x != c.transaction ==> t.intents[x] == s.intents[x])
  {
  }

  lemma RetryMakes(w: World, s: State, id: string, c: Case, replacement: string, x: string)
    requires Inv(s) && c.transaction in s.intents && x !in s.intents && x in Retry(w, s, id, c, replacement).0.intents
    ensures exists n: nat :: MadeLawfully(w, s, Retry(w, s, id, c, replacement).0, x, n)
  {
    hide Inv, Close, Settle, RetryKey, MadeLawfully;
    var key, r := RetryKey(id, replacement), Renamed(s.intents[c.transaction].request, replacement);
    var (t, reply) := Settle(w, s, key, r, false);
    CloseAddsNothing(s, id, c, REQUIRES_REVIEW, OPEN, None);
    CloseAddsNothing(t, id, c, REPLACED, RESOLVED_RETRIED, Some(replacement));
    if !reply.Failed? {
      SettleMakes(w, s, key, r, false, x);
      var n: nat :| MadeLawfully(w, s, t, x, n);
      SameMaking(w, s, t, Retry(w, s, id, c, replacement).0, x, n);
    }
  }

  lemma SameMaking(w: World, s: State, t: State, u: State, x: string, n: nat)
    requires MadeLawfully(w, s, t, x, n) && x in u.intents && u.intents[x] == t.intents[x] && u.ledger == t.ledger && u.register == t.register
    ensures MadeLawfully(w, s, u, x, n)
  {
    hide Lawful, Balance, CashDelta, UnitDelta;
  }

  lemma ApproveMakes(w: World, s: State, id: string, checker: string, approve: bool, x: string)
    requires Inv(s) && x !in s.intents && x in Approve(w, s, id, checker, approve).0.intents
    ensures exists n: nat :: MadeLawfully(w, s, Approve(w, s, id, checker, approve).0, x, n)
  {
    hide Inv, Close, Retry, Checked, MadeLawfully;
    if id in s.cases && s.cases[id].rounds != [] && s.cases[id].transaction in s.intents {
      var c := s.cases[id];
      CheckedTransaction(c, checker);
      var d := Checked(c, checker);
      CloseAddsNothing(s, id, d, REQUIRES_REVIEW, OPEN, None);
      CloseAddsNothing(s, id, d, CANCELLED, RESOLVED_CANCELLED, None);
      if approve && c.rounds[|c.rounds| - 1].retry && x in Retry(w, s, id, d, c.rounds[|c.rounds| - 1].replacement).0.intents {
        RetryMakes(w, s, id, d, c.rounds[|c.rounds| - 1].replacement, x);
      }
    }
  }

  lemma ProposeAddsNothing(s: State, id: string, maker: string, retry: bool, replacement: string)
    ensures var t := Propose(s, id, maker, retry, replacement).0; t.intents.Keys == s.intents.Keys && t.ledger == s.ledger && t.register == s.register
  {
  }

  lemma StepMakes(s: State, e: Event, x: string)
    requires Inv(s) && x !in s.intents && x in Step(s, e).0.intents
    ensures exists n: nat :: MadeLawfully(e.world, s, Step(s, e).0, x, n)
  {
    hide Inv, Settle, Propose, Approve, Opening, MadeLawfully;
    match e.action
    case DoSettle(key, r, registerFailure) =>
      if !registerFailure || r.TransferRequest? {
        SettleMakes(e.world, s, key, r, registerFailure, x);
      }
    case DoPropose(id, maker, retry, replacement) => ProposeAddsNothing(s, id, maker, retry, replacement);
    case DoApprove(id, checker, approve) => ApproveMakes(e.world, s, id, checker, approve, x);
    case Open(product, owner, amount) => OpeningKeys(s, product, owner, amount);
    case _ =>
  }

  /** The event at position i made the transaction, with the request and receipt it has at the end. */
  ghost predicate MadeAt(events: seq<Event>, i: nat, x: string, n: nat) {
    && i < |events| && MadeLawfully(events[i].world, Run(events[..i]), Run(events[..i + 1]), x, n)
    && x in Run(events).intents && Run(events).intents[x].request == Run(events[..i + 1]).intents[x].request
    && Run(events).intents[x].receipt == Run(events[..i + 1]).intents[x].receipt
  }

  /**
   In every run each transaction, settled or under review, direct or retried, goes back
   to the one event that made it. There the product was active, the evidence the latest
   in effect and in the product's currency, cash exactly units times NAV or the price in
   the band, every named credential good for it, every debit covered; the books then
   moved by exactly the request's cash and units, account by account, or not at all.
   */
  lemma {:induction false} MadeByALawfulEvent(events: seq<Event>, x: string)
    requires x in Run(events).intents
    ensures exists i: nat, n: nat :: MadeAt(events, i, x, n)
  {
    hide Step, Inv, MadeLawfully;
    var m := |events| - 1;
    var front := events[..m];
    RunLast(events);
    RunKeeps(front);
    assert events[..m + 1] == events;
    hide Run;
    if x in Run(front).intents {
      MadeByALawfulEvent(front, x);
      var i: nat, n: nat :| MadeAt(front, i, x, n);
      assert front[..i] == events[..i] && front[..i + 1] == events[..i + 1];
      StepIntents(Run(front), events[m]);
      assert MadeAt(events, i, x, n);
    } else {
      StepMakes(Run(front), events[m], x);
      var n: nat :| MadeLawfully(events[m].world, Run(front), Step(Run(front), events[m]).0, x, n);
      assert MadeAt(events, m, x, n);
    }
  }

  lemma RunLast(events: seq<Event>)
    requires events != []
    ensures Run(events) == Step(Run(events[..|events| - 1]), events[|events| - 1]).0
  {
    hide Step;
  }

  // ----- nothing else moves the books -----

  /** The transaction is new, settled and lawful. */
  ghost predicate Settles(w: World, s: State, t: State, x: string, n: nat) {
    MadeLawfully(w, s, t, x, n) && t.intents[x].state == SETTLED
  }

  ghost predicate SomeSettles(w: World, s: State, t: State) {
    exists x, n: nat :: Settles(w, s, t, x, n)
  }

  predicate SameBooks(s: State, t: State) {
    t.ledger == s.ledger && t.register == s.register
  }

  /** An opening brings its amount to the investor's cash account from outside, in the product's currency. */
  ghost predicate Opened(s: State, t: State, product: string, owner: string, amount: int) {
    && product in s.products && amount > 0 && t.register == s.register
    && InvestorCash(product, owner, s.products[product].currency) in s.accounts
    && Account(product, "EXTERNAL_CASH", Cash(s.products[product].currency), CASH_CLEARING) in s.accounts
    && var currency := s.products[product].currency;
      forall a :: Balance(t.ledger, a) == Balance(s.ledger, a)
        + (if a == InvestorCash(product, owner, currency) then amount else 0)
        - (if a == Account(product, "EXTERNAL_CASH", Cash(currency), CASH_CLEARING) then amount else 0)
  }

  lemma SettleBooks(w: World, s: State, key: string, r: Request, registerFailure: bool)
    requires Inv(s)
    ensures var t := Settle(w, s, key, r, registerFailure).0; SameBooks(s, t) || SomeSettles(w, s, t)
  {
    SettleCreates(w, s, key, r, registerFailure);
    hide Inv, Settle, MadeLawfully, Answered;
    var t := Settle(w, s, key, r, registerFailure).0;
    if t != s {
      SettleMakes(w, s, key, r, registerFailure, r.id);
      var n: nat :| MadeLawfully(w, s, t, r.id, n);
      MadeBooks(w, s, t, r.id, n);
    }
  }

  lemma MadeBooks(w: World, s: State, t: State, x: string, n: nat)
    requires MadeLawfully(w, s, t, x, n)
    ensures SameBooks(s, t) || SomeSettles(w, s, t)
  {
    hide Lawful, Balance, CashDelta, UnitDelta, ReceiptTells;
    if t.intents[x].state == SETTLED {
      assert Settles(w, s, t, x, n);
    }
  }

  lemma RetryBooks(w: World, s: State, id: string, c: Case, replacement: string)
    requires Inv(s) && c.transaction in s.intents
    ensures var t := Retry(w, s, id, c, replacement).0; SameBooks(s, t) || SomeSettles(w, s, t)
  {
    hide Inv, Close, Settle, RetryKey, MadeLawfully, SomeSettles;
    var key, r := RetryKey(id, replacement), Renamed(s.intents[c.transaction].request, replacement);
    var (t, reply) := Settle(w, s, key, r, false);
    CloseAddsNothing(s, id, c, REQUIRES_REVIEW, OPEN, None);
    CloseAddsNothing(t, id, c, REPLACED, RESOLVED_RETRIED, Some(replacement));
    SettleBooks(w, s, key, r, false);
    if !reply.Failed? && SomeSettles(w, s, t) {
      SettlesStill(w, s, t, Retry(w, s, id, c, replacement).0, c.transaction);
    }
  }

  lemma SettlesStill(w: World, s: State, t: State, u: State, y: string)
    requires SomeSettles(w, s, t) && SameBooks(t, u) && y in s.intents
    requires forall x :: x in t.intents && x != y ==> x in u.intents && u.intents[x] == t.intents[x]
    ensures SomeSettles(w, s, u)
  {
    hide Lawful, Balance, CashDelta, UnitDelta, ReceiptTells, Moves;
    var x, n: nat :| Settles(w, s, t, x, n);
    SameMaking(w, s, t, u, x, n);
    assert Settles(w, s, u, x, n);
  }

  lemma ApproveBooks(w: World, s: State, id: string, checker: string, approve: bool)
    requires Inv(s)
    ensures var t := Approve(w, s, id, checker, approve).0; SameBooks(s, t) || SomeSettles(w, s, t)
  {
    hide Inv, Close, Retry, Checked, SomeSettles;
    if id in s.cases && s.cases[id].rounds != [] && s.cases[id].transaction in s.intents {
      var c := s.cases[id];
      CheckedTransaction(c, checker);
      var d := Checked(c, checker);
      CloseAddsNothing(s, id, d, REQUIRES_REVIEW, OPEN, None);
      CloseAddsNothing(s, id, d, CANCELLED, RESOLVED_CANCELLED, None);
      RetryBooks(w, s, id, d, c.rounds[|c.rounds| - 1].replacement);
    }
  }

  lemma OpeningBooks(s: State, product: string, owner: string, amount: int)
    ensures var t := Opening(s, product, owner, amount).0; SameBooks(s, t) || Opened(s, t, product, owner, amount)
  {
    var t := Opening(s, product, owner, amount).0;
    hide BatchError, AccountsOf, Total, Sum;
    if t.ledger != s.ledger {
      var currency := s.products[product].currency;
      var from, to := InvestorCash(product, owner, currency), Account(product, "EXTERNAL_CASH", Cash(currency), CASH_CLEARING);
      var b := t.ledger[|s.ledger|];
      assert t.ledger == s.ledger + [b] && b.entries == Move(from, to, -amount);
      AppendIff(s.ledger, s.accounts, b, "UNKNOWN_LEDGER_ACCOUNT");
      assert b.entries[0].account == from && b.entries[1].account == to;
      hide Opening, Move;
      forall a ensures Balance(t.ledger, a) == Balance(s.ledger, a) + (if a == from then amount else 0) - (if a == to then amount else 0) {
        TotalMore(s.ledger, b, OfAccount(a));
        SumMove(from, to, -amount, OfAccount(a));
      }
    }
  }

  /** Every event leaves both books alone, settles one lawful transaction, or opens one investor's cash. */
  lemma BooksMoveOnly(s: State, e: Event)
    requires Inv(s)
    ensures var t := Step(s, e).0;
      || SameBooks(s, t) || SomeSettles(e.world, s, t)
      || (e.action.Open? && Opened(s, t, e.action.id, e.action.owner, e.action.amount))
  {
    hide Inv, Settle, Propose, Approve, Opening, SomeSettles, Opened;
    match e.action
    case DoSettle(key, r, registerFailure) => SettleBooks(e.world, s, key, r, registerFailure);
    case DoPropose(id, maker, retry, replacement) => ProposeAddsNothing(s, id, maker, retry, replacement);
    case DoApprove(id, checker, approve) => ApproveBooks(e.world, s, id, checker, approve);
    case Open(product, owner, amount) => OpeningBooks(s, product, owner, amount);
    case _ =>
  }

  // ----- lawful requests go through -----

  lemma LawfulPriced(w: World, s: State, r: Request, n: nat)
    requires Lawful(w, s, r, n) && BestNav(s.navs, |s.navs|, r.product, w.now) == Some(n)
    ensures Priced(w, s, r) == Ok(s.navs[n].value)
  {
    var p := s.products[r.product];
    hide BestNav, Governs, Balance;
    match r
    case SubscribeRequest(_, product, investor, credential, units, _) => AllowsChecked(w, s, p, product, investor, credential, units, false);
    case TransferRequest(_, product, seller, sellerCredential, buyer, buyerCredential, units, _, _, _) =>
      AllowsChecked(w, s, p, product, seller, sellerCredential, 0, false);
      AllowsChecked(w, s, p, product, buyer, buyerCredential, units, false);
    case RedeemRequest(_, product, investor, credential, _) => AllowsChecked(w, s, p, product, investor, credential, 0, true);
  }

  lemma BatchesPass(r: Request, p: Product, nav: int)
    requires r.units > 0 && nav > 0 && (r.SubscribeRequest? ==> r.cash > 0) && (r.TransferRequest? ==> r.price > 0 && r.fee >= 0)
    ensures BatchError(LedgerBatch(r, p, nav).entries).None? && BatchError(RegisterBatch(r).entries).None?
  {
    Positive(r.units, nav);
    if r.TransferRequest? {
      Positive(r.units, r.price);
    }
    PostedSums(r, p, nav);
    CashSums(r, p, nav);
    UnitSums(r);
    AcceptedMeansBalanced(LedgerBatch(r, p, nav).entries);
    AcceptedMeansBalanced(RegisterBatch(r).entries);
    hide Sum, BatchError;
  }

  lemma TouchedAccounts(s: State, r: Request, p: Product, nav: int)
    requires forall a :: Touches(r, p, a) ==> a in s.accounts && (a.asset.Units? ==> a in s.registerAccounts)
    ensures AccountsOf(LedgerBatch(r, p, nav).entries) <= s.accounts && AccountsOf(RegisterBatch(r).entries) <= s.registerAccounts
  {
    var l, g := LedgerBatch(r, p, nav).entries, RegisterBatch(r).entries;
    forall i | 0 <= i < |l| ensures Touches(r, p, l[i].account) {
    }
    forall i | 0 <= i < |g| ensures Touches(r, p, g[i].account) && g[i].account.asset.Units? {
    }
  }

  /**
   The converse: a new request that is lawful under whichever evidence governs, on
   accounts that exist, is settled.
   */
  lemma LawfulRequestsSettle(w: World, s: State, key: string, r: Request)
    requires Inv(s) && key !in s.keys && r.id !in s.intents
    requires (exists n: nat :: Governs(s.navs, n, r.product, w.now)) && forall n: nat :: Governs(s.navs, n, r.product, w.now) ==> Lawful(w, s, r, n)
    requires r.product in s.products ==> AccountsExist(s, r)
    ensures Settle(w, s, key, r, false).1.Receipted?
  {
    GovernsBest(s.navs, r.product, w.now);
    var n := BestNav(s.navs, |s.navs|, r.product, w.now).value;
    NavPositive(s, n);
    LawfulPriced(w, s, r, n);
    var p, nav := s.products[r.product], s.navs[n].value;
    LawfulAmounts(w, s, r, n);
    BatchesPass(r, p, nav);
    TouchedAccounts(s, r, p, nav);
    hide Lawful, Priced, Governs, BestNav, BatchError, AccountsOf, LedgerBatch, RegisterBatch, RestrictedExit, Inv, Touches;
  }

  lemma NavPositive(s: State, n: nat)
    requires Inv(s) && n < |s.navs|
    ensures s.navs[n].value > 0
  {
    hide Books, Workflow;
  }

  lemma LawfulAmounts(w: World, s: State, r: Request, n: nat)
    requires Lawful(w, s, r, n)
    ensures r.units > 0 && w.cashProvider && (r.SubscribeRequest? ==> r.cash > 0) && (r.TransferRequest? ==> r.price > 0 && r.fee >= 0)
  {
    hide Governs, Balance, Allows, AllowsMore;
  }
}
