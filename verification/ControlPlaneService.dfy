/** The engine as an object whose calls update its maps in place, one write after another. */
module ControlPlaneService {
  import opened Common
  import opened Sums
  import opened ControlPlane
  import opened ControlPlaneSafety

  class Engine {
    var products: map<string, Product>
    var credentials: map<string, Credential>
    var restricted: set<string>
    var navs: seq<Nav>
    var cashBalances: Balances
    var assetBalances: Balances
    var legalRegister: Balances
    var transactions: map<string, Transaction>
    var cashSettlements: map<string, CashRecord>
    var exceptionCases: map<string, Case>
    var idempotency: map<string, Entry>
    var credited: seq<Credit>

    function View(): State
      reads this
    {
      State(products, credentials, restricted, navs, cashBalances, assetBalances, legalRegister, transactions, cashSettlements,
        exceptionCases, idempotency, credited)
    }

    ghost predicate Valid()
      reads this
    {
      Inv(View())
    }

    constructor ()
      ensures Valid() && View() == INITIAL
    {
      products, credentials, restricted, navs := map[], map[], {}, [];
      cashBalances, assetBalances, legalRegister := map[], map[], map[];
      transactions, cashSettlements, exceptionCases, idempotency, credited := map[], map[], map[], map[], [];
      new;
      InitialInv();
    }

    twostate lemma StepIsValid(e: Event)
      requires old(Valid()) && View() == Step(old(View()), e).0
      ensures Valid()
    {
      StepKeeps(old(View()), e);
    }

    method RegisterProduct(w: World, id: string, p: Product) returns (reply: Reply)
      requires Valid()
      modifies this
      ensures Valid() && (View(), reply) == CreateProduct(w, old(View()), id, p)
    {
      hide Inv;
      if id in products {
        reply := Failed("DUPLICATE_PRODUCT");
      } else if !w.allowed {
        reply := Failed("UNAUTHORIZED_ISSUER");
      } else if p.currency == "" || p.classes == [] || p.jurisdictions == [] || p.maxDeviation < 0 || p.maxDeviation > 10_000 {
        reply := Failed("INVALID_RULES");
      } else {
        products := products[id := p.(status := DRAFT)];
        reply := Accepted;
      }
      StepIsValid(Event(w, DoCreateProduct(id, p)));
    }

    method ActivateProduct(w: World, id: string) returns (reply: Reply)
      requires Valid()
      modifies this
      ensures Valid() && (View(), reply) == Activate(w, old(View()), id)
    {
      hide Inv;
      if id !in products {
        reply := Failed("UNKNOWN_PRODUCT");
      } else if products[id].status == ACTIVE {
        reply := Failed("INVALID_PRODUCT_STATE");
      } else if !w.allowed {
        reply := Failed("INVALID_ROLE_ASSIGNMENT");
      } else {
        products := products[id := products[id].(status := ACTIVE)];
        reply := Accepted;
      }
      StepIsValid(Event(w, DoActivate(id)));
    }

    method PauseProduct(w: World, id: string) returns (reply: Reply)
      requires Valid()
      modifies this
      ensures Valid() && (View(), reply) == Pause(old(View()), id)
    {
      hide Inv;
      if id !in products {
        reply := Failed("UNKNOWN_PRODUCT");
      } else if products[id].status != ACTIVE {
        reply := Failed("INVALID_PRODUCT_STATE");
      } else {
        products := products[id := products[id].(status := PAUSED)];
        reply := Accepted;
      }
      StepIsValid(Event(w, DoPause(id)));
    }

    method RevokeHolder(w: World, id: string) returns (reply: Reply)
      requires Valid()
      modifies this
      ensures Valid() && (View(), reply) == RevokeCredential(old(View()), id)
    {
      hide Inv;
      if id !in credentials {
        reply := Failed("UNKNOWN_CREDENTIAL");
      } else if id in restricted {
        reply := Failed("CREDENTIAL_ALREADY_RESTRICTED");
      } else {
        restricted := restricted + {id};
        reply := Accepted;
      }
      StepIsValid(Event(w, DoRevokeCredential(id)));
    }

    method RegisterCredential(w: World, id: string, c: Credential) returns (reply: Reply)
      requires Valid()
      modifies this
      ensures Valid() && (View(), reply) == ControlPlane.RegisterCredential(w, old(View()), id, c)
    {
      hide Inv;
      if c.product !in products {
        reply := Failed("UNKNOWN_PRODUCT");
      } else if !w.allowed {
        reply := Failed("UNAUTHORIZED_CREDENTIAL_ISSUER");
      } else if !w.signed(id) {
        reply := Failed("INVALID_SIGNATURE");
      } else if id in credentials {
        reply := Failed("DUPLICATE_CREDENTIAL");
      } else if c.validUntil <= c.validFrom {
        reply := Failed("INVALID_CREDENTIAL_TIME");
      } else if c.maxUnits <= 0 {
        reply := Failed(if c.maxUnits < 0 then "INVALID_AMOUNT" else "INVALID_CREDENTIAL_LIMIT");
      } else {
        credentials := credentials[id := c];
        reply := Accepted;
      }
      StepIsValid(Event(w, DoRegisterCredential(id, c)));
    }

    method SubmitEvidence(w: World, nav: Nav) returns (reply: Reply)
      requires Valid()
      modifies this
      ensures Valid() && (View(), reply) == SubmitNav(w, old(View()), nav)
    {
      hide Inv;
      if nav.product !in products {
        reply := Failed("UNKNOWN_PRODUCT");
      } else if !w.allowed {
        reply := Failed("UNAUTHORIZED_EVIDENCE_SOURCE");
      } else if !w.signed(nav.id) {
        reply := Failed("INVALID_SIGNATURE");
      } else if nav.expiresAt <= nav.effectiveAt {
        reply := Failed("INVALID_EVIDENCE_TIME");
      } else if nav.value <= 0 {
        reply := Failed(if nav.value < 0 then "INVALID_AMOUNT" else "INVALID_NAV");
      } else if exists i :: 0 <= i < |navs| && navs[i].id == nav.id {
        reply := Failed("DUPLICATE_EVIDENCE");
      } else {
        navs := navs + [nav];
        reply := Accepted;
      }
      StepIsValid(Event(w, DoSubmitNav(nav)));
    }

    method CreditSandboxCash(w: World, account: string, currency: string, amount: int) returns (reply: Reply)
      requires Valid()
      modifies this
      ensures Valid() && (View(), reply) == CreditCash(old(View()), account, currency, amount)
    {
      hide Inv;
      if amount < 0 {
        reply := Failed("INVALID_AMOUNT");
      } else {
        var key := (account, currency);
        cashBalances := cashBalances[key := Get(cashBalances, key) + amount];
        credited := credited + [Credit(account, currency, amount)];
        reply := Accepted;
      }
      StepIsValid(Event(w, DoCredit(account, currency, amount)));
    }

    /** The NAV a settlement uses: scans the submissions for the latest effective one, then checks its expiry. */
    method CurrentEvidence(product: string, now: int) returns (r: Result<Nav>)
      ensures r == CurrentNav(View(), product, now)
    {
      var best: Option<nat> := None;
      for n := 0 to |navs|
        invariant best == LatestNav(navs, n, product, now)
      {
        if navs[n].product == product && navs[n].effectiveAt <= now && (best.None? || navs[best.value].effectiveAt < navs[n].effectiveAt) {
          best := Some(n);
        }
      }
      if best.None? {
        return Err("MISSING_EVIDENCE");
      }
      if navs[best.value].expiresAt <= now {
        return Err("EVIDENCE_EXPIRED");
      }
      return Ok(navs[best.value]);
    }

    /** Adds to one entry of an asset ledger unless the result would be negative. */
    static method AddAsset(ledger: Balances, account: string, product: string, delta: int) returns (next: Balances, ok: bool)
      ensures ok == (Get(ledger, (account, product)) + delta >= 0)
      ensures next == if ok then Put(ledger, (account, product), delta) else ledger
    {
      var key := (account, product);
      var balance := (if key in ledger then ledger[key] else 0) + delta;
      if balance < 0 {
        return ledger, false;
      }
      return ledger[key := balance], true;
    }

    // Each kind of settlement updates cash, the ledger and the register entry by entry; accounts may coincide.

    method Pay(from: (string, string), to: (string, string), amount: int)
      modifies this`cashBalances
      ensures cashBalances == Put(Put(old(cashBalances), from, -amount), to, amount)
    {
      cashBalances := cashBalances[from := Get(cashBalances, from) - amount];
      cashBalances := cashBalances[to := Get(cashBalances, to) + amount];
    }

    method PayWithFee(buyer: (string, string), seller: (string, string), issuer: (string, string), consideration: int, fee: int)
      modifies this`cashBalances
      ensures cashBalances == Put(Put(Put(old(cashBalances), buyer, -consideration - fee), seller, consideration), issuer, fee)
    {
      cashBalances := cashBalances[buyer := Get(cashBalances, buyer) - consideration - fee];
      cashBalances := cashBalances[seller := Get(cashBalances, seller) + consideration];
      cashBalances := cashBalances[issuer := Get(cashBalances, issuer) + fee];
    }

    /** The same change to ledger and register. */
    method AddUnits(account: string, product: string, delta: int)
      requires assetBalances == legalRegister && Get(assetBalances, (account, product)) + delta >= 0
      modifies this`assetBalances, this`legalRegister
      ensures assetBalances == legalRegister == Put(old(assetBalances), (account, product), delta)
    {
      var added, registered;
      assetBalances, added := AddAsset(assetBalances, account, product, delta);
      legalRegister, registered := AddAsset(legalRegister, account, product, delta);
      assert added && registered;
    }

    method MoveUnits(seller: string, buyer: string, product: string, units: int)
      requires assetBalances == legalRegister && units > 0 && seller != buyer
      requires Get(assetBalances, (seller, product)) >= units && Get(assetBalances, (buyer, product)) >= 0
      modifies this`assetBalances, this`legalRegister
      ensures assetBalances == legalRegister == Put(Put(old(assetBalances), (seller, product), -units), (buyer, product), units)
    {
      var sold, bought, released, registered;
      assetBalances, sold := AddAsset(assetBalances, seller, product, -units);
      assetBalances, bought := AddAsset(assetBalances, buyer, product, units);
      legalRegister, released := AddAsset(legalRegister, seller, product, -units);
      legalRegister, registered := AddAsset(legalRegister, buyer, product, units);
      assert sold && bought && released && registered;
    }

    method WriteSubscription(w: World, r: Request, nav: Nav)
      requires r.SubscribeRequest? && r.product in products && assetBalances == legalRegister && r.units > 0
      requires Get(assetBalances, (r.investor, r.product)) >= 0
      modifies this`cashBalances, this`cashSettlements, this`assetBalances, this`legalRegister, this`transactions
      ensures View() == Settle(w, old(View()), r, nav)
    {
      hide Put, Get;
      var product := products[r.product];
      Pay((r.investor, product.currency), (product.issuer, product.currency), r.cash);
      cashSettlements := cashSettlements[r.id := CashRecord(CONFIRMED, w.now)];
      AddUnits(r.investor, r.product, r.units);
      transactions := transactions[r.id := Transaction(SUBSCRIBE, r.product, "", r.investor, r.units, 0, r.cash, 0, 0, nav, STANDARD,
        Some(w.now), SETTLED, SettledLifecycle(w.now))];
    }

    method WriteTransfer(w: World, r: Request, nav: Nav)
      requires r.TransferRequest? && r.product in products && assetBalances == legalRegister && r.units > 0 && r.seller != r.buyer
      requires Get(assetBalances, (r.seller, r.product)) >= r.units && Get(assetBalances, (r.buyer, r.product)) >= 0
      modifies this`cashBalances, this`cashSettlements, this`assetBalances, this`legalRegister, this`transactions
      ensures View() == Settle(w, old(View()), r, nav)
    {
      hide Put, Get;
      var product := products[r.product];
      var consideration := r.units * r.price;
      PayWithFee((r.buyer, product.currency), (r.seller, product.currency), (product.issuer, product.currency), consideration, r.fee);
      cashSettlements := cashSettlements[r.id := CashRecord(CONFIRMED, w.now)];
      MoveUnits(r.seller, r.buyer, r.product, r.units);
      transactions := transactions[r.id := Transaction(TRANSFER, r.product, r.seller, r.buyer, r.units, r.price, consideration, r.fee, r.expiresAt,
        nav, STANDARD, Some(w.now), SETTLED, SettledLifecycle(w.now))];
    }

    method WriteRedemption(w: World, r: Request, nav: Nav)
      requires r.RedeemRequest? && r.product in products && assetBalances == legalRegister && r.units > 0
      requires Get(assetBalances, (r.investor, r.product)) >= r.units
      modifies this`cashBalances, this`cashSettlements, this`assetBalances, this`legalRegister, this`transactions
      ensures View() == Settle(w, old(View()), r, nav)
    {
      hide Put, Get;
      var product := products[r.product];
      var cash := r.units * nav.value;
      AddUnits(r.investor, r.product, -r.units);
      Pay((product.issuer, product.currency), (r.investor, product.currency), cash);
      cashSettlements := cashSettlements[r.id := CashRecord(CONFIRMED, w.now)];
      var mode := if r.credential in restricted then RESTRICTED_EXIT else STANDARD;
      transactions := transactions[r.id := Transaction(REDEEM, r.product, r.investor, "", r.units, 0, cash, 0, 0, nav, mode, Some(w.now),
        SETTLED, SettledLifecycle(w.now))];
    }

    /** Runs a settlement at most once per key, and stores its receipt there. */
    method Attempt(w: World, key: string, r: Request) returns (reply: Reply)
      requires Valid()
      modifies this
      ensures (View(), reply) == Execute(w, old(View()), key, r)
    {
      hide Inv, Settle, SettleError, CurrentNav, Replay, LatestNav;
      var replay := Replay(View(), key, r);
      if replay.Some? {
        return replay.value;
      }
      var error := SettleError(w, View(), r);
      if error.Some? {
        return Failed(error.value);
      }
      WritesAllowed(w, View(), r);
      var nav := CurrentEvidence(r.product, w.now);
      SettledReceipt(w, View(), r, nav.value);
      match r {
        case SubscribeRequest(_, _, _, _, _, _) => WriteSubscription(w, r, nav.value);
        case TransferRequest(_, _, _, _, _, _, _, _, _, _) => WriteTransfer(w, r, nav.value);
        case RedeemRequest(_, _, _, _, _) => WriteRedemption(w, r, nav.value);
      }
      var receipt := ReceiptOf(r.id, transactions[r.id]);
      idempotency := idempotency[key := Entry(r, receipt)];
      return Receipted(receipt);
    }

    method Subscribe(w: World, key: string, r: Request) returns (reply: Reply)
      requires Valid() && r.SubscribeRequest?
      modifies this
      ensures Valid() && (View(), reply) == Execute(w, old(View()), key, r)
    {
      hide Inv, Execute;
      reply := Attempt(w, key, r);
      StepIsValid(Event(w, DoExecute(key, r)));
    }

    method Transfer(w: World, key: string, r: Request) returns (reply: Reply)
      requires Valid() && r.TransferRequest?
      modifies this
      ensures Valid() && (View(), reply) == Execute(w, old(View()), key, r)
    {
      hide Inv, Execute;
      reply := Attempt(w, key, r);
      StepIsValid(Event(w, DoExecute(key, r)));
    }

    method Redeem(w: World, key: string, r: Request) returns (reply: Reply)
      requires Valid() && r.RedeemRequest?
      modifies this
      ensures Valid() && (View(), reply) == Execute(w, old(View()), key, r)
    {
      hide Inv, Execute;
      reply := Attempt(w, key, r);
      StepIsValid(Event(w, DoExecute(key, r)));
    }

    method SimulateRegisterFailure(w: World, key: string, r: Request) returns (reply: Reply)
      requires Valid() && r.TransferRequest?
      modifies this
      ensures Valid() && (View(), reply) == Simulate(w, old(View()), key, r)
    {
      hide Inv, LatestNav, TransferError, CurrentNav, Replay;
      var replay := Replay(View(), key, r);
      if replay.Some? {
        reply := replay.value;
      } else {
        var error := TransferError(w, View(), r);
        if error.Some? {
          reply := Failed(error.value);
        } else {
          NewTransaction(w, View(), r);
          var nav := CurrentEvidence(r.product, w.now);
          cashSettlements := cashSettlements[r.id := CashRecord(RELEASED, w.now)];
          exceptionCases := exceptionCases[CaseId(r.id) := Case(r.id, r.product, OPEN, None, None, None, r)];
          transactions := transactions[r.id := Transaction(TRANSFER, r.product, r.seller, r.buyer, r.units, r.price, r.units * r.price, r.fee,
            r.expiresAt, nav.value, EXCEPTION_REVIEW, None, REQUIRES_REVIEW, FailedLifecycle(w.now))];
          var receipt := ReceiptOf(r.id, transactions[r.id]);
          idempotency := idempotency[key := Entry(r, receipt)];
          reply := Receipted(receipt);
        }
      }
      StepIsValid(Event(w, DoSimulate(key, r)));
    }

    /** Moves a case's transaction to a state, with a history entry. */
    method Transition(transaction: string, state: TxState, stage: Stage, now: int)
      requires transaction in transactions
      modifies this`transactions
      ensures transactions == old(transactions)[transaction := Mark(old(transactions)[transaction], state, stage, now)]
    {
      var original := transactions[transaction];
      transactions := transactions[transaction := original.(state := state, lifecycle := original.lifecycle + [Stamp(stage, now)])];
    }

    method ProposeExceptionResolution(w: World, id: string, maker: string, retry: bool, replacement: string) returns (reply: Reply)
      requires Valid()
      modifies this
      ensures Valid() && (View(), reply) == Propose(w, old(View()), id, maker, retry, replacement)
    {
      hide Inv, Mark;
      if id !in exceptionCases || exceptionCases[id].transaction !in transactions {
        reply := Failed("UNKNOWN_EXCEPTION");
      } else if exceptionCases[id].status != OPEN {
        reply := Failed("EXCEPTION_NOT_OPEN");
      } else if maker == "" {
        reply := Failed("MISSING_MAKER");
      } else if retry && replacement == "" {
        reply := Failed("MISSING_REPLACEMENT_ID");
      } else {
        var c := exceptionCases[id];
        Transition(c.transaction, PENDING_APPROVAL, ReviewProposed, w.now);
        exceptionCases := exceptionCases[id := c.(status := PENDING, proposal := Some(Proposal(retry, replacement, maker)))];
        reply := Accepted;
      }
      StepIsValid(Event(w, DoPropose(id, maker, retry, replacement)));
    }

    method ApproveExceptionResolution(w: World, id: string, checker: string) returns (reply: Reply)
      requires Valid()
      modifies this
      ensures Valid() && (View(), reply) == Approve(w, old(View()), id, checker)
    {
      hide Inv, Decide;
      if id !in exceptionCases || exceptionCases[id].transaction !in transactions {
        reply := Failed("UNKNOWN_EXCEPTION");
      } else if exceptionCases[id].status != PENDING || exceptionCases[id].proposal.None? {
        reply := Failed("EXCEPTION_NOT_PENDING_APPROVAL");
      } else if checker == "" {
        reply := Failed("MISSING_CHECKER");
      } else if checker == exceptionCases[id].proposal.value.maker {
        reply := Failed("MAKER_CHECKER_CONFLICT");
      } else {
        reply := DecideCase(w, id, checker);
      }
      StepIsValid(Event(w, DoApprove(id, checker)));
    }

    /** Cancels the original, or settles its replacement by a transfer under the retry key; a failed retry reopens the case. */
    method DecideCase(w: World, id: string, checker: string) returns (reply: Reply)
      requires Valid() && id in exceptionCases && exceptionCases[id].proposal.Some? && exceptionCases[id].transaction in transactions
      modifies this
      ensures (View(), reply) == Decide(w, old(View()), id, checker)
    {
      hide Inv, Execute, RetryKey, Mark;
      var c := exceptionCases[id];
      var proposal := c.proposal.value;
      ApprovedStamp(View(), id, w.now);
      CaseFacts(View(), id);
      Transition(c.transaction, transactions[c.transaction].state, ReviewApproved, w.now);
      if !proposal.retry {
        Transition(c.transaction, CANCELLED, Cancelled, w.now);
        exceptionCases := exceptionCases[id := c.(status := RESOLVED_CANCELLED, checker := Some(checker))];
        return Accepted;
      }
      ghost var approved := View();
      var receipt := Transfer(w, RetryKey(id, proposal.replacement), Renamed(c.retry, proposal.replacement));
      if receipt.Failed? {
        FailureIsIdle(w, approved, RetryKey(id, proposal.replacement), Renamed(c.retry, proposal.replacement));
        Transition(c.transaction, REQUIRES_REVIEW, RetryBlocked, w.now);
        exceptionCases := exceptionCases[id := c.(status := OPEN, proposal := None)];
        return receipt;
      }
      ExecuteRecords(w, approved, RetryKey(id, proposal.replacement), Renamed(c.retry, proposal.replacement));
      Transition(c.transaction, REPLACED, Replaced, w.now);
      exceptionCases := exceptionCases[id := c.(status := RESOLVED_RETRIED, replacement := Some(proposal.replacement), checker := Some(checker))];
      return Accepted;
    }

    /** The sum of a ledger's entries for a product. */
    static method TotalForProduct(ledger: Balances, product: string) returns (total: int)
      ensures total == Total(ledger, product)
    {
      var rest := ledger;
      total := 0;
      while rest != map[]
        invariant total + Sum(rest, InColumn(product)) == Total(ledger, product)
        decreases |rest|
      {
        var key :| key in rest;
        SumRemove(rest, InColumn(product), key);
        if key.1 == product {
          total := total + rest[key];
        }
        rest := rest - {key};
      }
    }

    /** Settled transactions of a product, and how many of them have confirmed cash. */
    method CountSettled(product: string) returns (settled: nat, confirmed: nat)
      ensures settled == Sum(transactions, SettledOf(product))
      ensures confirmed <= settled && (confirmed == settled <==> CashConfirmed(View(), product))
    {
      var rest := transactions;
      settled, confirmed := 0, 0;
      while rest != map[]
        invariant forall id :: id in rest ==> id in transactions && transactions[id] == rest[id]
        invariant settled + Sum(rest, SettledOf(product)) == Sum(transactions, SettledOf(product))
        invariant confirmed <= settled
        invariant confirmed == settled <==> forall id :: id in transactions && id !in rest ==> ConfirmedIfSettled(View(), product, id)
        decreases |rest|
      {
        var id :| id in rest;
        SumRemove(rest, SettledOf(product), id);
        var t := rest[id];
        rest := rest - {id};
        if t.product == product && t.state == SETTLED {
          settled := settled + 1;
          if id in cashSettlements && cashSettlements[id].state == CONFIRMED {
            confirmed := confirmed + 1;
          }
        }
      }
    }

    method CountUnresolved(product: string) returns (open: nat)
      ensures open > 0 <==> AnyUnresolved(View(), product)
    {
      var rest := exceptionCases.Keys;
      open := 0;
      while rest != {}
        invariant rest <= exceptionCases.Keys
        invariant open > 0 <==> exists id :: id in exceptionCases && id !in rest && Unresolved(exceptionCases[id], product)
        decreases |rest|
      {
        var id :| id in rest;
        rest := rest - {id};
        if Unresolved(exceptionCases[id], product) {
          open := open + 1;
          assert id in exceptionCases && id !in rest && Unresolved(exceptionCases[id], product);
        }
      }
    }

    method Reconcile(product: string) returns (status: Option<Status>)
      requires Valid()
      ensures status == if product in products then Some(Overall(View(), product)) else None
    {
      hide Inv, Total, CashConfirmed, AnyUnresolved;
      if product !in products {
        return None;
      }
      var asset := TotalForProduct(assetBalances, product);
      var register := TotalForProduct(legalRegister, product);
      var settled, confirmed := CountSettled(product);
      var open := CountUnresolved(product);
      if asset != register || confirmed != settled {
        return Some(RECONCILIATION_EXCEPTION);
      }
      return Some(if open > 0 then ATTENTION_REQUIRED else SANDBOX_CONTROLLED);
    }

    /** The hashed core: later review entries are filtered out of the history. */
    method TransactionEvidencePackage(id: string) returns (r: Result<EvidenceCore>)
      ensures r == EvidencePackage(View(), id)
    {
      if id !in transactions {
        return Err("UNKNOWN_TRANSACTION");
      }
      var t := transactions[id];
      var lifecycle := [];
      for i := 0 to |t.lifecycle|
        invariant lifecycle == Creation(t.lifecycle[..i])
      {
        assert t.lifecycle[..i + 1][..i] == t.lifecycle[..i];
        if AtCreation(t.lifecycle[i].stage) {
          lifecycle := lifecycle + [t.lifecycle[i]];
        }
      }
      assert t.lifecycle[..|t.lifecycle|] == t.lifecycle;
      return Ok(EvidenceCore(id, t.product, t.kind, t.settledAt.Some?, t.nav, t.mode, lifecycle,
        if id in cashSettlements then Some(cashSettlements[id]) else None));
    }
  }

  predicate ConfirmedIfSettled(s: State, product: string, id: string)
    requires id in s.transactions
  {
    s.transactions[id].product == product && s.transactions[id].state == SETTLED ==>
      id in s.settlements && s.settlements[id].state == CONFIRMED
  }

  /** What an accepted request guarantees to the writes: no ledger entry can become negative. */
  lemma WritesAllowed(w: World, s: State, r: Request)
    requires Inv(s) && SettleError(w, s, r).None?
    ensures r.product in s.products && r.units > 0 && s.assets == s.register
    ensures r.TransferRequest? ==> Get(s.assets, (r.seller, r.product)) >= r.units && Get(s.assets, (r.buyer, r.product)) >= 0 && r.seller != r.buyer
    ensures r.SubscribeRequest? ==> Get(s.assets, (r.investor, r.product)) >= 0
    ensures r.RedeemRequest? ==> Get(s.assets, (r.investor, r.product)) >= r.units
  {
    hide CurrentNav, EligibleError, ExitError, Total;
    AssetsSound(s);
    hide Inv;
  }

  lemma SettledReceipt(w: World, s: State, r: Request, nav: Nav)
    requires r.product in s.products
    ensures var t := Settle(w, s, r, nav); r.id in t.transactions && t.idempotency == s.idempotency
  {
    hide Paid, Moved, SettledTransaction;
  }

  lemma AssetsSound(s: State)
    requires Inv(s)
    ensures s.assets == s.register && NonNegative(s.assets)
  {
    hide Total;
  }
}
