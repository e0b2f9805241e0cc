/** Where the money and the units of the in-memory engine are: account by account, the credits and the flows of every settled transaction. */
module ControlPlaneFlows {
  import opened Common
  import opened Sums
  import opened ControlPlane
  import opened ControlPlaneSafety
  import opened ControlPlaneRecords

  /** What a settled transaction brings to one account, summed where its parties share the account. */
  function CashFlow(t: Transaction, p: Product, k: (string, string)): int {
    if k.1 != p.currency then 0
    else
      match t.kind
      case SUBSCRIBE => (if k.0 == t.buyer then -(t.units * t.nav.value) else 0) + (if k.0 == p.issuer then t.units * t.nav.value else 0)
      case TRANSFER =>
        (if k.0 == t.buyer then -(t.units * t.price) - t.fee else 0) + (if k.0 == t.seller then t.units * t.price else 0)
        + (if k.0 == p.issuer then t.fee else 0)
      case REDEEM => (if k.0 == p.issuer then -(t.units * t.nav.value) else 0) + (if k.0 == t.seller then t.units * t.nav.value else 0)
  }

  /** What it brings to one holding. */
  function UnitFlow(t: Transaction, k: (string, string)): int {
    if k.1 != t.product then 0
    else
      match t.kind
      case SUBSCRIBE => if k.0 == t.buyer then t.units else 0
      case TRANSFER => (if k.0 == t.seller then -t.units else 0) + (if k.0 == t.buyer then t.units else 0)
      case REDEEM => if k.0 == t.seller then -t.units else 0
  }

  function CashFlows(products: map<string, Product>, k: (string, string)): (string, Transaction) -> int {
    (id: string, t: Transaction) => if t.state == SETTLED && t.product in products then CashFlow(t, products[t.product], k) else 0
  }

  function UnitFlows(k: (string, string)): (string, Transaction) -> int {
    (id: string, t: Transaction) => if t.state == SETTLED then UnitFlow(t, k) else 0
  }

  /** What was credited to one account. */
  function CreditsTo(credited: seq<Credit>, k: (string, string)): int {
    if credited == [] then 0
    else
      var last := credited[|credited| - 1];
      CreditsTo(credited[..|credited| - 1], k) + if (last.account, last.currency) == k then last.amount else 0
  }

  ghost predicate Flowed(s: State) {
    && (forall k :: Get(s.cash, k) == CreditsTo(s.credited, k) + Sum(s.transactions, CashFlows(s.products, k)))
    && (forall k :: Get(s.assets, k) == Sum(s.transactions, UnitFlows(k)))
    && (forall k :: Get(s.register, k) == Get(s.assets, k))
  }

  // ----- settlements -----

  lemma PaidFlows(w: World, s: State, r: Request, k: (string, string))
    requires SettleError(w, s, r).None?
    ensures var nav := CurrentNav(s, r.product, w.now).value; var p := s.products[r.product];
      Get(Paid(s, r, nav), k) == Get(s.cash, k) + CashFlow(SettledTransaction(s, r, nav, w.now), p, k)
  {
    hide EligibleError, ExitError, CurrentNav, Abs;
  }

  lemma MovedFlows(w: World, s: State, r: Request, nav: Nav, m: Balances, k: (string, string))
    ensures Get(Moved(m, r), k) == Get(m, k) + UnitFlow(SettledTransaction(s, r, nav, w.now), k)
  {
  }

  lemma SettleFlows(w: World, s: State, r: Request)
    requires Flowed(s) && SettleError(w, s, r).None?
    ensures Flowed(Settle(w, s, r, CurrentNav(s, r.product, w.now).value))
  {
    var nav := CurrentNav(s, r.product, w.now).value;
    var t, tx := Settle(w, s, r, nav), SettledTransaction(s, r, nav, w.now);
    SettledFacts(s, r, nav, w.now);
    hide SettleError, Paid, Moved, SettledTransaction, CashFlow, UnitFlow, Get, CurrentNav, CreditsTo;
    forall k
      ensures Get(t.cash, k) == CreditsTo(t.credited, k) + Sum(t.transactions, CashFlows(t.products, k))
      ensures Get(t.assets, k) == Sum(t.transactions, UnitFlows(k)) && Get(t.register, k) == Get(t.assets, k)
    {
      PaidFlows(w, s, r, k);
      MovedFlows(w, s, r, nav, s.assets, k);
      MovedFlows(w, s, r, nav, s.register, k);
      SumUpdate(s.transactions, CashFlows(s.products, k), r.id, tx);
      SumUpdate(s.transactions, UnitFlows(k), r.id, tx);
    }
  }

  lemma SettledFacts(s: State, r: Request, nav: Nav, now: int)
    ensures SettledTransaction(s, r, nav, now).product == r.product && SettledTransaction(s, r, nav, now).state == SETTLED
  {
  }

  lemma ExecuteFlows(w: World, s: State, key: string, r: Request)
    requires Flowed(s)
    ensures Flowed(Execute(w, s, key, r).0)
  {
    if Replay(s, key, r).None? && SettleError(w, s, r).None? {
      SettleFlows(w, s, r);
      hide SettleError, CurrentNav, Settle, Replay;
      SameFlows(Settle(w, s, r, CurrentNav(s, r.product, w.now).value), Execute(w, s, key, r).0);
    } else {
      hide SettleError, CurrentNav, Settle, Replay, Flowed;
    }
  }

  /** Keys, cases and cash records carry no money. */
  lemma SameFlows(s: State, t: State)
    requires Flowed(s) && SameBalances(s, t) && t.transactions == s.transactions && t.products == s.products
    ensures Flowed(t)
  {
  }

  // ----- everything else -----

  /** One transaction that is not settled is written where there was none that was. */
  lemma UnsettledFlows(s: State, t: State, x: string)
    requires Flowed(s) && SameBalances(s, t) && t.products == s.products && x in t.transactions && t.transactions == s.transactions[x := t.transactions[x]]
    requires t.transactions[x].state != SETTLED && (x in s.transactions ==> s.transactions[x].state != SETTLED)
    ensures Flowed(t)
  {
    hide CashFlow, UnitFlow, Get, CreditsTo;
    forall k
      ensures Sum(t.transactions, CashFlows(t.products, k)) == Sum(s.transactions, CashFlows(s.products, k))
      ensures Sum(t.transactions, UnitFlows(k)) == Sum(s.transactions, UnitFlows(k))
    {
      SumUpdate(s.transactions, CashFlows(s.products, k), x, t.transactions[x]);
      SumUpdate(s.transactions, UnitFlows(k), x, t.transactions[x]);
    }
  }

  lemma SimulateFlows(w: World, s: State, key: string, r: Request)
    requires r.TransferRequest? && Flowed(s)
    ensures Flowed(Simulate(w, s, key, r).0)
  {
    hide CurrentNav, EligibleError, Flowed, Abs, Get;
    if Simulate(w, s, key, r).0 != s {
      UnsettledFlows(s, Simulate(w, s, key, r).0, r.id);
    }
  }

  lemma ProposeFlows(w: World, s: State, id: string, maker: string, retry: bool, replacement: string)
    requires Inv(s) && Flowed(s)
    ensures Flowed(Propose(w, s, id, maker, retry, replacement).0)
  {
    hide Inv, Flowed;
    if id in s.cases {
      CaseFacts(s, id);
    }
    if Propose(w, s, id, maker, retry, replacement).1 == Accepted {
      UnsettledFlows(s, Propose(w, s, id, maker, retry, replacement).0, s.cases[id].transaction);
    }
  }

  lemma ResolveFlows(s: State, id: string, state: TxState, stage: Stage, c: Case, now: int)
    requires Flowed(s) && c.transaction in s.transactions && s.transactions[c.transaction].state != SETTLED && state != SETTLED
    ensures Flowed(Resolve(s, id, state, stage, c, now))
  {
    hide Flowed;
    UnsettledFlows(s, Resolve(s, id, state, stage, c, now), c.transaction);
  }

  lemma ApproveFlows(w: World, s: State, id: string, checker: string)
    requires Inv(s) && Flowed(s)
    ensures Flowed(Approve(w, s, id, checker).0)
  {
    hide Inv, Flowed, Execute, Resolve, RetryKey;
    if id in s.cases && s.cases[id].transaction in s.transactions && s.cases[id].status == PENDING && s.cases[id].proposal.Some? {
      PendingCase(s, id);
      var c, p := s.cases[id], s.cases[id].proposal.value;
      var y := c.transaction;
      var approved := s.(transactions := s.transactions[y := Mark(s.transactions[y], s.transactions[y].state, ReviewApproved, w.now)]);
      UnsettledFlows(s, approved, y);
      ResolveFlows(approved, id, CANCELLED, Cancelled, c.(status := RESOLVED_CANCELLED, checker := Some(checker)), w.now);
      ResolveFlows(approved, id, REQUIRES_REVIEW, RetryBlocked, c.(status := OPEN, proposal := None), w.now);
      var t := Execute(w, approved, RetryKey(id, p.replacement), Renamed(c.retry, p.replacement)).0;
      ExecuteFlows(w, approved, RetryKey(id, p.replacement), Renamed(c.retry, p.replacement));
      ExecuteKeepsRows(w, approved, RetryKey(id, p.replacement), Renamed(c.retry, p.replacement), y);
      ResolveFlows(t, id, REPLACED, Replaced, c.(status := RESOLVED_RETRIED, replacement := Some(p.replacement), checker := Some(checker)), w.now);
    }
  }

  lemma PendingCase(s: State, id: string)
    requires Inv(s) && id in s.cases && s.cases[id].status == PENDING
    ensures s.cases[id].transaction in s.transactions && s.transactions[s.cases[id].transaction].state == PENDING_APPROVAL
  {
    hide Money, Units, Holdings, Books, RetryKey, Carries;
    assert CaseGood(s, id);
  }

  lemma CreditFlows(s: State, account: string, currency: string, amount: int)
    requires Flowed(s)
    ensures Flowed(CreditCash(s, account, currency, amount).0)
  {
    hide CashFlow, UnitFlow, Sum;
    var t := CreditCash(s, account, currency, amount).0;
    if amount >= 0 {
      assert t.credited[..|s.credited|] == s.credited;
      forall k ensures Get(t.cash, k) == CreditsTo(t.credited, k) + Sum(t.transactions, CashFlows(t.products, k)) {
        assert CreditsTo(t.credited, k) == CreditsTo(s.credited, k) + if (account, currency) == k then amount else 0;
      }
    }
  }

  lemma ConfigureFlows(s: State, e: Event)
    requires Inv(s) && Flowed(s)
    ensures Flowed(Configure(s, e).0)
  {
    ConfigureSetUp(s, e);
    var t := Configure(s, e).0;
    hide Configure, Get, NavsGood, CreditsTo;
    ProductsKnown(s);
    forall k ensures Sum(t.transactions, CashFlows(t.products, k)) == Sum(s.transactions, CashFlows(s.products, k)) {
      SumSame(s.transactions, CashFlows(t.products, k), CashFlows(s.products, k));
    }
  }

  lemma ProductsKnown(s: State)
    requires Inv(s)
    ensures forall x :: x in s.transactions ==> s.transactions[x].product in s.products
  {
    hide Money, Units, Holdings, Workflow, PriceGood;
    forall x | x in s.transactions ensures s.transactions[x].product in s.products {
      assert BookGood(s, x);
    }
  }

  lemma StepFlows(s: State, e: Event)
    requires Inv(s) && Flowed(s)
    ensures Flowed(Step(s, e).0)
  {
    hide Inv, Flowed, Execute, Simulate, Propose, Approve, CreditCash, Configure;
    match e.action
    case DoExecute(key, r) => ExecuteFlows(e.world, s, key, r);
    case DoSimulate(key, r) =>
      if r.TransferRequest? {
        SimulateFlows(e.world, s, key, r);
      }
    case DoPropose(id, maker, retry, replacement) => ProposeFlows(e.world, s, id, maker, retry, replacement);
    case DoApprove(id, checker) => ApproveFlows(e.world, s, id, checker);
    case DoCredit(account, currency, amount) => CreditFlows(s, account, currency, amount);
    case _ => ConfigureFlows(s, e);
  }

  /**
   After any sequence of calls, every cash account holds what was credited to it plus
   what each settled transaction brought it, the seller the price, the issuer the fee,
   and every holding, in ledger and register, is the sum of its settled movements.
   */
  lemma {:induction false} AccountsAreFlows(events: seq<Event>)
    ensures Flowed(Run(events))
  {
    if events == [] {
      NothingFlowed();
    } else {
      hide Inv, Flowed, Step;
      var front := events[..|events| - 1];
      AccountsAreFlows(front);
      RunKeeps(front);
      StepFlows(Run(front), events[|events| - 1]);
    }
  }

  lemma NothingFlowed()
    ensures Flowed(INITIAL)
  {
    forall k ensures Sum(INITIAL.transactions, CashFlows(INITIAL.products, k)) == 0 && Sum(INITIAL.transactions, UnitFlows(k)) == 0 {
      SumZero(INITIAL.transactions, CashFlows(INITIAL.products, k));
      SumZero(INITIAL.transactions, UnitFlows(k));
    }
  }

  /** What the credit calls of a run brought to one account. */
  function Credited(events: seq<Event>, k: (string, string)): int {
    if events == [] then 0
    else
      Credited(events[..|events| - 1], k) +
      match events[|events| - 1].action
      case DoCredit(account, currency, amount) => if (account, currency) == k && amount >= 0 then amount else 0
      case _ => 0
  }

  /** The credits on record are exactly those calls. */
  lemma {:induction false} CreditsAreCalls(events: seq<Event>, k: (string, string))
    ensures CreditsTo(Run(events).credited, k) == Credited(events, k)
  {
    if events != [] {
      var front, e := events[..|events| - 1], events[|events| - 1];
      CreditsAreCalls(front, k);
      CreditStep(Run(front), e, k);
      hide Step;
    }
  }

  lemma CreditStep(s: State, e: Event, k: (string, string))
    ensures CreditsTo(Step(s, e).0.credited, k) == CreditsTo(s.credited, k) +
      match e.action
      case DoCredit(account, currency, amount) => if (account, currency) == k && amount >= 0 then amount else 0
      case _ => 0
  {
    hide Execute, Simulate, Propose, Approve, Configure, CreditsTo;
    match e.action
    case DoExecute(key, r) => ExecuteCredits(e.world, s, key, r);
    case DoSimulate(key, r) =>
      if r.TransferRequest? {
        SimulateBalances(e.world, s, key, r);
      }
    case DoPropose(id, maker, retry, replacement) => ProposeBalances(e.world, s, id, maker, retry, replacement);
    case DoApprove(id, checker) => ApproveCredits(e.world, s, id, checker);
    case DoCredit(account, currency, amount) =>
      if amount >= 0 {
        OneCredit(s.credited, Credit(account, currency, amount), k);
      }
    case _ => ConfigureLeaves(s, e);
  }

  lemma OneCredit(credited: seq<Credit>, c: Credit, k: (string, string))
    ensures CreditsTo(credited + [c], k) == CreditsTo(credited, k) + if (c.account, c.currency) == k then c.amount else 0
  {
    assert (credited + [c])[..|credited|] == credited;
  }

  lemma ExecuteCredits(w: World, s: State, key: string, r: Request)
    ensures Execute(w, s, key, r).0.credited == s.credited
  {
    hide SettleError, CurrentNav, Paid, Moved, SettledTransaction;
  }

  lemma ApproveCredits(w: World, s: State, id: string, checker: string)
    ensures Approve(w, s, id, checker).0.credited == s.credited
  {
    hide Execute, Resolve, RetryKey, Mark;
    if id in s.cases && s.cases[id].transaction in s.transactions && s.cases[id].proposal.Some? {
      var c, p := s.cases[id], s.cases[id].proposal.value;
      var y := c.transaction;
      var approved := s.(transactions := s.transactions[y := Mark(s.transactions[y], s.transactions[y].state, ReviewApproved, w.now)]);
      var t := Execute(w, approved, RetryKey(id, p.replacement), Renamed(c.retry, p.replacement)).0;
      ExecuteCredits(w, approved, RetryKey(id, p.replacement), Renamed(c.retry, p.replacement));
      ResolveLeaves(approved, id, CANCELLED, Cancelled, c.(status := RESOLVED_CANCELLED, checker := Some(checker)), w.now);
      ResolveLeaves(approved, id, REQUIRES_REVIEW, RetryBlocked, c.(status := OPEN, proposal := None), w.now);
      ResolveLeaves(t, id, REPLACED, Replaced, c.(status := RESOLVED_RETRIED, replacement := Some(p.replacement), checker := Some(checker)), w.now);
    }
  }
}
