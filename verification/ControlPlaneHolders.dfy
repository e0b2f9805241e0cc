/** Who made the transactions of a run: every one goes back to a call whose own credentials allowed it at that moment. */
module ControlPlaneHolders {
  import opened Common
  import opened ControlPlane
  import opened ControlPlaneSafety

  /** The credentials the request itself names let its parties do this now; only a redemption may use a revoked one. */
  predicate NamedMay(w: World, s: State, r: Request) {
    r.product in s.products &&
    match r
    case SubscribeRequest(_, product, investor, credential, units, _) =>
      MayHold(w, s, product, investor, credential, Get(s.assets, (investor, product)) + units)
    case TransferRequest(_, product, seller, sellerCredential, buyer, buyerCredential, units, _, _, _) =>
      && MayHold(w, s, product, seller, sellerCredential, Get(s.assets, (seller, product)))
      && MayHold(w, s, product, buyer, buyerCredential, Get(s.assets, (buyer, product)) + units)
    case RedeemRequest(_, product, investor, credential, _) =>
      MayLeave(w, s, product, investor, credential, if credential in s.restricted then RESTRICTED_EXIT else STANDARD)
  }

  /** Between two states a transaction was created under a fresh key, whose stored request was allowed in the first. */
  predicate Makes(w: World, s: State, t: State, key: string, x: string) {
    && key !in s.idempotency && key in t.idempotency && x !in s.transactions && x in t.transactions
    && t.idempotency[key].request.id == x && NamedMay(w, s, t.idempotency[key].request)
  }

  lemma CheckedNames(w: World, s: State, r: Request)
    requires SettleError(w, s, r).None?
    ensures NamedMay(w, s, r)
  {
    hide CurrentNav, Get, Abs, MayHold;
    match r
    case SubscribeRequest(_, product, investor, credential, units, _) => EligibleIff(w, s, product, investor, credential, units);
    case TransferRequest(_, product, seller, sellerCredential, buyer, buyerCredential, units, _, _, _) =>
      EligibleIff(w, s, product, seller, sellerCredential, 0);
      EligibleIff(w, s, product, buyer, buyerCredential, units);
    case RedeemRequest(_, _, _, _, _) =>
  }

  lemma ExecuteMakes(w: World, s: State, key: string, r: Request, x: string)
    requires x !in s.transactions && x in Execute(w, s, key, r).0.transactions
    ensures Makes(w, s, Execute(w, s, key, r).0, key, x)
  {
    hide SettleError, CurrentNav, Paid, Moved, SettledTransaction, NamedMay;
    if Replay(s, key, r).None? && SettleError(w, s, r).None? {
      CheckedNames(w, s, r);
    }
  }

  lemma SimulateMakes(w: World, s: State, key: string, r: Request, x: string)
    requires r.TransferRequest? && x !in s.transactions && x in Simulate(w, s, key, r).0.transactions
    ensures Makes(w, s, Simulate(w, s, key, r).0, key, x)
  {
    hide TransferError, CurrentNav, NamedMay;
    if Replay(s, key, r).None? && TransferError(w, s, r).None? {
      CheckedNames(w, s, r);
    }
  }

  lemma NamedMayIgnoresHistory(w: World, s: State, u: State, r: Request)
    requires u == s.(transactions := u.transactions)
    ensures NamedMay(w, u, r) == NamedMay(w, s, r)
  {
    hide Get;
  }

  lemma ApproveMakes(w: World, s: State, id: string, checker: string, x: string)
    requires x !in s.transactions && x in Approve(w, s, id, checker).0.transactions
    ensures id in s.cases && s.cases[id].proposal.Some?
    ensures Makes(w, s, Approve(w, s, id, checker).0, RetryKey(id, s.cases[id].proposal.value.replacement), x)
  {
    hide Execute, RetryKey, Mark, Resolve, NamedMay;
    if id in s.cases && s.cases[id].transaction in s.transactions && s.cases[id].proposal.Some? {
      var c, p := s.cases[id], s.cases[id].proposal.value;
      var y, key, request := c.transaction, RetryKey(id, p.replacement), Renamed(c.retry, p.replacement);
      var approved := s.(transactions := s.transactions[y := Mark(s.transactions[y], s.transactions[y].state, ReviewApproved, w.now)]);
      var t := Execute(w, approved, key, request).0;
      ResolveAdds(approved, id, CANCELLED, Cancelled, c.(status := RESOLVED_CANCELLED, checker := Some(checker)), w.now);
      ResolveAdds(approved, id, REQUIRES_REVIEW, RetryBlocked, c.(status := OPEN, proposal := None), w.now);
      ResolveAdds(t, id, REPLACED, Replaced, c.(status := RESOLVED_RETRIED, replacement := Some(p.replacement), checker := Some(checker)), w.now);
      if x in t.transactions {
        ExecuteMakes(w, approved, key, request, x);
        NamedMayIgnoresHistory(w, s, approved, t.idempotency[key].request);
      }
    }
  }

  lemma ResolveAdds(s: State, id: string, state: TxState, stage: Stage, c: Case, now: int)
    requires c.transaction in s.transactions
    ensures var t := Resolve(s, id, state, stage, c, now); t.transactions.Keys == s.transactions.Keys && t.idempotency == s.idempotency
  {
    hide Mark;
  }

  lemma ProposeAdds(w: World, s: State, id: string, maker: string, retry: bool, replacement: string)
    ensures Propose(w, s, id, maker, retry, replacement).0.transactions.Keys == s.transactions.Keys
  {
    hide Mark;
  }

  lemma StepMakes(s: State, e: Event, x: string)
    requires x !in s.transactions && x in Step(s, e).0.transactions
    ensures exists key :: Makes(e.world, s, Step(s, e).0, key, x)
  {
    hide Execute, Simulate, Propose, Approve, CreditCash, Configure, Makes, RetryKey;
    match e.action
    case DoExecute(key, r) => ExecuteMakes(e.world, s, key, r, x);
    case DoSimulate(key, r) =>
      if r.TransferRequest? {
        SimulateMakes(e.world, s, key, r, x);
      }
    case DoApprove(id, checker) => ApproveMakes(e.world, s, id, checker, x);
    case DoPropose(id, maker, retry, replacement) => ProposeAdds(e.world, s, id, maker, retry, replacement);
    case DoCredit(account, currency, amount) => CreditKeepsEntries(s, account, currency, amount);
    case _ => ConfigureLeaves(s, e);
  }

  /** The call at position i created the transaction, and the request it stored under the key is the one on record. */
  ghost predicate MadeAt(events: seq<Event>, i: nat, key: string, x: string) {
    && i < |events| && Makes(events[i].world, Run(events[..i]), Run(events[..i + 1]), key, x)
    && key in Run(events).idempotency && Run(events).idempotency[key] == Run(events[..i + 1]).idempotency[key]
  }

  lemma {:induction false} MadeBySomeCall(events: seq<Event>, x: string)
    requires x in Run(events).transactions
    ensures exists i: nat, key :: MadeAt(events, i, key, x)
  {
    hide Step, Makes;
    RunEmpty();
    var m := |events| - 1;
    var front := events[..m];
    RunLast(events);
    assert events[..m + 1] == events;
    hide Run;
    if x in Run(front).transactions {
      MadeBySomeCall(front, x);
      var i: nat, key :| MadeAt(front, i, key, x);
      assert front[..i] == events[..i] && front[..i + 1] == events[..i + 1];
      StepKeepsEntries(Run(front), events[m]);
      assert MadeAt(events, i, key, x);
    } else {
      StepMakes(Run(front), events[m], x);
      var key :| Makes(events[m].world, Run(front), Step(Run(front), events[m]).0, key, x);
      KeyStored(events[m].world, Run(front), Run(events), key, x);
      assert MadeAt(events, m, key, x);
    }
  }

  lemma RunEmpty()
    ensures Run([]) == INITIAL
  {
  }

  lemma RunLast(events: seq<Event>)
    requires events != []
    ensures Run(events) == Step(Run(events[..|events| - 1]), events[|events| - 1]).0
  {
    hide Step;
  }

  lemma KeyStored(w: World, s: State, t: State, key: string, x: string)
    requires Makes(w, s, t, key, x)
    ensures key in t.idempotency && t.idempotency[key].request.id == x
  {
    hide NamedMay;
  }

  /**
   In every run each transaction, settled or not, direct or retried, was created by one
   call, and the request on record for it, which it carries, named credentials that let
   its parties do this at that call. So nothing was ever subscribed or transferred on a
   credential that was revoked, expired or for someone else when the call was made.
   */
  lemma MadeWithStandingCredentials(events: seq<Event>, x: string)
    requires x in Run(events).transactions
    ensures exists i: nat, key :: MadeAt(events, i, key, x) && Carries(Run(events).transactions[x], Run(events).idempotency[key].request)
  {
    MadeBySomeCall(events, x);
    var i: nat, key :| MadeAt(events, i, key, x);
    RunKeeps(events);
    KeyStored(events[i].world, Run(events[..i]), Run(events[..i + 1]), key, x);
    hide Run, Money, Units, Holdings, Books, Makes, CaseGood, Carries;
    assert EntryGood(Run(events), key);
  }

  // ----- lawful requests go through -----

  /** Evidence i is in effect for the product, nothing in effect is later, and it came first among equals. */
  predicate Governs(navs: seq<Nav>, i: nat, product: string, now: int) {
    && i < |navs| && navs[i].product == product && navs[i].effectiveAt <= now
    && forall j :: 0 <= j < |navs| && navs[j].product == product && navs[j].effectiveAt <= now ==>
      navs[j].effectiveAt < navs[i].effectiveAt || (navs[j].effectiveAt == navs[i].effectiveAt && i <= j)
  }

  /** The law of the engine for a new request under evidence i. */
  predicate LawfulRequest(w: World, s: State, r: Request, i: nat) {
    && r.id !in s.transactions && r.product in s.products && s.products[r.product].status == ACTIVE && r.units > 0 && NamedMay(w, s, r)
    && Governs(s.navs, i, r.product, w.now) && w.now < s.navs[i].expiresAt
    && var p, nav := s.products[r.product], s.navs[i].value;
      match r
      case SubscribeRequest(_, _, investor, _, units, cash) => cash == units * nav && cash <= Get(s.cash, (investor, p.currency))
      case TransferRequest(_, product, seller, _, buyer, _, units, price, fee, expiresAt) =>
        && w.now < expiresAt && price > 0 && fee >= 0 && seller != buyer && units <= Get(s.assets, (seller, product))
        && (if price < nav then nav - price else price - nav) * 10_000 <= nav * p.maxDeviation
        && units * price + fee <= Get(s.cash, (buyer, p.currency))
      case RedeemRequest(_, product, investor, _, units) =>
        units <= Get(s.assets, (investor, product)) && units * nav <= Get(s.cash, (p.issuer, p.currency))
  }

  lemma GovernsLatest(navs: seq<Nav>, product: string, now: int, i: nat)
    ensures LatestNav(navs, |navs|, product, now) == Some(i) <==> Governs(navs, i, product, now)
  {
  }

  lemma CurrentGoverns(s: State, product: string, now: int)
    ensures CurrentNav(s, product, now).Ok? ==>
      exists i: nat :: Governs(s.navs, i, product, now) && now < s.navs[i].expiresAt && CurrentNav(s, product, now).value == s.navs[i]
    ensures forall i: nat :: Governs(s.navs, i, product, now) && now < s.navs[i].expiresAt ==> CurrentNav(s, product, now) == Ok(s.navs[i])
  {
    var latest := LatestNav(s.navs, |s.navs|, product, now);
    if latest.Some? {
      GovernsLatest(s.navs, product, now, latest.value);
    }
    hide LatestNav;
    forall i: nat | Governs(s.navs, i, product, now) && now < s.navs[i].expiresAt ensures CurrentNav(s, product, now) == Ok(s.navs[i]) {
      GovernsLatest(s.navs, product, now, i);
    }
  }

  lemma LeavesIff(w: World, s: State, product: string, investor: string, credential: string)
    ensures ExitError(w, s, product, investor, credential).None?
      <==> MayLeave(w, s, product, investor, credential, if credential in s.restricted then RESTRICTED_EXIT else STANDARD)
  {
  }

  /** The checks before the evidence, as one condition. */
  lemma CheckedIff(w: World, s: State, r: Request, i: nat)
    requires Governs(s.navs, i, r.product, w.now) && w.now < s.navs[i].expiresAt && s.navs[i].value > 0
    ensures SettleError(w, s, r).None? <==> LawfulRequest(w, s, r, i)
  {
    CurrentGoverns(s, r.product, w.now);
    if r.product in s.products && r.units > 0 {
      match r
      case SubscribeRequest(_, product, investor, credential, units, _) =>
        EligibleIff(w, s, product, investor, credential, units);
        NonNegativeProduct(units, s.navs[i].value);
      case TransferRequest(_, product, seller, sellerCredential, buyer, buyerCredential, units, _, _, _) =>
        EligibleIff(w, s, product, seller, sellerCredential, 0);
        EligibleIff(w, s, product, buyer, buyerCredential, units);
      case RedeemRequest(_, product, investor, credential, _) => LeavesIff(w, s, product, investor, credential);
    }
    hide EligibleError, ExitError, MayHold, MayLeave, CurrentNav, Governs, Get;
  }

  lemma EvidencePositive(s: State, i: nat)
    requires Inv(s) && i < |s.navs|
    ensures s.navs[i].value > 0
  {
    hide Money, Units, Holdings, Workflow, BookGood;
  }

  lemma NeedsEvidence(w: World, s: State, r: Request)
    requires SettleError(w, s, r).None?
    ensures CurrentNav(s, r.product, w.now).Ok?
  {
    hide EligibleError, ExitError, CurrentNav;
  }

  lemma ChecksPass(w: World, s: State, r: Request)
    requires Inv(s)
    ensures SettleError(w, s, r).None? <==> exists i: nat :: LawfulRequest(w, s, r, i)
  {
    hide Inv, SettleError, CurrentNav;
    if SettleError(w, s, r).None? {
      NeedsEvidence(w, s, r);
      CurrentGoverns(s, r.product, w.now);
      var i: nat :| Governs(s.navs, i, r.product, w.now) && w.now < s.navs[i].expiresAt;
      EvidencePositive(s, i);
      CheckedIff(w, s, r, i);
    }
    if i: nat :| LawfulRequest(w, s, r, i) {
      EvidencePositive(s, i);
      CheckedIff(w, s, r, i);
    }
  }

  /**
   In reachable states a new request under an unused key settles exactly when it is
   lawful, and a register failure is simulated for exactly the transfers that would
   settle.
   */
  lemma SettlesExactlyWhenLawful(events: seq<Event>, w: World, key: string, r: Request)
    requires key != "" && key !in Run(events).idempotency
    ensures var s := Run(events);
      && (!Execute(w, s, key, r).1.Failed? <==> exists i: nat :: LawfulRequest(w, s, r, i))
      && (r.TransferRequest? ==> (!Simulate(w, s, key, r).1.Failed? <==> exists i: nat :: LawfulRequest(w, s, r, i)))
  {
    RunKeeps(events);
    ChecksPass(w, Run(events), r);
    Outcomes(w, Run(events), key, r);
    hide *;
  }

  lemma Outcomes(w: World, s: State, key: string, r: Request)
    requires key != "" && key !in s.idempotency
    ensures !Execute(w, s, key, r).1.Failed? <==> SettleError(w, s, r).None?
    ensures r.TransferRequest? ==> (!Simulate(w, s, key, r).1.Failed? <==> SettleError(w, s, r).None?)
  {
    hide SubscribeError, TransferError, RedeemError, CurrentNav, Settle, FailedTransaction;
  }
}
