/**
 The set-up of the in-memory engine: which calls products, credentials, restrictions and
 evidence go back to, and that every lawful call goes through.
 */
module ControlPlaneRegistry {
  import opened Common
  import opened ControlPlane

  // ----- the law -----

  /** Rules an issuer may bring a product with. */
  predicate RulesLaw(p: Product) {
    p.currency != "" && |p.classes| > 0 && |p.jurisdictions| > 0 && 0 <= p.maxDeviation <= 10_000
  }

  /** A credential of a known product, signed by its issuer, with a real window and limit. */
  predicate CredentialLaw(w: World, s: State, id: string, c: Credential) {
    c.product in s.products && w.allowed && w.signed(id) && c.validFrom < c.validUntil && c.maxUnits > 0
  }

  /** A NAV of a known product, signed by its source, positive and with a real window. */
  predicate NavLaw(w: World, s: State, nav: Nav) {
    nav.product in s.products && w.allowed && w.signed(nav.id) && nav.effectiveAt < nav.expiresAt && nav.value > 0
  }

  predicate Creates(s: State, e: Event, id: string, after: Product) {
    && e.action.DoCreateProduct? && e.action.id == id && e.world.allowed && RulesLaw(e.action.product)
    && after == Product(e.action.product.issuer, e.action.product.currency, e.action.product.classes, e.action.product.jurisdictions,
         e.action.product.maxDeviation, DRAFT)
  }

  /** Only its status ever changes: activated when every role is filled, paused while active. */
  predicate Switches(e: Event, id: string, before: Product, after: Product) {
    && after == Product(before.issuer, before.currency, before.classes, before.jurisdictions, before.maxDeviation, after.status)
    && ((e.action == DoActivate(id) && e.world.allowed && before.status != ACTIVE && after.status == ACTIVE)
      || (e.action == DoPause(id) && before.status == ACTIVE && after.status == PAUSED))
  }

  // ----- what other calls leave alone -----

  predicate SameSetUp(s: State, t: State) {
    t.products == s.products && t.credentials == s.credentials && t.restricted == s.restricted && t.navs == s.navs
  }

  lemma ExecuteAside(w: World, s: State, key: string, r: Request)
    ensures SameSetUp(s, Execute(w, s, key, r).0)
  {
    hide SettleError, CurrentNav, Paid, Moved, SettledTransaction;
  }

  lemma SimulateAside(w: World, s: State, key: string, r: Request)
    requires r.TransferRequest?
    ensures SameSetUp(s, Simulate(w, s, key, r).0)
  {
    hide TransferError, CurrentNav;
  }

  lemma ResolveAside(s: State, id: string, state: TxState, stage: Stage, c: Case, now: int)
    requires c.transaction in s.transactions
    ensures SameSetUp(s, Resolve(s, id, state, stage, c, now))
  {
  }

  lemma ApproveAside(w: World, s: State, id: string, checker: string)
    ensures SameSetUp(s, Approve(w, s, id, checker).0)
  {
    hide Execute, Mark, RetryKey, Renamed, Resolve;
    if id in s.cases && s.cases[id].transaction in s.transactions && s.cases[id].proposal.Some? {
      var c, p := s.cases[id], s.cases[id].proposal.value;
      var y := c.transaction;
      var approved := s.(transactions := s.transactions[y := Mark(s.transactions[y], s.transactions[y].state, ReviewApproved, w.now)]);
      var t := Execute(w, approved, RetryKey(id, p.replacement), Renamed(c.retry, p.replacement)).0;
      ExecuteAside(w, approved, RetryKey(id, p.replacement), Renamed(c.retry, p.replacement));
      ResolveAside(approved, id, CANCELLED, Cancelled, c.(status := RESOLVED_CANCELLED, checker := Some(checker)), w.now);
      ResolveAside(approved, id, REQUIRES_REVIEW, RetryBlocked, c.(status := OPEN, proposal := None), w.now);
      ResolveAside(t, id, REPLACED, Replaced, c.(status := RESOLVED_RETRIED, replacement := Some(p.replacement), checker := Some(checker)), w.now);
    }
  }

  lemma ProposeAside(w: World, s: State, id: string, maker: string, retry: bool, replacement: string)
    ensures SameSetUp(s, Propose(w, s, id, maker, retry, replacement).0)
  {
    hide Mark;
  }

  lemma CreditAside(s: State, account: string, currency: string, amount: int)
    ensures SameSetUp(s, CreditCash(s, account, currency, amount).0)
  {
    hide Put;
  }

  lemma OthersAside(s: State, e: Event)
    requires e.action.DoExecute? || e.action.DoSimulate? || e.action.DoPropose? || e.action.DoApprove? || e.action.DoCredit?
    ensures SameSetUp(s, Step(s, e).0)
  {
    assert SameSetUp(s, s);
    hide Execute, Simulate, Approve, Propose, CreditCash, Configure, SameSetUp;
    match e.action
    case DoExecute(key, r) => ExecuteAside(e.world, s, key, r);
    case DoSimulate(key, r) =>
      if r.TransferRequest? {
        SimulateAside(e.world, s, key, r);
      }
    case DoPropose(id, maker, retry, replacement) => ProposeAside(e.world, s, id, maker, retry, replacement);
    case DoApprove(id, checker) => ApproveAside(e.world, s, id, checker);
    case DoCredit(account, currency, amount) => CreditAside(s, account, currency, amount);
    case _ =>
  }

  // ----- every way the set-up moves -----

  predicate ProductStep(s: State, e: Event, t: State, id: string)
    requires id in t.products
  {
    if id !in s.products then Creates(s, e, id, t.products[id])
    else t.products[id] == s.products[id] || Switches(e, id, s.products[id], t.products[id])
  }

  predicate CredentialStep(s: State, e: Event, t: State, id: string)
    requires id in t.credentials
  {
    if id in s.credentials then t.credentials[id] == s.credentials[id]
    else e.action == DoRegisterCredential(id, t.credentials[id]) && CredentialLaw(e.world, s, id, t.credentials[id])
  }

  predicate NavStep(s: State, e: Event, t: State, n: nat)
    requires n < |t.navs|
  {
    if n < |s.navs| then t.navs[n] == s.navs[n]
    else n == |s.navs| && e.action == DoSubmitNav(t.navs[n]) && NavLaw(e.world, s, t.navs[n]) && forall m :: 0 <= m < n ==> t.navs[m].id != t.navs[n].id
  }

  /** A product never goes away, and each comes or moves by its own lawful call only. */
  ghost predicate ProductsStep(s: State, e: Event, t: State) {
    s.products.Keys <= t.products.Keys && forall id :: id in t.products ==> ProductStep(s, e, t, id)
  }

  ghost predicate CredentialsStep(s: State, e: Event, t: State) {
    s.credentials.Keys <= t.credentials.Keys && forall id :: id in t.credentials ==> CredentialStep(s, e, t, id)
  }

  ghost predicate NavsStep(s: State, e: Event, t: State) {
    |s.navs| <= |t.navs| && forall n :: 0 <= n < |t.navs| ==> NavStep(s, e, t, n)
  }

  /** A restriction comes by its call and stays. */
  ghost predicate RestrictedStep(s: State, e: Event, t: State) {
    forall id :: id in t.restricted <==> id in s.restricted || (e.action == DoRevokeCredential(id) && id in s.credentials)
  }

  /** Everything set up stays, and comes or moves by its own lawful call only. */
  ghost predicate SetUpStep(s: State, e: Event, t: State) {
    ProductsStep(s, e, t) && CredentialsStep(s, e, t) && NavsStep(s, e, t) && RestrictedStep(s, e, t)
  }

  lemma Unmoved(s: State, e: Event, t: State)
    ensures t.products == s.products ==> ProductsStep(s, e, t)
    ensures t.credentials == s.credentials ==> CredentialsStep(s, e, t)
    ensures t.navs == s.navs ==> NavsStep(s, e, t)
    ensures t.restricted == s.restricted && !e.action.DoRevokeCredential? ==> RestrictedStep(s, e, t)
  {
  }

  lemma ProductMoved(s: State, e: Event, t: State, id: string)
    requires id in t.products && t.products == s.products[id := t.products[id]] && ProductStep(s, e, t, id)
    ensures ProductsStep(s, e, t)
  {
    hide Creates, Switches;
  }

  lemma CredentialMoved(s: State, e: Event, t: State)
    requires e.action.DoRegisterCredential? && e.action.id !in s.credentials && CredentialLaw(e.world, s, e.action.id, e.action.credential)
    requires t.credentials == s.credentials[e.action.id := e.action.credential]
    ensures CredentialsStep(s, e, t)
  {
    hide CredentialLaw;
  }

  lemma NavMoved(s: State, e: Event, t: State)
    requires e.action.DoSubmitNav? && NavLaw(e.world, s, e.action.nav) && t.navs == s.navs + [e.action.nav]
    requires forall m :: 0 <= m < |s.navs| ==> s.navs[m].id != e.action.nav.id
    ensures NavsStep(s, e, t)
  {
    hide NavLaw;
  }

  lemma CreateMoves(w: World, s: State, id: string, p: Product)
    ensures SetUpStep(s, Event(w, DoCreateProduct(id, p)), CreateProduct(w, s, id, p).0)
  {
    var e, t := Event(w, DoCreateProduct(id, p)), CreateProduct(w, s, id, p).0;
    hide ProductsStep, CredentialsStep, NavsStep, RestrictedStep;
    Unmoved(s, e, t);
    if t.products != s.products {
      ProductMoved(s, e, t, id);
    }
  }

  lemma ActivateMoves(w: World, s: State, id: string)
    ensures SetUpStep(s, Event(w, DoActivate(id)), Activate(w, s, id).0)
  {
    var e, t := Event(w, DoActivate(id)), Activate(w, s, id).0;
    hide ProductsStep, CredentialsStep, NavsStep, RestrictedStep;
    Unmoved(s, e, t);
    if t.products != s.products {
      ProductMoved(s, e, t, id);
    }
  }

  lemma PauseMoves(w: World, s: State, id: string)
    ensures SetUpStep(s, Event(w, DoPause(id)), Pause(s, id).0)
  {
    var e, t := Event(w, DoPause(id)), Pause(s, id).0;
    hide ProductsStep, CredentialsStep, NavsStep, RestrictedStep;
    Unmoved(s, e, t);
    if t.products != s.products {
      ProductMoved(s, e, t, id);
    }
  }

  lemma RegisterMoves(w: World, s: State, id: string, c: Credential)
    ensures SetUpStep(s, Event(w, DoRegisterCredential(id, c)), RegisterCredential(w, s, id, c).0)
  {
    var e, t := Event(w, DoRegisterCredential(id, c)), RegisterCredential(w, s, id, c).0;
    hide ProductsStep, CredentialsStep, NavsStep, RestrictedStep;
    Unmoved(s, e, t);
    if t.credentials != s.credentials {
      CredentialMoved(s, e, t);
    }
  }

  lemma RevokeMoves(w: World, s: State, id: string)
    ensures SetUpStep(s, Event(w, DoRevokeCredential(id)), RevokeCredential(s, id).0)
  {
    var e, t := Event(w, DoRevokeCredential(id)), RevokeCredential(s, id).0;
    hide ProductsStep, CredentialsStep, NavsStep;
    Unmoved(s, e, t);
  }

  lemma SubmitMoves(w: World, s: State, nav: Nav)
    ensures SetUpStep(s, Event(w, DoSubmitNav(nav)), SubmitNav(w, s, nav).0)
  {
    var e, t := Event(w, DoSubmitNav(nav)), SubmitNav(w, s, nav).0;
    hide ProductsStep, CredentialsStep, NavsStep, RestrictedStep;
    Unmoved(s, e, t);
    if t.navs != s.navs {
      NavMoved(s, e, t);
    }
  }

  lemma SetUpMoves(s: State, e: Event)
    ensures SetUpStep(s, e, Step(s, e).0)
  {
    hide Execute, Simulate, Approve, Propose, CreateProduct, Activate, Pause, RegisterCredential, RevokeCredential, SubmitNav, CreditCash;
    hide ProductsStep, CredentialsStep, NavsStep, RestrictedStep;
    match e.action
    case DoCreateProduct(id, p) => CreateMoves(e.world, s, id, p);
    case DoActivate(id) => ActivateMoves(e.world, s, id);
    case DoPause(id) => PauseMoves(e.world, s, id);
    case DoRegisterCredential(id, c) => RegisterMoves(e.world, s, id, c);
    case DoRevokeCredential(id) => RevokeMoves(e.world, s, id);
    case DoSubmitNav(nav) => SubmitMoves(e.world, s, nav);
    case _ =>
      OthersAside(s, e);
      Unmoved(s, e, Step(s, e).0);
  }

  // ----- lawful calls go through -----

  /** The call meets the law of its kind. */
  predicate Lawful(s: State, e: Event) {
    match e.action
    case DoCreateProduct(id, p) => id !in s.products && e.world.allowed && RulesLaw(p)
    case DoActivate(id) => id in s.products && s.products[id].status != ACTIVE && e.world.allowed
    case DoPause(id) => id in s.products && s.products[id].status == ACTIVE
    case DoRegisterCredential(id, c) => id !in s.credentials && CredentialLaw(e.world, s, id, c)
    case DoRevokeCredential(id) => id in s.credentials && id !in s.restricted
    case DoSubmitNav(nav) => NavLaw(e.world, s, nav) && forall n :: 0 <= n < |s.navs| ==> s.navs[n].id != nav.id
    case DoCredit(_, _, amount) => amount >= 0
    case _ => false
  }

  /** The call did what it asks for. */
  predicate Performed(e: Event, t: State) {
    match e.action
    case DoCreateProduct(id, p) => id in t.products
    case DoActivate(id) => id in t.products && t.products[id].status == ACTIVE
    case DoPause(id) => id in t.products && t.products[id].status == PAUSED
    case DoRegisterCredential(id, c) => id in t.credentials && t.credentials[id] == c
    case DoRevokeCredential(id) => id in t.restricted
    case DoSubmitNav(nav) => nav in t.navs
    case _ => true
  }

  predicate Answered(s: State, e: Event, t: State, reply: Reply) {
    (reply == Accepted <==> Lawful(s, e)) && (Lawful(s, e) ==> Performed(e, t)) && (reply != Accepted ==> reply.Failed? && t == s)
  }

  lemma ProductAnswers(s: State, e: Event)
    requires e.action.DoCreateProduct? || e.action.DoActivate? || e.action.DoPause?
    ensures Answered(s, e, Configure(s, e).0, Configure(s, e).1)
  {
    hide RegisterCredential, RevokeCredential, SubmitNav, CredentialLaw, NavLaw;
  }

  lemma CredentialAnswers(s: State, e: Event)
    requires e.action.DoRegisterCredential? || e.action.DoRevokeCredential?
    ensures Answered(s, e, Configure(s, e).0, Configure(s, e).1)
  {
    hide CreateProduct, Activate, Pause, SubmitNav, RulesLaw, NavLaw;
  }

  lemma NavAnswers(s: State, e: Event)
    requires e.action.DoSubmitNav?
    ensures Answered(s, e, Configure(s, e).0, Configure(s, e).1)
  {
    hide CreateProduct, Activate, Pause, RegisterCredential, RevokeCredential, RulesLaw, CredentialLaw;
  }

  /** A set-up call is accepted, and done, exactly when it is lawful; refused, it changes nothing. */
  lemma SetUpIff(s: State, e: Event)
    requires !e.action.DoExecute? && !e.action.DoSimulate? && !e.action.DoPropose? && !e.action.DoApprove?
    ensures Answered(s, e, Step(s, e).0, Step(s, e).1)
  {
    if e.action.DoCreateProduct? || e.action.DoActivate? || e.action.DoPause? {
      hide Configure, Answered;
      ProductAnswers(s, e);
    } else if e.action.DoSubmitNav? {
      hide Configure, Answered;
      NavAnswers(s, e);
    } else if !e.action.DoCredit? {
      hide Configure, Answered;
      CredentialAnswers(s, e);
    }
  }

  // ----- runs -----

  ghost predicate CredentialAt(events: seq<Event>, i: nat, id: string, c: Credential) {
    && i < |events| && events[i].action == DoRegisterCredential(id, c) && id !in Run(events[..i]).credentials
    && CredentialLaw(events[i].world, Run(events[..i]), id, c)
  }

  /** In every run each credential is as the one call registered it that was signed, by a permitted issuer, for a known product. */
  lemma {:induction false} CredentialRegistered(events: seq<Event>, id: string)
    requires id in Run(events).credentials
    ensures exists i: nat :: CredentialAt(events, i, id, Run(events).credentials[id])
  {
    hide Step, CredentialLaw;
    var m := |events| - 1;
    var front := events[..m];
    SetUpMoves(Run(front), events[m]);
    if id in Run(front).credentials {
      CredentialRegistered(front, id);
      var i: nat :| CredentialAt(front, i, id, Run(front).credentials[id]);
      assert front[..i] == events[..i];
      assert CredentialAt(events, i, id, Run(events).credentials[id]);
    } else {
      assert CredentialAt(events, m, id, Run(events).credentials[id]);
    }
  }

  /** The call at position i restricted a credential on record. */
  ghost predicate RevokedAt(events: seq<Event>, i: nat, id: string) {
    i < |events| && events[i].action == DoRevokeCredential(id) && id in Run(events[..i]).credentials
  }

  /** In every run a credential is restricted exactly when some call revoked it while it was on record, for good. */
  lemma {:induction false} RestrictedIffRevoked(events: seq<Event>, id: string)
    ensures id in Run(events).restricted <==> exists i: nat :: RevokedAt(events, i, id)
  {
    hide Step;
    if events != [] {
      var m := |events| - 1;
      var front := events[..m];
      SetUpMoves(Run(front), events[m]);
      RestrictedIffRevoked(front, id);
      if i: nat :| RevokedAt(front, i, id) {
        assert front[..i] == events[..i];
        assert RevokedAt(events, i, id);
      }
      if i: nat :| RevokedAt(events, i, id) {
        assert i < m ==> front[..i] == events[..i];
        assert i < m ==> RevokedAt(front, i, id);
      }
      assert events[m].action == DoRevokeCredential(id) && id in Run(front).credentials ==> RevokedAt(events, m, id);
    }
  }

  ghost predicate NavAt(events: seq<Event>, i: nat, nav: Nav) {
    && i < |events| && events[i].action == DoSubmitNav(nav) && NavLaw(events[i].world, Run(events[..i]), nav)
    && forall n :: 0 <= n < |Run(events[..i]).navs| ==> Run(events[..i]).navs[n].id != nav.id
  }

  /** In every run each NAV is as one call submitted it, signed, from a permitted source, positive and under a new identifier. */
  lemma {:induction false} NavSubmitted(events: seq<Event>, n: nat)
    requires n < |Run(events).navs|
    ensures exists i: nat :: NavAt(events, i, Run(events).navs[n])
  {
    hide Step, NavLaw;
    var m := |events| - 1;
    var front := events[..m];
    SetUpMoves(Run(front), events[m]);
    assert NavStep(Run(front), events[m], Run(events), n);
    forall k | 0 <= k < |Run(front).navs| ensures Run(events).navs[k] == Run(front).navs[k] {
      assert NavStep(Run(front), events[m], Run(events), k);
    }
    if n < |Run(front).navs| {
      NavSubmitted(front, n);
      var i: nat :| NavAt(front, i, Run(front).navs[n]);
      assert front[..i] == events[..i];
      assert NavAt(events, i, Run(events).navs[n]);
    } else {
      assert NavAt(events, m, Run(events).navs[n]);
    }
  }

  /** The call at position i is the last to switch the product, and switched it on. */
  ghost predicate ActivatedAt(events: seq<Event>, i: nat, id: string) {
    && i < |events| && events[i].action == DoActivate(id) && events[i].world.allowed && id in Run(events[..i]).products
    && forall j :: i < j < |events| ==> events[j].action != DoPause(id)
  }

  /** In every run an active product was switched on by a call every role holder allowed, and not paused since. */
  lemma {:induction false} ActiveSinceActivated(events: seq<Event>, id: string)
    requires id in Run(events).products && Run(events).products[id].status == ACTIVE
    ensures exists i: nat :: ActivatedAt(events, i, id)
  {
    var m := |events| - 1;
    var front := events[..m];
    SetUpMoves(Run(front), events[m]);
    assert ProductStep(Run(front), events[m], Run(events), id);
    PauseStops(Run(front), events[m], id);
    hide Step;
    if id in Run(front).products && Run(front).products[id].status == ACTIVE {
      ActiveSinceActivated(front, id);
      var i: nat :| ActivatedAt(front, i, id);
      assert front[..i] == events[..i];
      assert ActivatedAt(events, i, id);
    } else {
      assert ActivatedAt(events, m, id);
    }
  }

  lemma PauseStops(s: State, e: Event, id: string)
    ensures e.action == DoPause(id) && id in Step(s, e).0.products ==> Step(s, e).0.products[id].status != ACTIVE
  {
  }
}
