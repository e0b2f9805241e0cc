/** A run that leaves a retried case with a replacement that is not settled: a failure simulated under a retry key. */
module ControlPlaneRetryKeys {
  import opened Common
  import opened ControlPlane
  import opened ControlPlaneSafety

  const ANYTIME: World := World(1, (x: string) => true, true)

  const SALE: Request := TransferRequest("x", "p", "seller", "a", "buyers", "bb", 1, 1, 0, 100)

  function SetUpEvents(): seq<Event> {
    [ Event(ANYTIME, DoCreateProduct("p", Product("issuer", "c", ["k"], ["j"], 0, DRAFT))),
      Event(ANYTIME, DoActivate("p")),
      Event(ANYTIME, DoRegisterCredential("a", Credential("p", "seller", "k", "j", 0, 100, 10))),
      Event(ANYTIME, DoRegisterCredential("bb", Credential("p", "buyers", "k", "j", 0, 100, 10))),
      Event(ANYTIME, DoSubmitNav(Nav("n", "p", 1, 0, 100))),
      Event(ANYTIME, DoCredit("seller", "c", 1)),
      Event(ANYTIME, DoCredit("buyers", "c", 1)),
      Event(ANYTIME, DoExecute("key", SubscribeRequest("xxx", "p", "seller", "a", 1, 1))) ]
  }

  /** A state in which the sale can be made. */
  ghost predicate SaleReady(s: State) {
    && "p" in s.products && s.products["p"] == Product("issuer", "c", ["k"], ["j"], 0, ACTIVE)
    && "a" in s.credentials && s.credentials["a"] == Credential("p", "seller", "k", "j", 0, 100, 10)
    && "bb" in s.credentials && s.credentials["bb"] == Credential("p", "buyers", "k", "j", 0, 100, 10)
    && s.restricted == {} && s.navs == [Nav("n", "p", 1, 0, 100)]
    && Get(s.assets, ("seller", "p")) == 1 && Get(s.assets, ("buyers", "p")) == 0 && Get(s.cash, ("buyers", "c")) >= 1
  }

  lemma RunMore(events: seq<Event>, e: Event)
    ensures Run(events + [e]) == Step(Run(events), e).0
  {
    hide Step;
    assert (events + [e])[..|events|] == events;
  }

  /** The state after the first seven set-up events. */
  function Funded(): State {
    var p, c, d := Product("issuer", "c", ["k"], ["j"], 0, ACTIVE), Credential("p", "seller", "k", "j", 0, 100, 10), Credential("p", "buyers", "k", "j", 0, 100, 10);
    INITIAL.(products := map["p" := p], credentials := map["a" := c]["bb" := d], navs := [Nav("n", "p", 1, 0, 100)],
      cash := map[("seller", "c") := 1, ("buyers", "c") := 1], credited := [Credit("seller", "c", 1)] + [Credit("buyers", "c", 1)])
  }

  lemma FundedReached()
    ensures Run(SetUpEvents()[..7]) == Funded()
  {
    var es := SetUpEvents();
    var p, c, d := Product("issuer", "c", ["k"], ["j"], 0, DRAFT), Credential("p", "seller", "k", "j", 0, 100, 10), Credential("p", "buyers", "k", "j", 0, 100, 10);
    var s1 := INITIAL.(products := map["p" := p]);
    var s2 := s1.(products := map["p" := p.(status := ACTIVE)]);
    var s3 := s2.(credentials := map["a" := c]);
    var s4 := s3.(credentials := map["a" := c]["bb" := d]);
    var s5 := s4.(navs := [Nav("n", "p", 1, 0, 100)]);
    var s6 := s5.(cash := map[("seller", "c") := 1], credited := [Credit("seller", "c", 1)]);
    ProductCreated();
    ProductActivated(s1);
    CredentialRegistered(s2, "a", c);
    CredentialRegistered(s3, "bb", d);
    NavSubmitted(s4);
    Credited(s5, "seller");
    Credited(s6, "buyers");
    hide Step, Run, Execute;
    Prefixes(es);
    RunEmpty();
    Reach([], INITIAL, es[0], s1);
    Reach(es[..1], s1, es[1], s2);
    Reach(es[..2], s2, es[2], s3);
    Reach(es[..3], s3, es[3], s4);
    Reach(es[..4], s4, es[4], s5);
    Reach(es[..5], s5, es[5], s6);
    Reach(es[..6], s6, es[6], Funded());
  }

  lemma SetUpReached()
    ensures var s := Run(SetUpEvents()); SaleReady(s) && s.transactions.Keys == {"xxx"} && s.idempotency.Keys == {"key"} && s.cases == map[]
  {
    var es := SetUpEvents();
    FundedReached();
    FirstSubscription(Funded());
    Subscribed(Funded());
    Prefixes(es);
    hide Step, Run, Execute, SetUpEvents, Funded, SaleReady;
    Reach(es[..7], Funded(), es[7], Execute(ANYTIME, Funded(), "key", SubscribeRequest("xxx", "p", "seller", "a", 1, 1)).0);
  }

  lemma RunEmpty()
    ensures Run([]) == INITIAL
  {
  }

  lemma Prefixes(es: seq<Event>)
    requires |es| == 8
    ensures es[..1] == [] + [es[0]] && es[..2] == es[..1] + [es[1]] && es[..3] == es[..2] + [es[2]] && es[..4] == es[..3] + [es[3]]
    ensures es[..5] == es[..4] + [es[4]] && es[..6] == es[..5] + [es[5]] && es[..7] == es[..6] + [es[6]] && es == es[..7] + [es[7]]
  {
  }

  lemma ProductCreated()
    ensures Step(INITIAL, SetUpEvents()[0]).0 == INITIAL.(products := map["p" := Product("issuer", "c", ["k"], ["j"], 0, DRAFT)])
  {
  }

  lemma ProductActivated(s: State)
    requires s.products.Keys == {"p"} && s.products["p"].status == DRAFT
    ensures Step(s, SetUpEvents()[1]).0 == s.(products := map["p" := s.products["p"].(status := ACTIVE)])
  {
  }

  lemma CredentialRegistered(s: State, id: string, c: Credential)
    requires c.product in s.products && id !in s.credentials && c.validFrom < c.validUntil && c.maxUnits > 0
    ensures Step(s, Event(ANYTIME, DoRegisterCredential(id, c))).0 == s.(credentials := s.credentials[id := c])
  {
  }

  lemma NavSubmitted(s: State)
    requires "p" in s.products && s.navs == []
    ensures Step(s, SetUpEvents()[4]).0 == s.(navs := [Nav("n", "p", 1, 0, 100)])
  {
  }

  lemma Credited(s: State, account: string)
    requires (account, "c") !in s.cash
    ensures Step(s, Event(ANYTIME, DoCredit(account, "c", 1))).0
      == s.(cash := s.cash[(account, "c") := 1], credited := s.credited + [Credit(account, "c", 1)])
  {
  }

  lemma Subscribed(s: State)
    ensures Step(s, SetUpEvents()[7]).0 == Execute(ANYTIME, s, "key", SubscribeRequest("xxx", "p", "seller", "a", 1, 1)).0
  {
    hide Execute;
  }

  lemma Reach(events: seq<Event>, s: State, e: Event, t: State)
    requires Run(events) == s && Step(s, e).0 == t
    ensures Run(events + [e]) == t
  {
    RunMore(events, e);
  }

  lemma FirstSubscription(s: State)
    requires "p" in s.products && s.products["p"] == Product("issuer", "c", ["k"], ["j"], 0, ACTIVE)
    requires s.credentials.Keys == {"a", "bb"} && s.credentials["a"] == Credential("p", "seller", "k", "j", 0, 100, 10)
    requires s.credentials["bb"] == Credential("p", "buyers", "k", "j", 0, 100, 10)
    requires s.restricted == {} && s.navs == [Nav("n", "p", 1, 0, 100)] && s.assets == map[] && s.register == map[]
    requires s.cash == map[("seller", "c") := 1, ("buyers", "c") := 1]
    requires s.transactions == map[] && s.idempotency == map[] && s.cases == map[]
    ensures var t := Execute(ANYTIME, s, "key", SubscribeRequest("xxx", "p", "seller", "a", 1, 1)).0;
      SaleReady(t) && t.transactions.Keys == {"xxx"} && t.idempotency.Keys == {"key"} && t.cases == map[]
  {
    var r := SubscribeRequest("xxx", "p", "seller", "a", 1, 1);
    assert LatestNav(s.navs, 1, "p", 1) == Some(0);
    assert Different: "seller"[0] != "buyers"[0] && "seller"[0] != "issuer"[0] && "buyers"[0] != "issuer"[0];
    assert CurrentNav(s, "p", 1) == Ok(s.navs[0]);
    assert SubscribeError(ANYTIME, s, r).None?;
    hide SubscribeError, CurrentNav, LatestNav;
    assert ("seller", "c") != ("buyers", "c") && ("issuer", "c") != ("buyers", "c");
  }

  /** Where the sale can be made, it can be simulated under any unused key and identifier, and nothing it depends on changes. */
  lemma SaleSimulates(s: State, id: string, key: string)
    requires SaleReady(s) && id !in s.transactions && key != "" && key !in s.idempotency
    ensures var r := Renamed(SALE, id); var t := Simulate(ANYTIME, s, key, r).0;
      && SaleReady(t) && t.transactions.Keys == s.transactions.Keys + {id} && t.transactions[id].state == REQUIRES_REVIEW
      && t.idempotency == s.idempotency[key := t.idempotency[key]] && t.idempotency[key].request == r
      && t.cases == s.cases[CaseId(id) := Case(id, "p", OPEN, None, None, None, r)]
      && forall x :: x in s.transactions ==> t.transactions[x] == s.transactions[x]
  {
    var r := Renamed(SALE, id);
    assert LatestNav(s.navs, 1, "p", 1) == Some(0);
    assert CurrentNav(s, "p", 1) == Ok(s.navs[0]);
    assert "seller"[0] != "buyers"[0];
    assert TransferError(ANYTIME, s, r).None?;
    hide TransferError, CurrentNav, LatestNav, CaseId;
  }

  /** A key used by a simulated failure answers the retry, and the case closes on a replacement that never settled. */
  lemma RetryOnUnsettled(s: State, id: string, replacement: string)
    requires id in s.cases && s.cases[id].status == OPEN && s.cases[id].transaction in s.transactions && replacement != ""
    requires RetryKey(id, replacement) in s.idempotency && s.idempotency[RetryKey(id, replacement)].request == Renamed(s.cases[id].retry, replacement)
    requires replacement in s.transactions && replacement != s.cases[id].transaction && s.transactions[replacement].state == REQUIRES_REVIEW
    ensures var t := Propose(ANYTIME, s, id, "maker", true, replacement).0; var u := Approve(ANYTIME, t, id, "checker").0;
      Retried(u, id) && u.cases[id].replacement == Some(replacement) && replacement in u.transactions && u.transactions[replacement].state == REQUIRES_REVIEW
  {
    hide CurrentNav, RetryKey;
    assert "maker" != "checker" && RetryKey(id, replacement) != "" by {
      assert |"maker"| != |"checker"|;
      ReservedKey(id, replacement);
    }
  }

  predicate ReplacementSettled(s: State, id: string)
    requires Retried(s, id)
  {
    var r := s.cases[id].replacement.value;
    r in s.transactions && s.transactions[r].state == SETTLED
  }

  /** Without the condition on reserved keys the settled replacement is lost. */
  lemma ReservedSimulationBreaksSettlement()
    ensures exists events: seq<Event>, id: string :: Retried(Run(events), id) && !ReplacementSettled(Run(events), id)
  {
    hide Step, Run, SetUpEvents, SaleReady, CaseId, RetryKey, Simulate, Propose, Approve;
    var es := SetUpEvents();
    var s := Run(es);
    SetUpReached();
    var id, key := CaseId("x"), RetryKey(CaseId("x"), "yy");
    KeysDiffer(id);
    SaleSimulates(s, "x", "first");
    var e1 := Event(ANYTIME, DoSimulate("first", SALE));
    var s1 := Simulate(ANYTIME, s, "first", SALE).0;
    SaleSimulates(s1, "yy", key);
    var e2 := Event(ANYTIME, DoSimulate(key, Renamed(SALE, "yy")));
    var s2 := Simulate(ANYTIME, s1, key, Renamed(SALE, "yy")).0;
    CasesDiffer();
    RetryOnUnsettled(s2, id, "yy");
    var e3, e4 := Event(ANYTIME, DoPropose(id, "maker", true, "yy")), Event(ANYTIME, DoApprove(id, "checker"));
    StepsAre(s, s1, s2, Propose(ANYTIME, s2, id, "maker", true, "yy").0, e1, e2, e3, e4);
    Reach(es, s, e1, s1);
    Reach(es + [e1], s1, e2, s2);
    Reach(es + [e1] + [e2], s2, e3, Step(s2, e3).0);
    Reach(es + [e1] + [e2] + [e3], Step(s2, e3).0, e4, Step(Step(s2, e3).0, e4).0);
    var u := Run(es + [e1] + [e2] + [e3] + [e4]);
    assert Retried(u, id) && !ReplacementSettled(u, id);
  }

  lemma StepsAre(s: State, s1: State, s2: State, s3: State, e1: Event, e2: Event, e3: Event, e4: Event)
    requires e1.action.DoSimulate? && e1.action.request.TransferRequest? && e2.action.DoSimulate? && e2.action.request.TransferRequest?
    requires e3.action.DoPropose? && e4.action.DoApprove?
    ensures Step(s, e1) == Simulate(e1.world, s, e1.action.key, e1.action.request)
    ensures Step(s1, e2) == Simulate(e2.world, s1, e2.action.key, e2.action.request)
    ensures Step(s2, e3) == Propose(e3.world, s2, e3.action.id, e3.action.maker, e3.action.retry, e3.action.replacement)
    ensures Step(s3, e4) == Approve(e4.world, s3, e4.action.id, e4.action.checker)
  {
    hide Simulate, Propose, Approve;
  }

  lemma KeysDiffer(id: string)
    ensures var key := RetryKey(id, "yy"); key != "" && key != "first" && key != "key"
  {
    ReservedKey(id, "yy");
  }

  lemma CasesDiffer()
    ensures CaseId("x") != CaseId("yy")
  {
    assert |CaseId("x")| != |CaseId("yy")|;
  }
}
