/** What every run of the durable workflow keeps: double entry, the register mirror, non-negative accounts, legal histories. */
module DurableWorkflowSafety {
  import opened Common
  import opened Ledger
  import opened DurableWorkflow

  // ----- sums over moves -----

  lemma {:induction false} SumConcat(xs: seq<Entry>, ys: seq<Entry>, f: Entry -> bool)
    ensures Sum(xs + ys, f) == Sum(xs, f) + Sum(ys, f)
  {
    if ys == [] {
      assert xs + ys == xs;
    } else {
      var front, e := ys[..|ys| - 1], ys[|ys| - 1];
      assert xs + ys == (xs + front) + [e];
      SumConcat(xs, front, f);
      SumMore(xs + front, e, f);
    }
  }

  lemma SumMove(from: Account, to: Account, amount: int, f: Entry -> bool)
    ensures Sum(Move(from, to, amount), f)
      == (if f(Entry(from, from.asset, -amount)) then -amount else 0) + (if f(Entry(to, to.asset, amount)) then amount else 0)
  {
    var d, c := Entry(from, from.asset, -amount), Entry(to, to.asset, amount);
    assert Move(from, to, amount) == [d] + [c] && [] + [d] == [d];
    SumMore([], d, f);
    SumMore([d], c, f);
  }

  lemma SumThree(a: Entry, b: Entry, c: seq<Entry>, f: Entry -> bool)
    requires |c| <= 1
    ensures Sum([a, b] + c, f) == (if f(a) then a.delta else 0) + (if f(b) then b.delta else 0) + (if c != [] && f(c[0]) then c[0].delta else 0)
  {
    SumMore([a], b, f);
    SumMore([], a, f);
    assert [] + [a] == [a] && [a] + [b] == [a, b];
    if c == [] {
      assert [a, b] + c == [a, b];
    } else {
      assert c == [c[0]];
      SumMore([a, b], c[0], f);
    }
  }

  /** What a request posts to the ledger. */
  function Posted(r: Request, p: Product, nav: int): seq<Entry> {
    CashEntries(r, p, nav) + UnitEntries(r)
  }

  /** The cash part, account by account. */
  function CashDelta(r: Request, p: Product, nav: int, a: Account): int {
    match r
    case SubscribeRequest(_, product, investor, _, _, cash) =>
      (if a == InvestorCash(product, investor, p.currency) then -cash else 0) + (if a == IssuerCash(product, p.issuer, p.currency) then cash else 0)
    case TransferRequest(_, product, seller, _, buyer, _, units, price, fee, _) =>
      (if a == InvestorCash(product, buyer, p.currency) then -(units * price + fee) else 0)
      + (if a == InvestorCash(product, seller, p.currency) then units * price else 0)
      + (if a == FeeCash(product, p.issuer, p.currency) then fee else 0)
    case RedeemRequest(_, product, investor, _, units) =>
      (if a == IssuerCash(product, p.issuer, p.currency) then -(units * nav) else 0)
      + (if a == InvestorCash(product, investor, p.currency) then units * nav else 0)
  }

  function UnitDelta(r: Request, a: Account): int {
    match r
    case SubscribeRequest(_, product, investor, _, units, _) =>
      (if a == Treasury(product) then -units else 0) + (if a == InvestorUnits(product, investor) then units else 0)
    case TransferRequest(_, product, seller, _, buyer, _, units, _, _, _) =>
      (if a == InvestorUnits(product, seller) then -units else 0) + (if a == InvestorUnits(product, buyer) then units else 0)
    case RedeemRequest(_, product, investor, _, units) =>
      (if a == InvestorUnits(product, investor) then -units else 0) + (if a == Treasury(product) then units else 0)
  }

  lemma CashSums(r: Request, p: Product, nav: int)
    ensures forall a :: Sum(CashEntries(r, p, nav), OfAccount(a)) == CashDelta(r, p, nav, a)
    ensures forall a :: Sum(CashEntries(r, p, nav), OfAsset(a)) == 0
    ensures forall x, k :: Sum(CashEntries(r, p, nav), OfKind(Units(x), k)) == 0
  {
    forall f: Entry -> bool ensures CashSum(r, p, nav, f) {
      match r
      case SubscribeRequest(_, product, investor, _, _, cash) =>
        SumMove(InvestorCash(product, investor, p.currency), IssuerCash(product, p.issuer, p.currency), cash, f);
      case RedeemRequest(_, product, investor, _, units) =>
        SumMove(IssuerCash(product, p.issuer, p.currency), InvestorCash(product, investor, p.currency), units * nav, f);
      case TransferRequest(_, product, seller, _, buyer, _, units, price, fee, _) =>
        var from, to := InvestorCash(product, buyer, p.currency), InvestorCash(product, seller, p.currency);
        SumThree(Entry(from, from.asset, -(units * price + fee)), Entry(to, to.asset, units * price),
          if fee == 0 then [] else [Entry(FeeCash(product, p.issuer, p.currency), Cash(p.currency), fee)], f);
    }
    hide Sum, CashEntries;
    forall a ensures Sum(CashEntries(r, p, nav), OfAccount(a)) == CashDelta(r, p, nav, a) {
      assert CashSum(r, p, nav, OfAccount(a));
    }
    forall a ensures Sum(CashEntries(r, p, nav), OfAsset(a)) == 0 {
      assert CashSum(r, p, nav, OfAsset(a));
    }
    forall x, k ensures Sum(CashEntries(r, p, nav), OfKind(Units(x), k)) == 0 {
      assert CashSum(r, p, nav, OfKind(Units(x), k));
    }
  }

  function Part(f: Entry -> bool, account: Account, delta: int): int {
    if f(Entry(account, account.asset, delta)) then delta else 0
  }

  ghost predicate CashSum(r: Request, p: Product, nav: int, f: Entry -> bool) {
    Sum(CashEntries(r, p, nav), f) ==
      match r
      case SubscribeRequest(_, product, investor, _, _, cash) =>
        Part(f, InvestorCash(product, investor, p.currency), -cash) + Part(f, IssuerCash(product, p.issuer, p.currency), cash)
      case TransferRequest(_, product, seller, _, buyer, _, units, price, fee, _) =>
        Part(f, InvestorCash(product, buyer, p.currency), -(units * price + fee)) + Part(f, InvestorCash(product, seller, p.currency), units * price)
        + Part(f, FeeCash(product, p.issuer, p.currency), fee)
      case RedeemRequest(_, product, investor, _, units) =>
        Part(f, IssuerCash(product, p.issuer, p.currency), -(units * nav)) + Part(f, InvestorCash(product, investor, p.currency), units * nav)
  }

  lemma UnitSums(r: Request)
    ensures forall a :: Sum(UnitEntries(r), OfAccount(a)) == UnitDelta(r, a)
    ensures forall a :: Sum(UnitEntries(r), OfAsset(a)) == 0
    ensures forall x :: Sum(UnitEntries(r), OfKind(Units(x), INVESTOR)) + Sum(UnitEntries(r), OfKind(Units(x), TREASURY)) == 0
  {
    var (from, to) := match r
      case SubscribeRequest(_, product, investor, _, _, _) => (Treasury(product), InvestorUnits(product, investor))
      case TransferRequest(_, product, seller, _, buyer, _, _, _, _, _) => (InvestorUnits(product, seller), InvestorUnits(product, buyer))
      case RedeemRequest(_, product, investor, _, _) => (InvestorUnits(product, investor), Treasury(product));
    assert UnitEntries(r) == Move(from, to, r.units);
    forall f: Entry -> bool
      ensures Sum(UnitEntries(r), f) == (if f(Entry(from, from.asset, -r.units)) then -r.units else 0) + (if f(Entry(to, to.asset, r.units)) then r.units else 0)
    {
      SumMove(from, to, r.units, f);
    }
  }

  // ----- the books -----

  /** Every asset sums to zero, investor and issuer accounts are not negative, and holdings are what the treasury owes. */
  ghost predicate Sound(batches: seq<Batch>) {
    && (forall a :: Total(batches, OfAsset(a)) == 0)
    && (forall a: Account :: a.kind == INVESTOR || a.kind == ISSUER ==> Balance(batches, a) >= 0)
    && (forall x :: Total(batches, OfKind(Units(x), INVESTOR)) + Total(batches, OfKind(Units(x), TREASURY)) == 0)
  }

  /** Each owner's units are the same in both books. */
  ghost predicate Mirrored(ledger: seq<Batch>, register: seq<Batch>) {
    forall a: Account :: a.asset.Units? ==> Balance(ledger, a) == Balance(register, a)
  }

  /** Batches that belong to a transaction are exactly those of the settled ones, one each. */
  ghost predicate OnePerSettled(batches: seq<Batch>, intents: map<string, Intent>) {
    && (forall i :: 0 <= i < |batches| && batches[i].transaction.Some? ==>
      batches[i].transaction.value in intents && intents[batches[i].transaction.value].state == SETTLED)
    && (forall i, j :: 0 <= i < j < |batches| && batches[i].transaction.Some? ==> batches[i].transaction != batches[j].transaction)
    && (forall x :: x in intents && intents[x].state == SETTLED ==> exists i :: 0 <= i < |batches| && batches[i].transaction == Some(x))
  }

  ghost predicate Books(s: State) {
    Sound(s.ledger) && Mirrored(s.ledger, s.register) && OnePerSettled(s.ledger, s.intents) && OnePerSettled(s.register, s.intents)
  }

  ghost predicate NavsPositive(navs: seq<Nav>) {
    forall i :: 0 <= i < |navs| ==> navs[i].value > 0
  }

  /** A batch that keeps the books sound. */
  lemma SoundMore(batches: seq<Batch>, b: Batch)
    requires Sound(batches) && forall a :: Sum(b.entries, OfAsset(a)) == 0
    requires forall a: Account :: a.kind == INVESTOR || a.kind == ISSUER ==> Balance(batches, a) + Sum(b.entries, OfAccount(a)) >= 0
    requires forall x :: Sum(b.entries, OfKind(Units(x), INVESTOR)) + Sum(b.entries, OfKind(Units(x), TREASURY)) == 0
    ensures Sound(batches + [b])
  {
    forall f: Entry -> bool ensures Total(batches + [b], f) == Total(batches, f) + Sum(b.entries, f) {
      TotalMore(batches, b, f);
    }
    hide Total, Sum;
  }

  lemma PricedFacts(w: World, s: State, r: Request)
    requires NavsPositive(s.navs) && Priced(w, s, r).Ok?
    ensures r.product in s.products && r.units > 0
    ensures var p, nav := s.products[r.product], Priced(w, s, r).value; nav > 0 && KindError(w, s, r, p, nav).None?
  {
    hide KindError;
  }

  lemma Positive(a: int, b: int)
    requires a > 0 && b > 0
    ensures a * b > 0
  {
  }

  /** No checked request drives an investor or issuer account below zero. */
  lemma PostedIsCovered(w: World, s: State, r: Request, p: Product, nav: int)
    requires Sound(s.ledger) && KindError(w, s, r, p, nav).None? && r.units > 0 && nav > 0
    ensures forall a: Account :: a.kind == INVESTOR || a.kind == ISSUER ==> Balance(s.ledger, a) + CashDelta(r, p, nav, a) + UnitDelta(r, a) >= 0
  {
    hide CredentialError, Balance, Abs, Total;
    Positive(r.units, nav);
    if r.TransferRequest? {
      Positive(r.units, r.price);
    }
    forall a: Account | a.kind == INVESTOR || a.kind == ISSUER ensures Balance(s.ledger, a) + CashDelta(r, p, nav, a) + UnitDelta(r, a) >= 0 {
      assert Balance(s.ledger, a) >= 0;
    }
  }

  lemma PostedSums(r: Request, p: Product, nav: int)
    ensures forall f: Entry -> bool :: Sum(Posted(r, p, nav), f) == Sum(CashEntries(r, p, nav), f) + Sum(UnitEntries(r), f)
  {
    hide CashEntries, UnitEntries, Sum;
    forall f: Entry -> bool ensures Sum(Posted(r, p, nav), f) == Sum(CashEntries(r, p, nav), f) + Sum(UnitEntries(r), f) {
      SumConcat(CashEntries(r, p, nav), UnitEntries(r), f);
    }
  }

  lemma LedgerSound(w: World, s: State, r: Request, p: Product, nav: int, b: Batch)
    requires Sound(s.ledger) && KindError(w, s, r, p, nav).None? && r.units > 0 && nav > 0 && b.entries == Posted(r, p, nav)
    ensures Sound(s.ledger + [b])
  {
    PostedSums(r, p, nav);
    CashSums(r, p, nav);
    UnitSums(r);
    PostedIsCovered(w, s, r, p, nav);
    hide Posted, Sum, CashEntries, UnitEntries, CashDelta, UnitDelta, KindError, Balance;
    forall a ensures Sum(b.entries, OfAsset(a)) == 0 {
    }
    forall a ensures Sum(b.entries, OfAccount(a)) == CashDelta(r, p, nav, a) + UnitDelta(r, a) {
    }
    forall x ensures Sum(b.entries, OfKind(Units(x), INVESTOR)) + Sum(b.entries, OfKind(Units(x), TREASURY)) == 0 {
    }
    SoundMore(s.ledger, b);
  }

  /** Cash entries touch no unit account, so posting the units to both books keeps them alike. */
  lemma MirrorMore(ledger: seq<Batch>, register: seq<Batch>, r: Request, p: Product, nav: int, b: Batch, c: Batch)
    requires Mirrored(ledger, register) && b.entries == Posted(r, p, nav) && c.entries == UnitEntries(r)
    ensures Mirrored(ledger + [b], register + [c])
  {
    PostedSums(r, p, nav);
    CashSums(r, p, nav);
    hide Posted, Sum, CashEntries, UnitEntries, Total;
    forall a: Account | a.asset.Units? ensures Balance(ledger + [b], a) == Balance(register + [c], a) {
      TotalMore(ledger, b, OfAccount(a));
      TotalMore(register, c, OfAccount(a));
      assert CashDelta(r, p, nav, a) == 0;
      assert Balance(ledger, a) == Balance(register, a);
    }
  }

  lemma OneMore(batches: seq<Batch>, intents: map<string, Intent>, x: string, i: Intent, b: Batch)
    requires OnePerSettled(batches, intents) && x !in intents && i.state == SETTLED && b.transaction == Some(x)
    ensures OnePerSettled(batches + [b], intents[x := i])
  {
    assert (batches + [b])[|batches|] == b;
    forall y | y in intents[x := i] && intents[x := i][y].state == SETTLED ensures exists k :: 0 <= k < |batches + [b]| && (batches + [b])[k].transaction == Some(y) {
      if y != x {
        var k :| 0 <= k < |batches| && batches[k].transaction == Some(y);
        assert (batches + [b])[k] == batches[k];
      }
    }
  }

  lemma OneSame(batches: seq<Batch>, intents: map<string, Intent>, x: string, i: Intent)
    requires OnePerSettled(batches, intents) && i.state != SETTLED && (x in intents ==> intents[x].state != SETTLED)
    ensures OnePerSettled(batches, intents[x := i])
  {
  }

  // ----- intents and cases -----

  /** A recorded history is a path of the transition table from REQUESTED to the current state. */
  ghost predicate LegalHistory(i: Intent) {
    && i.history != [] && i.history[0] == REQUESTED && i.history[|i.history| - 1] == i.state
    && forall k :: 0 < k < |i.history| ==> MayFollow(i.history[k - 1], i.history[k])
  }

  ghost predicate RoundsGood(c: Case) {
    && (forall k :: 0 <= k < |c.rounds| && c.rounds[k].checker.Some? ==> c.rounds[k].checker.value != c.rounds[k].maker)
    && (forall k :: 0 <= k < |c.rounds| - 1 ==> c.rounds[k].checker.Some?)
    && (c.rounds != [] ==> (c.rounds[|c.rounds| - 1].checker.None? <==> c.status == PENDING))
    && (c.status != OPEN ==> c.rounds != [])
  }

  ghost predicate CaseGood(s: State, id: string)
    requires id in s.cases
  {
    var c := s.cases[id];
    && id == CaseId(c.transaction) && c.transaction in s.intents && RoundsGood(c)
    && s.intents[c.transaction].state ==
      match c.status
      case OPEN => REQUIRES_REVIEW
      case PENDING => PENDING_APPROVAL
      case RESOLVED_RETRIED => REPLACED
      case RESOLVED_CANCELLED => CANCELLED
  }

  /** The transaction's receipt is stored. */
  predicate Stored(i: Intent, x: string) {
    i.receipt.Some? && i.receipt.value.transaction == x
  }

  ghost predicate IntentGood(s: State, x: string)
    requires x in s.intents
  {
    var i := s.intents[x];
    && LegalHistory(i) && i.request.id == x && Stored(i, x) && i.key in s.keys && s.keys[i.key] == x
    && (i.state == SETTLED <==> CaseId(x) !in s.cases) && (i.state == SETTLED <==> i.receipt.value.state == SETTLED)
  }

  ghost predicate Workflow(s: State) {
    && (forall x :: x in s.intents ==> IntentGood(s, x))
    && (forall k :: k in s.keys ==> s.keys[k] in s.intents && s.intents[s.keys[k]].key == k)
    && (forall id :: id in s.cases ==> CaseGood(s, id))
  }

  ghost predicate Inv(s: State) {
    Books(s) && NavsPositive(s.navs) && Workflow(s)
  }

  lemma CaseIdInjective(x: string, y: string)
    requires CaseId(x) == CaseId(y)
    ensures x == y
  {
    assert CaseId(x)[5..] == x && CaseId(y)[5..] == y;
  }

  /** A new settled or reviewed transaction under a fresh key and identifier. */
  lemma WorkflowGrows(s: State, t: State, key: string, x: string, i: Intent)
    requires Workflow(s) && x !in s.intents && key !in s.keys
    requires t.intents == s.intents[x := i] && t.keys == s.keys[key := x] && i.key == key && i.request.id == x && Stored(i, x)
    requires LegalHistory(i) && i.receipt.value.state == i.state
    requires if i.state == SETTLED then t.cases == s.cases else i.state == REQUIRES_REVIEW && t.cases == s.cases[CaseId(x) := Case(x, OPEN, [], None)]
    ensures Workflow(t)
  {
    hide LegalHistory, RoundsGood, CaseGood, CaseId, IntentGood;
    CasesElsewhere(s, x);
    CasesStay(s, t, x);
    IntentsGrow(s, t, key, x, i);
    if i.state != SETTLED {
      NewCaseGood(t, x);
    }
  }

  /** No case belongs to a transaction that does not exist yet. */
  lemma CasesElsewhere(s: State, x: string)
    requires x !in s.intents && forall id :: id in s.cases ==> CaseGood(s, id)
    ensures forall id :: id in s.cases ==> s.cases[id].transaction != x && id != CaseId(x)
    ensures forall y :: y in s.intents ==> CaseId(y) != CaseId(x)
  {
    hide RoundsGood;
    forall id | id in s.cases ensures s.cases[id].transaction != x && id != CaseId(x) {
      assert CaseGood(s, id);
      if id == CaseId(x) {
        CaseIdInjective(x, s.cases[id].transaction);
      }
    }
    forall y | y in s.intents ensures CaseId(y) != CaseId(x) {
      if CaseId(y) == CaseId(x) {
        CaseIdInjective(y, x);
      }
    }
  }

  lemma IntentsGrow(s: State, t: State, key: string, x: string, i: Intent)
    requires (forall y :: y in s.intents ==> IntentGood(s, y)) && x !in s.intents && key !in s.keys && CaseId(x) !in s.cases
    requires t.intents == s.intents[x := i] && t.keys == s.keys[key := x] && i.key == key && i.request.id == x && Stored(i, x)
    requires LegalHistory(i) && i.receipt.value.state == i.state && forall y :: y in s.intents ==> CaseId(y) != CaseId(x)
    requires t.cases.Keys == if i.state == SETTLED then s.cases.Keys else s.cases.Keys + {CaseId(x)}
    ensures forall y :: y in t.intents ==> IntentGood(t, y)
  {
    hide LegalHistory, CaseId;
    forall y | y in t.intents ensures IntentGood(t, y) {
      if y != x {
        assert IntentGood(s, y);
      }
    }
  }

  lemma NewCaseGood(t: State, x: string)
    requires x in t.intents && t.intents[x].state == REQUIRES_REVIEW && CaseId(x) in t.cases && t.cases[CaseId(x)] == Case(x, OPEN, [], None)
    ensures CaseGood(t, CaseId(x))
  {
  }

  lemma CasesStay(s: State, t: State, x: string)
    requires forall id :: id in s.cases ==> CaseGood(s, id) && s.cases[id].transaction != x && id in t.cases && t.cases[id] == s.cases[id]
    requires forall y :: y in s.intents && y != x ==> y in t.intents && t.intents[y] == s.intents[y]
    ensures forall id :: id in s.cases ==> CaseGood(t, id)
  {
    hide RoundsGood, CaseId;
    forall id | id in s.cases ensures CaseGood(t, id) {
      assert CaseGood(s, id);
    }
  }

  lemma LegalPaths(i: Intent)
    requires (i.history == SETTLED_PATH && i.state == SETTLED) || (i.history == REVIEW_PATH && i.state == REQUIRES_REVIEW)
    ensures LegalHistory(i)
  {
  }

  /** A posted settlement adds one batch to each book and one settled row; a refused one adds nothing. */
  lemma PostWrites(w: World, s: State, key: string, r: Request, nav: int)
    requires r.product in s.products
    ensures var (t, reply) := Post(w, s, key, r, nav);
      if !reply.Receipted? then t == s
      else
        && r.id in t.intents && t.intents[r.id] == Intent(key, r, SETTLED, SETTLED_PATH, Some(Receipt(r.id, SETTLED, RestrictedExit(s, r))))
        && t == s.(ledger := s.ledger + [LedgerBatch(r, s.products[r.product], nav)], register := s.register + [RegisterBatch(r)],
              keys := s.keys[key := r.id], intents := s.intents[r.id := t.intents[r.id]])
  {
    hide BatchError, AccountsOf, LedgerBatch, RegisterBatch, RestrictedExit;
  }

  lemma PostKeeps(w: World, s: State, key: string, r: Request, nav: int)
    requires Inv(s) && key !in s.keys && r.id !in s.intents && Priced(w, s, r) == Ok(nav)
    ensures Inv(Post(w, s, key, r, nav).0)
  {
    PricedFacts(w, s, r);
    PostWrites(w, s, key, r, nav);
    hide Post, RestrictedExit, Priced, KindError, CashEntries, UnitEntries, LegalHistory, Workflow;
    var (t, reply) := Post(w, s, key, r, nav);
    if reply.Receipted? {
      var p := s.products[r.product];
      var b, c := LedgerBatch(r, p, nav), RegisterBatch(r);
      LedgerSound(w, s, r, p, nav, b);
      MirrorMore(s.ledger, s.register, r, p, nav, b, c);
      var i := t.intents[r.id];
      OneMore(s.ledger, s.intents, r.id, i, b);
      OneMore(s.register, s.intents, r.id, i, c);
      LegalPaths(i);
      WorkflowGrows(s, t, key, r.id, i);
    }
  }

  lemma ReviewKeeps(w: World, s: State, key: string, r: Request)
    requires Inv(s) && key !in s.keys && r.id !in s.intents
    ensures Inv(Review(w, s, key, r).0)
  {
    hide LegalHistory, Workflow, Sound, Mirrored, OnePerSettled, CaseId;
    var (t, reply) := Review(w, s, key, r);
    if reply.Receipted? {
      var i := t.intents[r.id];
      LegalPaths(i);
      OneSame(s.ledger, s.intents, r.id, i);
      OneSame(s.register, s.intents, r.id, i);
      WorkflowGrows(s, t, key, r.id, i);
    }
  }

  lemma KeysKnown(s: State)
    requires Inv(s)
    ensures forall k :: k in s.keys ==> s.keys[k] in s.intents
  {
    hide Books, IntentGood, CaseGood;
  }

  lemma SettleKeeps(w: World, s: State, key: string, r: Request, registerFailure: bool)
    requires Inv(s)
    ensures Inv(Settle(w, s, key, r, registerFailure).0)
  {
    hide Inv, Priced, Post, Review;
    KeysKnown(s);
    if key !in s.keys && Priced(w, s, r).Ok? && r.id !in s.intents {
      ReviewKeeps(w, s, key, r);
      PostKeeps(w, s, key, r, Priced(w, s, r).value);
    }
  }

  /** A legal transition of an exception's transaction together with its case. */
  lemma WorkflowMoves(s: State, t: State, id: string)
    requires Inv(s) && id in s.cases && id in t.cases && s.cases[id].transaction in s.intents && s.cases[id].transaction in t.intents
    requires var x := s.cases[id].transaction;
      && t == s.(intents := s.intents[x := t.intents[x]], cases := s.cases[id := t.cases[id]])
      && Transition(s.intents[x], t.intents[x].state) == Ok(t.intents[x]) && s.intents[x].state != SETTLED && t.intents[x].state != SETTLED
      && t.cases[id].transaction == x
    requires CaseGood(t, id)
    ensures Inv(t)
  {
    hide Sound, Mirrored, OnePerSettled, IntentGood, CaseGood, LegalHistory, RoundsGood, NavsPositive, CaseId;
    var x := s.cases[id].transaction;
    OneSame(s.ledger, s.intents, x, t.intents[x]);
    OneSame(s.register, s.intents, x, t.intents[x]);
    hide Books;
    IntentsMove(s, t, id, x);
    CasesMove(s, t, id, x);
  }

  lemma IntentsMove(s: State, t: State, id: string, x: string)
    requires (forall y :: y in s.intents ==> IntentGood(s, y)) && CaseGoodIn(s, id) && s.cases[id].transaction == x && id in t.cases
    requires x in s.intents && x in t.intents && t == s.(intents := s.intents[x := t.intents[x]], cases := s.cases[id := t.cases[id]])
    requires Transition(s.intents[x], t.intents[x].state) == Ok(t.intents[x]) && s.intents[x].state != SETTLED && t.intents[x].state != SETTLED
    ensures forall y :: y in t.intents ==> IntentGood(t, y)
  {
    HistoryGrows(s, x, t.intents[x]);
    hide LegalHistory, CaseGood, CaseId;
    assert t.cases.Keys == s.cases.Keys;
    forall y | y in t.intents ensures IntentGood(t, y) {
      assert IntentGood(s, y);
    }
  }

  ghost predicate CaseGoodIn(s: State, id: string) {
    id in s.cases && CaseGood(s, id)
  }

  lemma CasesMove(s: State, t: State, id: string, x: string)
    requires (forall j :: j in s.cases ==> CaseGood(s, j)) && id in s.cases && s.cases[id].transaction == x && id in t.cases
    requires x in t.intents && t == s.(intents := s.intents[x := t.intents[x]], cases := s.cases[id := t.cases[id]]) && CaseGood(t, id)
    ensures forall j :: j in t.cases ==> CaseGood(t, j)
  {
    hide RoundsGood;
    forall j | j in t.cases && j != id ensures CaseGood(t, j) {
      assert CaseGood(s, j) && CaseGood(s, id);
    }
  }

  lemma HistoryGrows(s: State, x: string, i: Intent)
    requires x in s.intents && IntentGood(s, x) && Transition(s.intents[x], i.state) == Ok(i)
    ensures LegalHistory(i)
  {
    hide CaseId;
  }

  lemma CaseFacts(s: State, id: string)
    requires Inv(s) && id in s.cases
    ensures CaseGood(s, id) && s.cases[id].transaction in s.intents && s.intents[s.cases[id].transaction].state != SETTLED
  {
    hide Books;
    assert CaseGood(s, id);
  }

  lemma ProposeKeeps(s: State, id: string, maker: string, retry: bool, replacement: string)
    requires Inv(s)
    ensures Inv(Propose(s, id, maker, retry, replacement).0)
    ensures Propose(s, id, maker, retry, replacement).1 != Failed("INVALID_STATE_TRANSITION")
  {
    hide Inv;
    var (t, reply) := Propose(s, id, maker, retry, replacement);
    if id in s.cases {
      CaseFacts(s, id);
    }
    if reply == Accepted {
      hide CaseId;
      WorkflowMoves(s, t, id);
    }
  }

  /** Closing a pending case into a state its status stands for. */
  lemma CloseKeeps(s: State, id: string, c: Case, to: TxState, status: CaseStatus, replacement: Option<string>)
    requires Inv(s) && id in s.cases && s.cases[id].status == PENDING && c.transaction == s.cases[id].transaction && c.transaction in s.intents
    requires RoundsGood(c.(status := status)) && status != PENDING
    requires (status == OPEN && to == REQUIRES_REVIEW) || (status == RESOLVED_RETRIED && to == REPLACED) || (status == RESOLVED_CANCELLED && to == CANCELLED)
    ensures Close(s, id, c, to, status, replacement).1 == Accepted && Inv(Close(s, id, c, to, status, replacement).0)
  {
    hide Inv;
    CaseFacts(s, id);
    var (t, reply) := Close(s, id, c, to, status, replacement);
    assert RoundsGood(t.cases[id]);
    hide RoundsGood, CaseId;
    WorkflowMoves(s, t, id);
  }

  lemma CheckedRounds(c: Case, checker: string, status: CaseStatus)
    requires RoundsGood(c) && c.status == PENDING && c.rounds != [] && c.rounds[|c.rounds| - 1].maker != checker && status != PENDING
    ensures RoundsGood(Checked(c, checker).(status := status)) && Checked(c, checker).transaction == c.transaction
  {
  }

  lemma ApproveKeeps(w: World, s: State, id: string, checker: string, approve: bool)
    requires Inv(s)
    ensures Inv(Approve(w, s, id, checker, approve).0)
    ensures Approve(w, s, id, checker, approve).1 != Failed("INVALID_STATE_TRANSITION")
  {
    hide Inv, Close, Checked, Settle;
    if id in s.cases && s.cases[id].status == PENDING && s.cases[id].rounds != [] {
      CaseFacts(s, id);
      var c := s.cases[id];
      var round := c.rounds[|c.rounds| - 1];
      if round.maker != checker {
        CheckedRounds(c, checker, OPEN);
        CheckedRounds(c, checker, RESOLVED_CANCELLED);
        CheckedRounds(c, checker, RESOLVED_RETRIED);
        hide CaseGood, RoundsGood;
        var d := Checked(c, checker);
        CloseKeeps(s, id, d, REQUIRES_REVIEW, OPEN, None);
        CloseKeeps(s, id, d, CANCELLED, RESOLVED_CANCELLED, None);
        RetryKeeps(w, s, id, d, round.replacement);
      }
    }
  }

  lemma RetryKeeps(w: World, s: State, id: string, c: Case, replacement: string)
    requires Inv(s) && id in s.cases && s.cases[id].status == PENDING && c.transaction == s.cases[id].transaction && c.transaction in s.intents
    requires RoundsGood(c.(status := OPEN)) && RoundsGood(c.(status := RESOLVED_RETRIED))
    ensures Inv(Retry(w, s, id, c, replacement).0)
    ensures Retry(w, s, id, c, replacement).1 == Accepted || Retry(w, s, id, c, replacement).1.RetryBlocked?
  {
    hide Inv, Close, Settle, RoundsGood, RetryKey;
    var key, r := RetryKey(id, replacement), Renamed(s.intents[c.transaction].request, replacement);
    var (t, reply) := Settle(w, s, key, r, false);
    if reply.Failed? {
      CloseKeeps(s, id, c, REQUIRES_REVIEW, OPEN, None);
    } else {
      SettleKeeps(w, s, key, r, false);
      SettleCases(w, s, key, r);
      CloseKeeps(t, id, c, REPLACED, RESOLVED_RETRIED, Some(replacement));
    }
  }

  lemma SettleCases(w: World, s: State, key: string, r: Request)
    ensures Settle(w, s, key, r, false).0.cases == s.cases
  {
    hide Priced, Append, CashEntries, UnitEntries, RestrictedExit;
  }

  lemma OpeningKeeps(s: State, product: string, owner: string, amount: int)
    requires Inv(s)
    ensures Inv(Opening(s, product, owner, amount).0)
  {
    hide Workflow, Sound, Mirrored, OnePerSettled, BatchError, AccountsOf;
    var t := Opening(s, product, owner, amount).0;
    if t.ledger != s.ledger {
      var currency := s.products[product].currency;
      var from, to := InvestorCash(product, owner, currency), Account(product, "EXTERNAL_CASH", Cash(currency), CASH_CLEARING);
      var b := Batch("opening:" + product + ":" + owner + ":" + currency, None, Move(from, to, -amount));
      assert t == s.(ledger := s.ledger + [b]);
      OpeningSound(s.ledger, b, from, to, amount);
      OpeningMirror(s.ledger, s.register, b, from, to, amount);
      OpeningOne(s.ledger, s.intents, b);
    } else {
      assert t == s;
    }
    SameWorkflow(s, t);
  }

  lemma OpeningSound(batches: seq<Batch>, b: Batch, from: Account, to: Account, amount: int)
    requires Sound(batches) && b.entries == Move(from, to, -amount) && amount > 0
    requires from.kind == INVESTOR && to.kind == CASH_CLEARING && from.asset == to.asset && from.asset.Cash?
    ensures Sound(batches + [b])
  {
    forall f: Entry -> bool
      ensures Sum(b.entries, f) == (if f(Entry(from, from.asset, amount)) then amount else 0) + (if f(Entry(to, to.asset, -amount)) then -amount else 0)
    {
      SumMove(from, to, -amount, f);
    }
    hide Sum, Move, Total;
    assert forall a: Account :: a.kind == INVESTOR || a.kind == ISSUER ==> Balance(batches, a) >= 0;
    SoundMore(batches, b);
  }

  lemma OpeningMirror(batches: seq<Batch>, register: seq<Batch>, b: Batch, from: Account, to: Account, amount: int)
    requires Mirrored(batches, register) && b.entries == Move(from, to, -amount) && from.asset.Cash? && to.asset.Cash?
    ensures Mirrored(batches + [b], register)
  {
    hide Total;
    forall a: Account | a.asset.Units? ensures Balance(batches + [b], a) == Balance(register, a) {
      TotalMore(batches, b, OfAccount(a));
      SumMove(from, to, -amount, OfAccount(a));
      assert Balance(batches, a) == Balance(register, a);
    }
  }

  lemma OpeningOne(batches: seq<Batch>, intents: map<string, Intent>, b: Batch)
    requires OnePerSettled(batches, intents) && b.transaction.None?
    ensures OnePerSettled(batches + [b], intents)
  {
    forall x | x in intents && intents[x].state == SETTLED ensures exists k :: 0 <= k < |batches + [b]| && (batches + [b])[k].transaction == Some(x) {
      var k :| 0 <= k < |batches| && batches[k].transaction == Some(x);
      assert (batches + [b])[k] == batches[k];
    }
  }

  lemma SameWorkflow(s: State, t: State)
    requires t.intents == s.intents && t.keys == s.keys && t.cases == s.cases
    ensures Workflow(s) ==> Workflow(t)
  {
    hide LegalHistory, RoundsGood, CaseId, MayFollow, Stored;
    if Workflow(s) {
      forall x | x in t.intents ensures IntentGood(t, x) {
        assert IntentGood(s, x);
      }
      forall id | id in t.cases ensures CaseGood(t, id) {
        assert CaseGood(s, id);
      }
    }
  }

  lemma StepKeeps(s: State, e: Event)
    requires Inv(s)
    ensures Inv(Step(s, e).0)
  {
    hide Books, Workflow, Settle, Propose, Approve, Opening;
    match e.action
    case DoSettle(key, r, registerFailure) => SettleKeeps(e.world, s, key, r, registerFailure);
    case DoPropose(id, maker, retry, replacement) => ProposeKeeps(s, id, maker, retry, replacement);
    case DoApprove(id, checker, approve) => ApproveKeeps(e.world, s, id, checker, approve);
    case Open(product, owner, amount) => OpeningKeeps(s, product, owner, amount);
    case _ =>
      SameWorkflow(s, Step(s, e).0);
      SameBooks(s, Step(s, e).0);
  }

  lemma SameBooks(s: State, t: State)
    requires t.ledger == s.ledger && t.register == s.register && t.intents == s.intents
    ensures Books(s) ==> Books(t)
  {
  }

  lemma {:induction false} RunKeeps(events: seq<Event>)
    ensures Inv(Run(events))
  {
    hide Inv, Step;
    if events == [] {
      InitialInv();
    } else {
      RunKeeps(events[..|events| - 1]);
      StepKeeps(Run(events[..|events| - 1]), events[|events| - 1]);
    }
  }

  lemma InitialInv()
    ensures Inv(INITIAL)
  {
  }

  // ----- the theorems -----

  /**
   In every reachable state each asset sums to zero over all ledger accounts, each
   owner's units are the same in ledger and register, the treasury owes exactly what
   investors hold, and no investor or issuer account is negative.
   */
  lemma DoubleEntryMirror(events: seq<Event>, asset: Asset, account: Account, product: string)
    ensures var s := Run(events);
      && Total(s.ledger, OfAsset(asset)) == 0
      && (account.asset.Units? ==> Balance(s.ledger, account) == Balance(s.register, account))
      && Total(s.ledger, OfKind(Units(product), TREASURY)) == -Total(s.ledger, OfKind(Units(product), INVESTOR))
      && (account.kind == INVESTOR || account.kind == ISSUER ==> Balance(s.ledger, account) >= 0)
  {
    RunKeeps(events);
    hide Run, Workflow, OnePerSettled, Balance, Total;
  }

  /** Exactly the settled transactions are booked, once in each book; a failed or rolled-back attempt books nothing. */
  lemma BookedOnce(events: seq<Event>, i: nat, j: nat, x: string)
    ensures var s := Run(events);
      && (i < |s.ledger| && s.ledger[i].transaction == Some(x) ==> x in s.intents && s.intents[x].state == SETTLED)
      && (i < |s.register| && s.register[i].transaction == Some(x) ==> x in s.intents && s.intents[x].state == SETTLED)
      && (i < j < |s.ledger| && s.ledger[i].transaction == Some(x) ==> s.ledger[j].transaction != Some(x))
      && (i < j < |s.register| && s.register[i].transaction == Some(x) ==> s.register[j].transaction != Some(x))
      && (x in s.intents && s.intents[x].state == SETTLED ==>
        (exists k :: 0 <= k < |s.ledger| && s.ledger[k].transaction == Some(x)) && exists k :: 0 <= k < |s.register| && s.register[k].transaction == Some(x))
  {
    RunKeeps(events);
    hide Run, Workflow, Sound, Mirrored;
  }

  /** Recorded histories follow the transition table; no exception decision ever meets an illegal transition. */
  lemma HistoriesAreLegal(events: seq<Event>, x: string, e: Event)
    ensures x in Run(events).intents ==> LegalHistory(Run(events).intents[x])
    ensures e.action.DoPropose? || e.action.DoApprove? ==> Step(Run(events), e).1 != Failed("INVALID_STATE_TRANSITION")
  {
    RunKeeps(events);
    hide Run, Books, LegalHistory;
    if e.action.DoPropose? {
      ProposeKeeps(Run(events), e.action.id, e.action.maker, e.action.retry, e.action.replacement);
    } else if e.action.DoApprove? {
      ApproveKeeps(e.world, Run(events), e.action.id, e.action.checker, e.action.approve);
    }
    if x in Run(events).intents {
      assert IntentGood(Run(events), x);
    }
  }

  /** Case and transaction correspond, every decided round had two people, and a retry that fails changes no book. */
  lemma ExceptionRounds(events: seq<Event>, id: string)
    ensures var s := Run(events);
      id in s.cases ==>
        var c := s.cases[id];
        && c.transaction in s.intents
        && (c.status == OPEN <==> s.intents[c.transaction].state == REQUIRES_REVIEW)
        && (c.status == PENDING <==> s.intents[c.transaction].state == PENDING_APPROVAL)
        && (c.status == RESOLVED_RETRIED <==> s.intents[c.transaction].state == REPLACED)
        && (c.status == RESOLVED_CANCELLED <==> s.intents[c.transaction].state == CANCELLED)
        && forall k :: 0 <= k < |c.rounds| && c.rounds[k].checker.Some? ==> c.rounds[k].checker.value != c.rounds[k].maker
  {
    RunKeeps(events);
    hide Run, Books;
    if id in Run(events).cases {
      assert CaseGood(Run(events), id);
    }
  }

  /** What a case is proposed with: a retry names a replacement, a cancellation does not. */
  predicate WellFormed(retry: bool, replacement: string) {
    retry != (replacement == "")
  }

  /**
   A blocked retry leaves nothing but its decided round: the next proposal for the case,
   by anyone, is taken up again, and nothing was booked or created in between.
   */
  lemma BlockedRetryMayBeProposedAgain(w: World, s: State, id: string, checker: string, maker: string, retry: bool, replacement: string)
    requires Inv(s) && Approve(w, s, id, checker, true).1.RetryBlocked? && WellFormed(retry, replacement)
    ensures var t := Approve(w, s, id, checker, true).0; var (u, reply) := Propose(t, id, maker, retry, replacement);
      && reply == Accepted && id in u.cases && id in s.cases && |u.cases[id].rounds| == |s.cases[id].rounds| + 1
      && u.cases[id].rounds[..|s.cases[id].rounds|] == Checked(s.cases[id], checker).rounds
      && u.ledger == s.ledger && u.register == s.register && u.keys == s.keys && u.intents.Keys == s.intents.Keys
  {
    hide Settle, RetryKey, CaseId, Books, IntentGood, LegalHistory;
    CaseFacts(s, id);
    var t := Approve(w, s, id, checker, true).0;
    ApproveKeeps(w, s, id, checker, true);
    CaseFacts(t, id);
    hide Inv, CaseGood, RoundsGood;
  }
}
