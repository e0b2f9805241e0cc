/** Further results over every run of the durable workflow: what retries end in, holding limits, and who may leave. */
module DurableWorkflowRetries {
  import opened Common
  import opened Ledger
  import opened DurableWorkflow
  import opened DurableWorkflowSafety

  // ----- what stays of a transaction -----

  /** Keys keep naming their transactions, and a transaction keeps its key, request and receipt. */
  ghost predicate IntentsKeep(s: State, t: State) {
    && (forall x :: x in s.intents ==>
      && x in t.intents && t.intents[x].key == s.intents[x].key && t.intents[x].request == s.intents[x].request
      && t.intents[x].receipt == s.intents[x].receipt)
    && (forall k :: k in s.keys ==> k in t.keys && t.keys[k] == s.keys[k])
  }

  lemma IntentsKeepChain(s: State, t: State, u: State)
    requires IntentsKeep(s, t) && IntentsKeep(t, u)
    ensures IntentsKeep(s, u)
  {
  }

  predicate Retried(s: State, id: string) {
    id in s.cases && s.cases[id].status == RESOLVED_RETRIED && s.cases[id].replacement.Some?
  }

  /** The replacement was made under the case's retry key for the original request. */
  ghost predicate RetryGood(s: State, id: string)
    requires Retried(s, id)
  {
    var c := s.cases[id];
    var r := c.replacement.value;
    && c.transaction in s.intents && r in s.intents && s.intents[r].key == RetryKey(id, r)
    && s.intents[r].request == Renamed(s.intents[c.transaction].request, r)
  }

  ghost predicate RetriesGood(s: State) {
    forall id :: id in s.cases && s.cases[id].status == RESOLVED_RETRIED ==> Retried(s, id) && RetryGood(s, id)
  }

  /** Retried cases of t were retried before, as they are, or are good already. */
  ghost predicate RetriesFrom(s: State, t: State) {
    forall id :: id in t.cases && t.cases[id].status == RESOLVED_RETRIED ==>
      (id in s.cases && s.cases[id] == t.cases[id]) || (Retried(t, id) && RetryGood(t, id))
  }

  lemma RetriesStay(s: State, t: State)
    requires RetriesGood(s) && IntentsKeep(s, t) && RetriesFrom(s, t)
    ensures RetriesGood(t)
  {
    hide RetryKey;
    forall id | id in t.cases && t.cases[id].status == RESOLVED_RETRIED ensures Retried(t, id) && RetryGood(t, id) {
      if id in s.cases && s.cases[id] == t.cases[id] {
        assert Retried(s, id) && RetryGood(s, id);
      }
    }
  }

  lemma SameIntents(s: State, t: State)
    requires t.intents == s.intents && t.keys == s.keys && t.cases == s.cases
    ensures IntentsKeep(s, t) && RetriesFrom(s, t)
  {
    hide RetryKey;
  }

  /** A transaction created under a fresh key, settled or under review. */
  ghost predicate Creates(s: State, t: State, key: string, r: Request, registerFailure: bool) {
    && key !in s.keys && r.id !in s.intents && r.id in t.intents
    && t.keys == s.keys[key := r.id] && t.intents == s.intents[r.id := t.intents[r.id]]
    && t.intents[r.id].key == key && t.intents[r.id].request == r
    && t.intents[r.id].receipt.Some? && t.intents[r.id].receipt.value.state == (if registerFailure then REQUIRES_REVIEW else SETTLED)
    && t.cases == if registerFailure then s.cases[CaseId(r.id) := Case(r.id, OPEN, [], None)] else s.cases
  }

  /** The key's transaction is for this request and has this receipt. */
  predicate Answered(s: State, key: string, r: Request, receipt: Receipt) {
    && key in s.keys && s.keys[key] in s.intents && s.intents[s.keys[key]].request == r
    && s.intents[s.keys[key]].receipt == Some(receipt)
  }

  lemma PostCreates(w: World, s: State, key: string, r: Request, nav: int)
    requires r.product in s.products && key !in s.keys && r.id !in s.intents
    ensures var (t, reply) := Post(w, s, key, r, nav); if reply.Receipted? then Creates(s, t, key, r, false) && Answered(t, key, r, reply.receipt) else t == s
  {
    hide Append, LedgerBatch, RegisterBatch, RestrictedExit;
  }

  lemma ReviewCreates(w: World, s: State, key: string, r: Request)
    requires key !in s.keys && r.id !in s.intents
    ensures var (t, reply) := Review(w, s, key, r); if reply.Receipted? then Creates(s, t, key, r, true) && Answered(t, key, r, reply.receipt) else t == s
  {
    hide CaseId;
  }

  /** A settlement is refused, answers a replay, or creates its transaction. */
  lemma SettleCreates(w: World, s: State, key: string, r: Request, registerFailure: bool)
    requires Inv(s)
    ensures var (t, reply) := Settle(w, s, key, r, registerFailure);
      && (t == s || (reply.Receipted? && Creates(s, t, key, r, registerFailure)))
      && (reply.Receipted? ==> Answered(t, key, r, reply.receipt))
  {
    KeysKnown(s);
    hide Inv, Priced, Post, Review, Creates;
    if key !in s.keys && Priced(w, s, r).Ok? && r.id !in s.intents {
      ProductPriced(w, s, r);
      PostCreates(w, s, key, r, Priced(w, s, r).value);
      ReviewCreates(w, s, key, r);
    }
  }

  lemma ProductPriced(w: World, s: State, r: Request)
    requires Priced(w, s, r).Ok?
    ensures r.product in s.products
  {
    hide KindError;
  }

  lemma SettleIntents(w: World, s: State, key: string, r: Request, registerFailure: bool)
    requires Inv(s)
    ensures var t := Settle(w, s, key, r, registerFailure).0; IntentsKeep(s, t) && RetriesFrom(s, t)
  {
    hide *;
    SettleCreates(w, s, key, r, registerFailure);
    SameIntents(s, s);
    if Creates(s, Settle(w, s, key, r, registerFailure).0, key, r, registerFailure) {
      CreatedKeeps(s, Settle(w, s, key, r, registerFailure).0, key, r, registerFailure);
    }
  }

  lemma CreatedKeeps(s: State, t: State, key: string, r: Request, registerFailure: bool)
    requires Creates(s, t, key, r, registerFailure)
    ensures IntentsKeep(s, t) && RetriesFrom(s, t)
  {
    hide CaseId, RetryGood;
  }

  lemma CreatedUnsettled(s: State, t: State, k: string, q: Request, registerFailure: bool, key: string, r: Request)
    requires Creates(s, t, k, q, registerFailure) && forall x :: x in s.keys ==> s.keys[x] in s.intents
    ensures Unsettled(t, key, r) <==> Unsettled(s, key, r) || (registerFailure && k == key && q == r)
  {
    hide CaseId;
  }

  lemma ProposeIntents(s: State, id: string, maker: string, retry: bool, replacement: string)
    ensures var t := Propose(s, id, maker, retry, replacement).0; IntentsKeep(s, t) && RetriesFrom(s, t)
  {
    hide RetryKey;
  }

  lemma CloseIntents(s: State, id: string, c: Case, to: TxState, status: CaseStatus, replacement: Option<string>)
    requires c.transaction in s.intents && id in s.cases
    ensures var (t, reply) := Close(s, id, c, to, status, replacement);
      && IntentsKeep(s, t)
      && (status != RESOLVED_RETRIED ==> RetriesFrom(s, t))
      && (reply == Accepted ==> t.cases == s.cases[id := c.(status := status, replacement := replacement)])
      && (reply != Accepted ==> t == s)
  {
    hide RetryKey;
  }

  /** A settlement that is not refused has the request on record under the key. */
  lemma SettledUnderKey(w: World, s: State, key: string, r: Request)
    requires Inv(s) && Settle(w, s, key, r, false).1.Receipted?
    ensures var t := Settle(w, s, key, r, false).0;
      r.id in t.intents && t.intents[r.id].key == key && t.intents[r.id].request == r
  {
    if key in s.keys {
      KeyNames(s, key);
    }
    SettleCreates(w, s, key, r, false);
    hide Inv, Priced, Post;
  }

  lemma KeyNames(s: State, key: string)
    requires Inv(s) && key in s.keys
    ensures s.keys[key] in s.intents && s.intents[s.keys[key]].key == key && s.intents[s.keys[key]].request.id == s.keys[key]
  {
    hide Books, LegalHistory, CaseId, CaseGood;
    assert IntentGood(s, s.keys[key]);
  }

  lemma RetryIntents(w: World, s: State, id: string, c: Case, replacement: string)
    requires Inv(s) && id in s.cases && c.transaction in s.intents
    ensures var t := Retry(w, s, id, c, replacement).0; IntentsKeep(s, t) && RetriesFrom(s, t)
  {
    hide Inv, Close, Settle, RetryKey, IntentsKeep, RetriesFrom, RetryGood;
    var key, r := RetryKey(id, replacement), Renamed(s.intents[c.transaction].request, replacement);
    var (t, reply) := Settle(w, s, key, r, false);
    SettleIntents(w, s, key, r, false);
    CloseIntents(s, id, c, REQUIRES_REVIEW, OPEN, None);
    if !reply.Failed? {
      SettleCases(w, s, key, r);
      SettledUnderKey(w, s, key, r);
      CloseIntents(t, id, c, REPLACED, RESOLVED_RETRIED, Some(replacement));
      var u := Close(t, id, c, REPLACED, RESOLVED_RETRIED, Some(replacement)).0;
      IntentsKeepChain(s, t, u);
      RetryClosed(s, t, u, id, c, replacement);
    }
  }

  lemma RetryClosed(s: State, t: State, u: State, id: string, c: Case, replacement: string)
    requires IntentsKeep(s, t) && IntentsKeep(t, u) && t.cases == s.cases && c.transaction in s.intents
    requires replacement in t.intents && t.intents[replacement].key == RetryKey(id, replacement)
    requires t.intents[replacement].request == Renamed(s.intents[c.transaction].request, replacement)
    requires u == t || u.cases == t.cases[id := c.(status := RESOLVED_RETRIED, replacement := Some(replacement))]
    ensures RetriesFrom(s, u)
  {
    hide RetryKey;
  }

  lemma ApproveIntents(w: World, s: State, id: string, checker: string, approve: bool)
    requires Inv(s)
    ensures var t := Approve(w, s, id, checker, approve).0; IntentsKeep(s, t) && RetriesFrom(s, t)
  {
    hide Inv, Close, Retry, Checked, IntentsKeep, RetriesFrom;
    SameIntents(s, s);
    if id in s.cases && s.cases[id].rounds != [] && s.cases[id].transaction in s.intents {
      var c := s.cases[id];
      CheckedTransaction(c, checker);
      var d := Checked(c, checker);
      CloseIntents(s, id, d, REQUIRES_REVIEW, OPEN, None);
      CloseIntents(s, id, d, CANCELLED, RESOLVED_CANCELLED, None);
      RetryIntents(w, s, id, d, c.rounds[|c.rounds| - 1].replacement);
    }
  }

  lemma CheckedTransaction(c: Case, checker: string)
    requires c.rounds != []
    ensures Checked(c, checker).transaction == c.transaction
  {
  }

  lemma StepIntents(s: State, e: Event)
    requires Inv(s)
    ensures IntentsKeep(s, Step(s, e).0) && RetriesFrom(s, Step(s, e).0)
  {
    hide Inv, Settle, Propose, Approve, IntentsKeep, RetriesFrom;
    match e.action
    case DoSettle(key, r, registerFailure) =>
      SameIntents(s, s);
      SettleIntents(e.world, s, key, r, registerFailure);
    case DoPropose(id, maker, retry, replacement) => ProposeIntents(s, id, maker, retry, replacement);
    case DoApprove(id, checker, approve) => ApproveIntents(e.world, s, id, checker, approve);
    case _ => SameIntents(s, Step(s, e).0);
  }

  lemma {:induction false} RunRetries(events: seq<Event>)
    ensures RetriesGood(Run(events))
  {
    hide Inv, Step, RetryGood;
    if events != [] {
      var front := events[..|events| - 1];
      RunRetries(front);
      RunKeeps(front);
      StepIntents(Run(front), events[|events| - 1]);
      RetriesStay(Run(front), Run(events));
    }
  }

  // ----- replays -----

  lemma AnsweredStays(s: State, t: State, key: string, r: Request, receipt: Receipt)
    requires Answered(s, key, r, receipt) && IntentsKeep(s, t)
    ensures Answered(t, key, r, receipt)
  {
  }

  lemma AnsweredReplays(w: World, s: State, key: string, r: Request, registerFailure: bool, receipt: Receipt)
    requires Answered(s, key, r, receipt)
    ensures Settle(w, s, key, r, registerFailure) == (s, Receipted(receipt))
  {
    hide Priced, Post, Review;
  }

  /**
   Once a settlement or a simulated register failure has its receipt, the same request
   under its key gets that receipt again and changes nothing, after any further
   transactions, in any world, and even when it is repeated as the other kind of call.
   */
  lemma ReplayReturnsTheFirstReceipt(before: seq<Event>, w: World, key: string, r: Request, registerFailure: bool,
      later: seq<Event>, again: World, asFailure: bool)
    requires registerFailure ==> r.TransferRequest?
    requires Settle(w, Run(before), key, r, registerFailure).1.Receipted?
    ensures var s := Run(before + [Event(w, DoSettle(key, r, registerFailure))] + later);
      Settle(again, s, key, r, asFailure) == (s, Settle(w, Run(before), key, r, registerFailure).1)
  {
    hide Settle, Run, Answered, Inv;
    var reply := Settle(w, Run(before), key, r, registerFailure).1;
    AnsweredAfter(before, w, key, r, registerFailure, later);
    AnsweredReplays(again, Run(before + [Event(w, DoSettle(key, r, registerFailure))] + later), key, r, asFailure, reply.receipt);
  }

  lemma {:induction false} AnsweredAfter(before: seq<Event>, w: World, key: string, r: Request, registerFailure: bool, later: seq<Event>)
    requires registerFailure ==> r.TransferRequest?
    requires Settle(w, Run(before), key, r, registerFailure).1.Receipted?
    ensures var reply := Settle(w, Run(before), key, r, registerFailure).1;
      Answered(Run(before + [Event(w, DoSettle(key, r, registerFailure))] + later), key, r, reply.receipt)
    decreases |later|
  {
    hide Settle, Answered, Inv;
    var first := before + [Event(w, DoSettle(key, r, registerFailure))];
    if later == [] {
      RunKeeps(before);
      SettleCreates(w, Run(before), key, r, registerFailure);
      assert first + later == first && first[..|before|] == before;
    } else {
      var front, last := later[..|later| - 1], later[|later| - 1];
      AnsweredAfter(before, w, key, r, registerFailure, front);
      assert (first + later)[..|first + later| - 1] == first + front && (first + later)[|first + later| - 1] == last;
      hide Step;
      RunKeeps(first + front);
      StepIntents(Run(first + front), last);
      AnsweredStays(Run(first + front), Run(first + later), key, r, Settle(w, Run(before), key, r, registerFailure).1.receipt);
    }
  }

  // ----- which replacements are settled -----

  /** The key's transaction is for this request and was never settled. */
  predicate Unsettled(s: State, key: string, r: Request) {
    key in s.keys && s.keys[key] in s.intents && s.intents[s.keys[key]].request == r
    && s.intents[s.keys[key]].receipt.Some? && s.intents[s.keys[key]].receipt.value.state != SETTLED
  }

  /** A call that simulates this register failure under a key not used before. */
  predicate SimulatesFirst(s: State, e: Event, key: string, r: Request) {
    e.action == DoSettle(key, r, true) && key !in s.keys && Step(s, e).1.Receipted?
  }

  ghost predicate SimulatedBefore(events: seq<Event>, key: string, r: Request) {
    exists i :: 0 <= i < |events| && SimulatesFirst(Run(events[..i]), events[i], key, r)
  }

  lemma SettleUnsettledIff(w: World, s: State, k: string, q: Request, registerFailure: bool, key: string, r: Request)
    requires Inv(s)
    ensures var (t, reply) := Settle(w, s, k, q, registerFailure);
      Unsettled(t, key, r) <==> Unsettled(s, key, r) || (registerFailure && k == key && q == r && key !in s.keys && reply.Receipted?)
  {
    SettleCreates(w, s, k, q, registerFailure);
    KeysKnown(s);
    var t := Settle(w, s, k, q, registerFailure).0;
    hide Inv, Settle, Creates, Unsettled;
    if Creates(s, t, k, q, registerFailure) {
      assert k !in s.keys by {
        CreatedFresh(s, t, k, q, registerFailure);
      }
      CreatedUnsettled(s, t, k, q, registerFailure, key, r);
    }
  }

  lemma CreatedFresh(s: State, t: State, key: string, r: Request, registerFailure: bool)
    requires Creates(s, t, key, r, registerFailure)
    ensures key !in s.keys
  {
    hide CaseId;
  }

  /** Steps that only move existing transactions store nothing new under any key. */
  lemma KeptUnsettled(s: State, t: State, key: string, r: Request)
    requires Inv(s) && IntentsKeep(s, t) && t.keys == s.keys
    ensures Unsettled(t, key, r) == Unsettled(s, key, r)
  {
    KeysKnown(s);
    hide Inv;
  }

  lemma CloseKeys(s: State, id: string, c: Case, to: TxState, status: CaseStatus, replacement: Option<string>)
    requires c.transaction in s.intents
    ensures Close(s, id, c, to, status, replacement).0.keys == s.keys
  {
  }

  lemma ApproveUnsettled(w: World, s: State, id: string, checker: string, approve: bool, key: string, r: Request)
    requires Inv(s)
    ensures Unsettled(Approve(w, s, id, checker, approve).0, key, r) == Unsettled(s, key, r)
  {
    hide Inv, Close, Settle, Checked, RetryKey, Unsettled, IntentsKeep, RetriesFrom;
    if id in s.cases && s.cases[id].rounds != [] && s.cases[id].transaction in s.intents {
      var c := s.cases[id];
      CheckedTransaction(c, checker);
      var d, replacement := Checked(c, checker), c.rounds[|c.rounds| - 1].replacement;
      CloseUnsettled(s, id, d, REQUIRES_REVIEW, OPEN, None, key, r);
      CloseUnsettled(s, id, d, CANCELLED, RESOLVED_CANCELLED, None, key, r);
      var k, q := RetryKey(id, replacement), Renamed(s.intents[c.transaction].request, replacement);
      SettleUnsettledIff(w, s, k, q, false, key, r);
      SettleKeeps(w, s, k, q, false);
      SettleCases(w, s, k, q);
      CloseUnsettled(Settle(w, s, k, q, false).0, id, d, REPLACED, RESOLVED_RETRIED, Some(replacement), key, r);
    }
  }

  lemma CloseUnsettled(s: State, id: string, c: Case, to: TxState, status: CaseStatus, replacement: Option<string>, key: string, r: Request)
    requires Inv(s) && c.transaction in s.intents && id in s.cases
    ensures Unsettled(Close(s, id, c, to, status, replacement).0, key, r) == Unsettled(s, key, r)
  {
    hide Inv, Close, Unsettled, IntentsKeep, RetriesFrom;
    CloseIntents(s, id, c, to, status, replacement);
    CloseKeys(s, id, c, to, status, replacement);
    KeptUnsettled(s, Close(s, id, c, to, status, replacement).0, key, r);
  }

  lemma StepUnsettledIff(s: State, e: Event, key: string, r: Request)
    requires Inv(s)
    ensures Unsettled(Step(s, e).0, key, r) <==> Unsettled(s, key, r) || SimulatesFirst(s, e, key, r)
  {
    hide Inv, Settle, Propose, Approve, Opening, Unsettled;
    match e.action
    case DoSettle(k, q, registerFailure) => SettleUnsettledIff(e.world, s, k, q, registerFailure, key, r);
    case DoApprove(id, checker, approve) => ApproveUnsettled(e.world, s, id, checker, approve, key, r);
    case DoPropose(id, maker, retry, replacement) => ProposeUnsettled(s, id, maker, retry, replacement, key, r);
    case Open(product, owner, amount) =>
      OpeningKeys(s, product, owner, amount);
      SameUnsettled(s, Step(s, e).0, key, r);
    case _ => SameUnsettled(s, Step(s, e).0, key, r);
  }

  lemma SameUnsettled(s: State, t: State, key: string, r: Request)
    requires t.keys == s.keys && t.intents == s.intents
    ensures Unsettled(t, key, r) == Unsettled(s, key, r)
  {
  }

  lemma ProposeUnsettled(s: State, id: string, maker: string, retry: bool, replacement: string, key: string, r: Request)
    requires Inv(s)
    ensures Unsettled(Propose(s, id, maker, retry, replacement).0, key, r) == Unsettled(s, key, r)
  {
    ProposeIntents(s, id, maker, retry, replacement);
    ProposeKeys(s, id, maker, retry, replacement);
    KeptUnsettled(s, Propose(s, id, maker, retry, replacement).0, key, r);
  }

  lemma ProposeKeys(s: State, id: string, maker: string, retry: bool, replacement: string)
    ensures Propose(s, id, maker, retry, replacement).0.keys == s.keys
  {
  }

  lemma OpeningKeys(s: State, product: string, owner: string, amount: int)
    ensures var t := Opening(s, product, owner, amount).0; t.keys == s.keys && t.intents == s.intents
  {
    hide Append;
  }

  lemma {:induction false} UnsettledIff(events: seq<Event>, key: string, r: Request)
    ensures Unsettled(Run(events), key, r) <==> SimulatedBefore(events, key, r)
  {
    if events != [] {
      hide Step, SimulatesFirst, SimulatedBefore, Inv;
      var m := |events| - 1;
      UnsettledIff(events[..m], key, r);
      RunKeeps(events[..m]);
      StepUnsettledIff(Run(events[..m]), events[m], key, r);
      SimulatedSplits(events, key, r);
    }
  }

  lemma SimulatedSplits(events: seq<Event>, key: string, r: Request)
    requires events != []
    ensures var m := |events| - 1;
      SimulatedBefore(events, key, r) <==> SimulatedBefore(events[..m], key, r) || SimulatesFirst(Run(events[..m]), events[m], key, r)
  {
    hide Run, SimulatesFirst;
    var m := |events| - 1;
    var front := events[..m];
    if SimulatedBefore(front, key, r) {
      var i :| 0 <= i < m && SimulatesFirst(Run(front[..i]), front[i], key, r);
      assert front[..i] == events[..i] && SimulatesFirst(Run(events[..i]), events[i], key, r);
    }
    if SimulatedBefore(events, key, r) && !SimulatesFirst(Run(front), events[m], key, r) {
      var i :| 0 <= i < |events| && SimulatesFirst(Run(events[..i]), events[i], key, r);
      assert i < m && front[..i] == events[..i] && SimulatesFirst(Run(front[..i]), front[i], key, r);
    }
  }

  /** Equal retry keys for one replacement name one case. */
  lemma RetryKeyInjective(a: string, b: string, replacement: string)
    requires RetryKey(a, replacement) == RetryKey(b, replacement)
    ensures a == b
  {
    assert forall id :: RetryKey(id, replacement)[16..] == id + (":" + replacement);
    assert a == RetryKey(a, replacement)[16..][..|a|] && b == RetryKey(b, replacement)[16..][..|b|];
  }

  /**
   In every run, retried cases name pairwise distinct replacements made for the original
   request, and a replacement is settled exactly when no register failure was first
   simulated for that request under the case's retry key.
   */
  lemma RetriedReplacements(events: seq<Event>, a: string, b: string)
    requires a in Run(events).cases && Run(events).cases[a].status == RESOLVED_RETRIED
    ensures var s := Run(events); var c := s.cases[a];
      && c.replacement.Some? && c.transaction in s.intents && c.replacement.value in s.intents
      && var r := c.replacement.value; var request := Renamed(s.intents[c.transaction].request, r);
        && s.intents[r].request == request
        && (s.intents[r].state == SETTLED <==> !SimulatedBefore(events, RetryKey(a, r), request))
        && (b in s.cases && s.cases[b].status == RESOLVED_RETRIED && s.cases[b].replacement == c.replacement ==> a == b)
  {
    RunKeeps(events);
    RunRetries(events);
    hide Run, SimulatedBefore;
    var s := Run(events);
    assert Retried(s, a) && RetryGood(s, a);
    var r := s.cases[a].replacement.value;
    UnsettledIff(events, RetryKey(a, r), s.intents[r].request);
    ReplacementState(s, r);
    hide RetryKey, Inv;
    if b in s.cases && s.cases[b].status == RESOLVED_RETRIED && s.cases[b].replacement == s.cases[a].replacement {
      assert Retried(s, b) && RetryGood(s, b);
      RetryKeyInjective(a, b, r);
    }
  }

  lemma ReplacementState(s: State, x: string)
    requires Inv(s) && x in s.intents
    ensures s.intents[x].key in s.keys && s.keys[s.intents[x].key] == x && s.intents[x].receipt.Some?
      && (s.intents[x].state == SETTLED <==> s.intents[x].receipt.value.state == SETTLED)
  {
    hide Books, LegalHistory, CaseId, CaseGood;
    assert IntentGood(s, x);
  }

  // ----- holding limits -----

  predicate Covers(c: Credential, product: string, owner: string, units: int) {
    c.product == product && c.subject == owner && units <= c.maxUnits
  }

  /** The owner's register holding is within the limit of one of its credentials for the product. */
  ghost predicate CoveredHolding(s: State, product: string, owner: string) {
    Balance(s.register, InvestorUnits(product, owner)) > 0 ==>
      exists c :: c in s.credentials && Covers(s.credentials[c], product, owner, Balance(s.register, InvestorUnits(product, owner)))
  }

  ghost predicate Covered(s: State) {
    forall product, owner :: CoveredHolding(s, product, owner)
  }

  lemma CredentialCovers(w: World, s: State, p: Product, product: string, subject: string, credential: string, more: int)
    requires CredentialError(w, s, p, product, subject, credential, more, false).None? && more > 0
    ensures credential in s.credentials
    ensures Covers(s.credentials[credential], product, subject, Balance(s.register, InvestorUnits(product, subject)) + more)
  {
    hide Balance;
  }

  /** Units reach an investor only within a limit the request was checked against. */
  lemma UnitsAreCovered(w: World, s: State, r: Request, p: Product, nav: int, product: string, owner: string)
    requires KindError(w, s, r, p, nav).None? && r.units > 0 && UnitDelta(r, InvestorUnits(product, owner)) > 0
    ensures exists c :: c in s.credentials && Covers(s.credentials[c], product, owner,
      Balance(s.register, InvestorUnits(product, owner)) + UnitDelta(r, InvestorUnits(product, owner)))
  {
    hide CredentialError, Balance, Abs;
    match r {
      case SubscribeRequest(_, _, investor, credential, units, _) =>
        CredentialCovers(w, s, p, r.product, investor, credential, units);
      case TransferRequest(_, _, _, _, buyer, buyerCredential, units, _, _, _) =>
        CredentialCovers(w, s, p, r.product, buyer, buyerCredential, units);
      case RedeemRequest(_, _, _, _, _) =>
    }
  }

  lemma PostCovers(w: World, s: State, r: Request, p: Product, nav: int, t: State)
    requires Covered(s) && KindError(w, s, r, p, nav).None? && r.units > 0
    requires t.register == s.register + [RegisterBatch(r)] && t.credentials == s.credentials
    ensures Covered(t)
  {
    UnitSums(r);
    hide KindError, UnitEntries, Sum, Total, UnitDelta;
    forall product, owner ensures CoveredHolding(t, product, owner) {
      var a := InvestorUnits(product, owner);
      TotalMore(s.register, RegisterBatch(r), OfAccount(a));
      assert Balance(t.register, a) == Balance(s.register, a) + UnitDelta(r, a);
      assert CoveredHolding(s, product, owner);
      if UnitDelta(r, a) > 0 {
        UnitsAreCovered(w, s, r, p, nav, product, owner);
      } else {
        StaysCovered(s, t, product, owner);
      }
    }
  }

  lemma StaysCovered(s: State, t: State, product: string, owner: string)
    requires CoveredHolding(s, product, owner)
    requires Balance(t.register, InvestorUnits(product, owner)) <= Balance(s.register, InvestorUnits(product, owner))
    requires forall c :: c in s.credentials ==> c in t.credentials && t.credentials[c] == s.credentials[c].(restricted := t.credentials[c].restricted)
    ensures CoveredHolding(t, product, owner)
  {
    hide Balance;
    var a := InvestorUnits(product, owner);
    if Balance(t.register, a) > 0 {
      var c :| c in s.credentials && Covers(s.credentials[c], product, owner, Balance(s.register, a));
      assert Covers(t.credentials[c], product, owner, Balance(t.register, a));
    }
  }

  lemma SettleCovers(w: World, s: State, key: string, r: Request, registerFailure: bool)
    requires Inv(s) && Covered(s)
    ensures Covered(Settle(w, s, key, r, registerFailure).0)
  {
    hide Covered;
    var (t, reply) := Settle(w, s, key, r, registerFailure);
    SettledRegister(w, s, key, r, registerFailure);
    if t.register == s.register {
      SameRegister(s, t);
    } else {
      PricedFacts(w, s, r);
      hide Settle, Priced, KindError, Inv, RegisterBatch;
      PostCovers(w, s, r, s.products[r.product], Priced(w, s, r).value, t);
    }
  }

  lemma SettledRegister(w: World, s: State, key: string, r: Request, registerFailure: bool)
    ensures var t := Settle(w, s, key, r, registerFailure).0;
      && t.credentials == s.credentials
      && (t.register == s.register || (Priced(w, s, r).Ok? && t.register == s.register + [RegisterBatch(r)]))
  {
    hide Priced, BatchError, LedgerBatch, RegisterBatch, RestrictedExit, CaseId;
  }

  lemma SameRegister(s: State, t: State)
    requires Covered(s) && t.register == s.register
    requires forall c :: c in s.credentials ==> c in t.credentials && t.credentials[c] == s.credentials[c].(restricted := t.credentials[c].restricted)
    ensures Covered(t)
  {
    hide CoveredHolding;
    forall product, owner ensures CoveredHolding(t, product, owner) {
      assert CoveredHolding(s, product, owner);
      StaysCovered(s, t, product, owner);
    }
  }

  lemma ApproveCovers(w: World, s: State, id: string, checker: string, approve: bool)
    requires Inv(s) && Covered(s)
    ensures Covered(Approve(w, s, id, checker, approve).0)
  {
    hide Inv, Close, Settle, Checked, RetryKey, Covered;
    if id in s.cases && s.cases[id].rounds != [] && s.cases[id].transaction in s.intents {
      var c := s.cases[id];
      CheckedTransaction(c, checker);
      var d, replacement := Checked(c, checker), c.rounds[|c.rounds| - 1].replacement;
      CloseCovers(s, id, d, REQUIRES_REVIEW, OPEN, None);
      CloseCovers(s, id, d, CANCELLED, RESOLVED_CANCELLED, None);
      var k, q := RetryKey(id, replacement), Renamed(s.intents[c.transaction].request, replacement);
      SettleCovers(w, s, k, q, false);
      CloseCovers(Settle(w, s, k, q, false).0, id, d, REPLACED, RESOLVED_RETRIED, Some(replacement));
    }
  }

  lemma CloseCovers(s: State, id: string, c: Case, to: TxState, status: CaseStatus, replacement: Option<string>)
    requires Covered(s) && c.transaction in s.intents
    ensures Covered(Close(s, id, c, to, status, replacement).0)
  {
    hide Covered;
    SameRegister(s, Close(s, id, c, to, status, replacement).0);
  }

  lemma StepCovers(s: State, e: Event)
    requires Inv(s) && Covered(s)
    ensures Covered(Step(s, e).0)
  {
    hide Inv, Settle, Propose, Approve, Opening, Covered;
    match e.action
    case DoSettle(key, r, registerFailure) => SettleCovers(e.world, s, key, r, registerFailure);
    case DoApprove(id, checker, approve) => ApproveCovers(e.world, s, id, checker, approve);
    case DoPropose(id, maker, retry, replacement) =>
      ProposeRegister(s, id, maker, retry, replacement);
      SameRegister(s, Step(s, e).0);
    case Open(product, owner, amount) =>
      OpeningRegister(s, product, owner, amount);
      SameRegister(s, Step(s, e).0);
    case _ => SameRegister(s, Step(s, e).0);
  }

  lemma ProposeRegister(s: State, id: string, maker: string, retry: bool, replacement: string)
    ensures var t := Propose(s, id, maker, retry, replacement).0; t.register == s.register && t.credentials == s.credentials
  {
  }

  lemma OpeningRegister(s: State, product: string, owner: string, amount: int)
    ensures var t := Opening(s, product, owner, amount).0; t.register == s.register && t.credentials == s.credentials
  {
    hide Append;
  }

  /** In every run each positive holding in the register is within the limit of a credential of that investor for that product. */
  lemma {:induction false} HoldingsAreCovered(events: seq<Event>)
    ensures Covered(Run(events))
  {
    hide Inv, Step, CoveredHolding;
    if events == [] {
      NothingHeld();
    } else {
      var front := events[..|events| - 1];
      HoldingsAreCovered(front);
      RunKeeps(front);
      StepCovers(Run(front), events[|events| - 1]);
    }
  }

  lemma NothingHeld()
    ensures Covered(INITIAL)
  {
  }

  // ----- leaving -----

  /** A redemption that everything but the credential's window and status allows. */
  ghost predicate Redeemable(w: World, s: State, key: string, r: Request) {
    && r.RedeemRequest? && key !in s.keys && r.id !in s.intents && w.cashProvider && r.units > 0
    && r.product in s.products && s.products[r.product].active
    && BestNav(s.navs, |s.navs|, r.product, w.now).Some?
    && var p, nav := s.products[r.product], s.navs[BestNav(s.navs, |s.navs|, r.product, w.now).value];
      && nav.currency == p.currency && nav.value > 0
      && r.units <= Balance(s.ledger, InvestorUnits(r.product, r.investor))
      && r.units * nav.value <= Balance(s.ledger, IssuerCash(r.product, p.issuer, p.currency))
      && {IssuerCash(r.product, p.issuer, p.currency), InvestorCash(r.product, r.investor, p.currency), InvestorUnits(r.product, r.investor), Treasury(r.product)}
        <= s.accounts
      && {InvestorUnits(r.product, r.investor), Treasury(r.product)} <= s.registerAccounts
      && r.credential in s.credentials
      && var c := s.credentials[r.credential];
        c.product == r.product && c.subject == r.investor && c.investorClass in p.classes && c.jurisdiction in p.jurisdictions
  }

  /**
   A restricted credential redeems like any other, as a restricted exit, but only inside
   its window: here, unlike in the in-memory engine, one that has expired leaves its
   holder no way out, revoked or not, and nothing is written.
   */
  lemma ExitIff(w: World, s: State, key: string, r: Request)
    requires Redeemable(w, s, key, r)
    ensures var (t, reply) := Settle(w, s, key, r, false); var c := s.credentials[r.credential];
      if c.validFrom <= w.now < c.validUntil then
        && reply == Receipted(Receipt(r.id, SETTLED, c.restricted))
        && Balance(t.register, InvestorUnits(r.product, r.investor)) == Balance(s.register, InvestorUnits(r.product, r.investor)) - r.units
      else t == s && reply == Failed("CREDENTIAL_TIME")
  {
    var p, nav := s.products[r.product], s.navs[BestNav(s.navs, |s.navs|, r.product, w.now).value].value;
    RedeemPriced(w, s, key, r);
    var c := s.credentials[r.credential];
    if c.validFrom <= w.now < c.validUntil {
      BatchesAccepted(r, p, nav);
      RedemptionAccounts(r, p, nav);
      RedemptionRegister(s, r);
      hide Priced, BatchError, Balance, CashEntries, UnitEntries, AccountsOf, BestNav;
    } else {
      hide Priced, BatchError, Balance, CashEntries, UnitEntries, AccountsOf, BestNav;
    }
  }

  lemma RedeemPriced(w: World, s: State, key: string, r: Request)
    requires Redeemable(w, s, key, r)
    ensures var nav := s.navs[BestNav(s.navs, |s.navs|, r.product, w.now).value].value; var c := s.credentials[r.credential];
      Priced(w, s, r) == if c.validFrom <= w.now < c.validUntil then Ok(nav) else Err("CREDENTIAL_TIME")
  {
    hide Balance, BestNav;
  }

  lemma BatchesAccepted(r: Request, p: Product, nav: int)
    requires r.RedeemRequest? && r.units > 0 && nav > 0
    ensures BatchError(LedgerBatch(r, p, nav).entries).None? && BatchError(RegisterBatch(r).entries).None?
  {
    Positive(r.units, nav);
    PostedSums(r, p, nav);
    CashSums(r, p, nav);
    UnitSums(r);
    AcceptedMeansBalanced(LedgerBatch(r, p, nav).entries);
    AcceptedMeansBalanced(RegisterBatch(r).entries);
    hide Sum, BatchError;
  }

  lemma RedemptionAccounts(r: Request, p: Product, nav: int)
    requires r.RedeemRequest?
    ensures AccountsOf(LedgerBatch(r, p, nav).entries)
      == {IssuerCash(r.product, p.issuer, p.currency), InvestorCash(r.product, r.investor, p.currency), InvestorUnits(r.product, r.investor), Treasury(r.product)}
    ensures AccountsOf(RegisterBatch(r).entries) == {InvestorUnits(r.product, r.investor), Treasury(r.product)}
  {
    var l, g := LedgerBatch(r, p, nav).entries, RegisterBatch(r).entries;
    assert |l| == 4 && |g| == 2;
    assert AccountsOf(l) == {l[0].account, l[1].account, l[2].account, l[3].account};
    assert AccountsOf(g) == {g[0].account, g[1].account};
  }

  lemma RedemptionRegister(s: State, r: Request)
    requires r.RedeemRequest?
    ensures var a := InvestorUnits(r.product, r.investor);
      Balance(s.register + [RegisterBatch(r)], a) == Balance(s.register, a) - r.units
  {
    var a := InvestorUnits(r.product, r.investor);
    UnitSums(r);
    TotalMore(s.register, RegisterBatch(r), OfAccount(a));
    hide Sum, Total;
  }
}
