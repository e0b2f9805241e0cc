/** How cases of the durable workflow come to be and move, and the two calls behind every resolved one. */
module DurableWorkflowDecisions {
  import opened Common
  import opened Ledger
  import opened DurableWorkflow
  import opened DurableWorkflowSafety
  import opened DurableWorkflowRetries

  /** A simulated register failure opens a case for its transaction. */
  predicate Opens(e: Event, id: string, c: Case) {
    e.action.DoSettle? && e.action.registerFailure && e.action.request.TransferRequest? && id == CaseId(e.action.request.id)
    && c == Case(e.action.request.id, OPEN, [], None)
  }

  /** A maker opens a new round on an open case, naming a replacement exactly for a retry. */
  predicate Proposes(e: Event, id: string, before: Case, after: Case) {
    && e.action.DoPropose? && e.action.id == id && before.status == OPEN && (e.action.retry <==> e.action.replacement != "")
    && after == before.(status := PENDING, rounds := before.rounds + [Round(e.action.maker, e.action.retry, e.action.replacement, None)])
  }

  /** The round a pending case waits on, as the checker's decision leaves it. */
  function Signed(c: Case, checker: string): seq<Round>
    requires c.rounds != []
  {
    var n := |c.rounds| - 1;
    c.rounds[..n] + [c.rounds[n].(checker := Some(checker))]
  }

  /** Someone other than the round's maker decides it: a rejection or a blocked retry opens the case again. */
  predicate Decides(e: Event, id: string, before: Case, after: Case) {
    && e.action.DoApprove? && e.action.id == id && before.status == PENDING && before.rounds != []
    && var round := before.rounds[|before.rounds| - 1];
      && e.action.checker != round.maker && after.transaction == before.transaction && after.rounds == Signed(before, e.action.checker)
      && (!e.action.approve ==> after.status == OPEN && after.replacement == None)
      && (e.action.approve && !round.retry ==> after.status == RESOLVED_CANCELLED && after.replacement == None)
      && (e.action.approve && round.retry ==>
        (after.status == OPEN && after.replacement == None) || (after.status == RESOLVED_RETRIED && after.replacement == Some(round.replacement)))
  }

  predicate CaseStep(s: State, e: Event, t: State, id: string)
    requires id in t.cases
  {
    if id !in s.cases then Opens(e, id, t.cases[id])
    else t.cases[id] == s.cases[id] || Proposes(e, id, s.cases[id], t.cases[id]) || Decides(e, id, s.cases[id], t.cases[id])
  }

  lemma SettleOpens(w: World, s: State, key: string, r: Request, registerFailure: bool, id: string)
    requires Inv(s) && (registerFailure ==> r.TransferRequest?) && id in Settle(w, s, key, r, registerFailure).0.cases
    ensures CaseStep(s, Event(w, DoSettle(key, r, registerFailure)), Settle(w, s, key, r, registerFailure).0, id)
  {
    SettleCreates(w, s, key, r, registerFailure);
    if r.id !in s.intents {
      FreshCase(s, r.id);
    }
    hide Inv, Settle, CaseId, Answered;
  }

  lemma FreshCase(s: State, x: string)
    requires Inv(s) && x !in s.intents
    ensures CaseId(x) !in s.cases
  {
    hide Books, CaseGood, IntentGood, CaseId;
    CasesElsewhere(s, x);
  }

  lemma CloseWrites(s: State, id: string, c: Case, to: TxState, status: CaseStatus, replacement: Option<string>)
    requires c.transaction in s.intents
    ensures var t := Close(s, id, c, to, status, replacement).0; t.cases == s.cases || t.cases == s.cases[id := c.(status := status, replacement := replacement)]
  {
  }

  lemma CheckedIsSigned(c: Case, checker: string)
    requires c.rounds != []
    ensures Checked(c, checker) == c.(rounds := Signed(c, checker))
  {
  }

  lemma RetryWrites(w: World, s: State, id: string, c: Case, replacement: string)
    requires c.transaction in s.intents
    ensures var t := Retry(w, s, id, c, replacement).0;
      || t.cases == s.cases || t.cases == s.cases[id := c.(status := OPEN, replacement := None)]
      || t.cases == s.cases[id := c.(status := RESOLVED_RETRIED, replacement := Some(replacement))]
  {
    hide Close, Settle, RetryKey;
    var key, r := RetryKey(id, replacement), Renamed(s.intents[c.transaction].request, replacement);
    SettleCases(w, s, key, r);
    CloseWrites(s, id, c, REQUIRES_REVIEW, OPEN, None);
    CloseWrites(Settle(w, s, key, r, false).0, id, c, REPLACED, RESOLVED_RETRIED, Some(replacement));
  }

  lemma ApproveDecides(w: World, s: State, id: string, checker: string, approve: bool, x: string)
    requires x in Approve(w, s, id, checker, approve).0.cases
    ensures CaseStep(s, Event(w, DoApprove(id, checker, approve)), Approve(w, s, id, checker, approve).0, x)
  {
    hide Close, Retry, Checked, Signed;
    if id in s.cases && s.cases[id].rounds != [] && s.cases[id].transaction in s.intents {
      var c := s.cases[id];
      CheckedTransaction(c, checker);
      CheckedIsSigned(c, checker);
      var d := Checked(c, checker);
      CloseWrites(s, id, d, REQUIRES_REVIEW, OPEN, None);
      CloseWrites(s, id, d, CANCELLED, RESOLVED_CANCELLED, None);
      RetryWrites(w, s, id, d, c.rounds[|c.rounds| - 1].replacement);
    }
  }

  lemma ProposeOpensRound(w: World, s: State, id: string, maker: string, retry: bool, replacement: string, x: string)
    requires x in Propose(s, id, maker, retry, replacement).0.cases
    ensures CaseStep(s, Event(w, DoPropose(id, maker, retry, replacement)), Propose(s, id, maker, retry, replacement).0, x)
  {
    hide Transition;
  }

  lemma OpeningKeepsCases(s: State, product: string, owner: string, amount: int)
    ensures Opening(s, product, owner, amount).0.cases == s.cases
  {
    hide Append;
  }

  /** Every way a case comes to be and moves. */
  lemma CasesMove(s: State, e: Event, id: string)
    requires Inv(s) && id in Step(s, e).0.cases
    ensures CaseStep(s, e, Step(s, e).0, id)
  {
    hide Inv, Settle, Propose, Approve, Opening, Opens, Proposes, Decides;
    match e.action
    case DoSettle(key, r, registerFailure) =>
      if !registerFailure || r.TransferRequest? {
        SettleOpens(e.world, s, key, r, registerFailure, id);
      }
    case DoPropose(x, maker, retry, replacement) => ProposeOpensRound(e.world, s, x, maker, retry, replacement, id);
    case DoApprove(x, checker, approve) => ApproveDecides(e.world, s, x, checker, approve, id);
    case Open(product, owner, amount) => OpeningKeepsCases(s, product, owner, amount);
    case _ =>
  }

  // ----- two calls -----

  /** The call at position i opened round n of the case. */
  ghost predicate ProposedAt(events: seq<Event>, i: nat, id: string, n: nat, round: Round) {
    && i < |events| && events[i].action == DoPropose(id, round.maker, round.retry, round.replacement)
    && id in Run(events[..i]).cases && |Run(events[..i]).cases[id].rounds| == n && Run(events[..i]).cases[id].status == OPEN
  }

  /** The call at position j decided it, as given, while it was pending. */
  ghost predicate DecidedAt(events: seq<Event>, j: nat, id: string, n: nat, round: Round, approve: bool) {
    && j < |events| && round.checker.Some? && round.checker.value != round.maker && events[j].action == DoApprove(id, round.checker.value, approve)
    && id in Run(events[..j]).cases && Run(events[..j]).cases[id].status == PENDING
    && |Run(events[..j]).cases[id].rounds| == n + 1 && Run(events[..j]).cases[id].rounds[n] == round.(checker := None)
  }

  lemma {:induction false} RoundProposed(events: seq<Event>, id: string, n: nat)
    requires id in Run(events).cases && n < |Run(events).cases[id].rounds|
    ensures exists i: nat :: ProposedAt(events, i, id, n, Run(events).cases[id].rounds[n])
  {
    hide Step, Inv;
    var m := |events| - 1;
    var front := events[..m];
    RunKeeps(front);
    CasesMove(Run(front), events[m], id);
    var round := Run(events).cases[id].rounds[n];
    if id in Run(front).cases && n < |Run(front).cases[id].rounds| {
      RoundProposed(front, id, n);
      var i: nat :| ProposedAt(front, i, id, n, Run(front).cases[id].rounds[n]);
      assert front[..i] == events[..i];
      assert ProposedAt(events, i, id, n, round);
    } else {
      assert ProposedAt(events, m, id, n, round);
    }
  }

  /** The verdict a decided round ended with. */
  ghost predicate DecidedSomewhere(events: seq<Event>, id: string, n: nat, round: Round) {
    exists j: nat, approve: bool :: DecidedAt(events, j, id, n, round, approve)
  }

  lemma {:induction false} RoundDecided(events: seq<Event>, id: string, n: nat)
    requires id in Run(events).cases && n < |Run(events).cases[id].rounds| && Run(events).cases[id].rounds[n].checker.Some?
    ensures DecidedSomewhere(events, id, n, Run(events).cases[id].rounds[n])
  {
    hide Step, Inv;
    var m := |events| - 1;
    var front := events[..m];
    RunKeeps(front);
    RoundsKept(Run(front), id);
    CasesMove(Run(front), events[m], id);
    var round := Run(events).cases[id].rounds[n];
    if id in Run(front).cases && n < |Run(front).cases[id].rounds| && Run(front).cases[id].rounds[n] == round {
      RoundDecided(front, id, n);
      var j: nat, approve: bool :| DecidedAt(front, j, id, n, round, approve);
      assert front[..j] == events[..j];
      assert DecidedAt(events, j, id, n, round, approve);
    } else {
      assert DecidedAt(events, m, id, n, round, events[m].action.approve);
    }
  }

  /** Every round but a pending case's last has its checker. */
  lemma RoundsKept(s: State, id: string)
    requires Inv(s)
    ensures id in s.cases ==>
      var c := s.cases[id];
      && (forall k :: 0 <= k < |c.rounds| - 1 ==> c.rounds[k].checker.Some?)
      && (c.rounds != [] ==> (c.rounds[|c.rounds| - 1].checker.None? <==> c.status == PENDING))
  {
    hide Books, IntentGood, CaseId;
    if id in s.cases {
      assert CaseGood(s, id);
    }
  }

  predicate Resolved(c: Case) {
    c.status == RESOLVED_CANCELLED || c.status == RESOLVED_RETRIED
  }

  /** The call at position j approved the case's last round. */
  ghost predicate ApprovedAt(events: seq<Event>, j: nat, id: string, c: Case) {
    c.rounds != [] && DecidedAt(events, j, id, |c.rounds| - 1, c.rounds[|c.rounds| - 1], true)
  }

  /** The last round of a resolved case was approved, and its kind is how the case ended. */
  lemma {:induction false} ResolvedAsApproved(events: seq<Event>, id: string)
    requires id in Run(events).cases && Resolved(Run(events).cases[id])
    ensures var c := Run(events).cases[id];
      && c.rounds != []
      && var round := c.rounds[|c.rounds| - 1];
        && (c.status == RESOLVED_RETRIED <==> round.retry) && (c.status == RESOLVED_RETRIED ==> c.replacement == Some(round.replacement))
        && exists j: nat :: ApprovedAt(events, j, id, c)
  {
    hide Step, Inv;
    var m := |events| - 1;
    var front := events[..m];
    RunKeeps(front);
    RoundsKept(Run(front), id);
    CasesMove(Run(front), events[m], id);
    var c := Run(events).cases[id];
    if id in Run(front).cases && Run(front).cases[id] == c {
      ResolvedAsApproved(front, id);
      var j: nat :| ApprovedAt(front, j, id, c);
      assert front[..j] == events[..j];
      assert ApprovedAt(events, j, id, c);
    } else {
      assert ApprovedAt(events, m, id, c);
    }
  }

  ghost predicate TwoCalls(events: seq<Event>, i: nat, j: nat, id: string, c: Case) {
    i < j && ApprovedAt(events, j, id, c) && ProposedAt(events, i, id, |c.rounds| - 1, c.rounds[|c.rounds| - 1])
  }

  /**
   In every run each resolved case goes back to two calls: the maker who opened its last
   round, whose kind says whether it was cancelled or retried and as what, and the later
   approval of a different person, each on record under the name it was made with.
   */
  lemma ResolvedByTwoCalls(events: seq<Event>, id: string)
    requires id in Run(events).cases && Resolved(Run(events).cases[id])
    ensures var c := Run(events).cases[id];
      && c.rounds != []
      && var round := c.rounds[|c.rounds| - 1];
        && (c.status == RESOLVED_RETRIED <==> round.retry) && (c.status == RESOLVED_RETRIED ==> c.replacement == Some(round.replacement))
        && exists i: nat, j: nat :: TwoCalls(events, i, j, id, c)
  {
    hide Run;
    ResolvedAsApproved(events, id);
    var c := Run(events).cases[id];
    var j: nat :| ApprovedAt(events, j, id, c);
    hide ApprovedAt, ProposedAt;
    var i := ProposedBefore(events, j, id, c);
    assert TwoCalls(events, i, j, id, c);
  }

  lemma ProposedBefore(events: seq<Event>, j: nat, id: string, c: Case) returns (i: nat)
    requires ApprovedAt(events, j, id, c)
    ensures c.rounds != [] && i < j && ProposedAt(events, i, id, |c.rounds| - 1, c.rounds[|c.rounds| - 1])
  {
    hide Run;
    var n := |c.rounds| - 1;
    RoundProposed(events[..j], id, n);
    i :| ProposedAt(events[..j], i, id, n, Run(events[..j]).cases[id].rounds[n]);
    assert events[..j][..i] == events[..i];
  }

  /** Every case stands for one simulated register failure of its transaction. */
  ghost predicate OpenedAt(events: seq<Event>, i: nat, id: string, c: Case) {
    i < |events| && events[i].action.DoSettle? && events[i].action.registerFailure && events[i].action.request.id == c.transaction
    && id == CaseId(c.transaction) && id !in Run(events[..i]).cases
  }

  lemma {:induction false} CaseOpened(events: seq<Event>, id: string)
    requires id in Run(events).cases
    ensures exists i: nat :: OpenedAt(events, i, id, Run(events).cases[id])
  {
    hide Step, Inv;
    var m := |events| - 1;
    var front := events[..m];
    RunKeeps(front);
    CasesMove(Run(front), events[m], id);
    if id in Run(front).cases {
      CaseOpened(front, id);
      var i: nat :| OpenedAt(front, i, id, Run(front).cases[id]);
      assert front[..i] == events[..i];
      assert OpenedAt(events, i, id, Run(events).cases[id]);
    } else {
      assert OpenedAt(events, m, id, Run(events).cases[id]);
    }
  }
}
