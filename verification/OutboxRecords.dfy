/** How long a claimed event stays its worker's, how long a failed one waits, and which calls the rows and requests of the outbox go back to. */
module OutboxRecords {
  import opened Common
  import opened Outbox

  // ----- leases and delays -----

  /** A claim holds each picked event for the worker until the lease time has passed, with one more attempt, and touches no other. */
  lemma ClaimLeases(sha: Sha, s: State, a: Action, n: nat)
    requires a.Claim? && n < |s.rows|
    ensures var t, row := Step(sha, s, a).0, s.rows[n];
      && |t.rows| == |s.rows|
      && (if n in Picks(s.rows, |s.rows|, a.scope, a.limit, a.now, a.locked) then
          t.rows[n] == Event(row.tenant, row.aggregate, row.payload, row.payloadHash, CLAIMED, row.attempts + 1, row.availableAt,
            Some(a.worker), a.now + a.leaseMs, row.replays)
          else t.rows[n] == row)
  {
    hide Picks, Tickets;
  }

  /** What may happen to a claimed event: its own worker marks it inside the lease, or someone claims it once the lease has passed. */
  predicate MayDisturb(s: State, a: Action, n: nat)
    requires n < |s.rows|
  {
    match a
    case Claim(_, _, _, _, now, _) => s.rows[n].leaseUntil <= now
    case MarkPublished(t, now) =>
      t < |s.tickets| && s.tickets[t].event == n && s.tickets[t].delivered && s.rows[n].claimedBy == Some(s.tickets[t].worker) && now < s.rows[n].leaseUntil
    case MarkFailed(t, _, _, now) =>
      t < |s.tickets| && s.tickets[t].event == n && s.rows[n].claimedBy == Some(s.tickets[t].worker) && now < s.rows[n].leaseUntil
    case _ => false
  }

  /** A claimed event stays its worker's until its lease has passed. */
  lemma LeaseHolds(sha: Sha, s: State, a: Action, n: nat)
    requires Inv(sha, s) && n < |s.rows| && s.rows[n].status == CLAIMED && !MayDisturb(s, a, n)
    ensures n < |Step(sha, s, a).0.rows| && Step(sha, s, a).0.rows[n] == s.rows[n]
  {
    hide Executions, Ready;
  }

  /** Until when a run leaves the event alone, every claim reading its clock before the lease's end and no mark coming from its worker. */
  ghost predicate Undisturbed(sha: Sha, actions: seq<Action>, more: seq<Action>, n: nat) {
    forall i :: 0 <= i < |more| ==>
      n < |Run(sha, actions + more[..i]).rows| && !MayDisturb(Run(sha, actions + more[..i]), more[i], n)
  }

  lemma UndisturbedFront(sha: Sha, actions: seq<Action>, more: seq<Action>, n: nat)
    requires more != [] && Undisturbed(sha, actions, more, n)
    ensures var m := |more| - 1;
      && Undisturbed(sha, actions, more[..m], n)
      && n < |Run(sha, actions + more[..m]).rows| && !MayDisturb(Run(sha, actions + more[..m]), more[m], n)
  {
    hide Run, MayDisturb;
    var m := |more| - 1;
    forall i | 0 <= i < m
      ensures n < |Run(sha, actions + more[..m][..i]).rows| && !MayDisturb(Run(sha, actions + more[..m][..i]), more[..m][i], n)
    {
      assert more[..m][..i] == more[..i];
    }
  }

  /** So over any continuation: no other worker, crash, replay or enqueue takes a claimed event before its lease has passed. */
  lemma {:induction false} LeaseHoldsThroughout(sha: Sha, actions: seq<Action>, more: seq<Action>, n: nat)
    requires n < |Run(sha, actions).rows| && Run(sha, actions).rows[n].status == CLAIMED && Undisturbed(sha, actions, more, n)
    ensures n < |Run(sha, actions + more).rows| && Run(sha, actions + more).rows[n] == Run(sha, actions).rows[n]
    decreases |more|
  {
    hide Step, Inv, MayDisturb;
    if more == [] {
      assert actions + more == actions;
    } else {
      var m := |more| - 1;
      var front, last := more[..m], more[m];
      UndisturbedFront(sha, actions, more, n);
      hide Undisturbed;
      LeaseHoldsThroughout(sha, actions, front, n);
      assert (actions + more)[..|actions + more| - 1] == actions + front && (actions + more)[|actions + more| - 1] == last;
      RunKeeps(sha, actions + front);
      LeaseHolds(sha, Run(sha, actions + front), last, n);
    }
  }

  /** A failure mark its guard accepts puts the event off by the delay, or ends it at the maximum, and gives it up either way. */
  lemma FailureOutcome(sha: Sha, s: State, t: nat, maxAttempts: nat, delay: int, now: int)
    requires t < |s.tickets| && s.tickets[t].event < |s.rows| && Owned(s.rows[s.tickets[t].event], s.tickets[t].worker, now)
    ensures var (next, reply) := Step(sha, s, MarkFailed(t, maxAttempts, delay, now)); var n := s.tickets[t].event; var row := s.rows[n];
      && reply == Done && next == s.(rows := s.rows[n := next.rows[n]])
      && next.rows[n] == Event(row.tenant, row.aggregate, row.payload, row.payloadHash, if s.tickets[t].attempts >= maxAttempts then DEAD else FAILED,
        row.attempts, if s.tickets[t].attempts >= maxAttempts then row.availableAt else now + delay, None, 0, row.replays)
  {
  }

  /** A publishing mark its guard accepts publishes the event and gives it up; it needs a claim whose publish call has returned. */
  lemma PublishOutcome(sha: Sha, s: State, t: nat, now: int)
    requires t < |s.tickets| && s.tickets[t].event < |s.rows|
    ensures var (next, reply) := Step(sha, s, MarkPublished(t, now)); var n := s.tickets[t].event; var row := s.rows[n];
      && (reply == Done <==> s.tickets[t].delivered && row.status == CLAIMED && row.claimedBy == Some(s.tickets[t].worker) && now < row.leaseUntil)
      && next == (if reply != Done then s else s.(rows := s.rows[n := Event(row.tenant, row.aggregate, row.payload, row.payloadHash, PUBLISHED,
          row.attempts, row.availableAt, None, 0, row.replays)]))
  {
  }

  /** May a worker within this scope claim the event now? */
  predicate Claimable(rows: seq<Event>, n: nat, scope: Option<string>, now: int) {
    n < |rows| && (scope == None || scope == Some(rows[n].tenant))
    && (match rows[n].status
        case PENDING => rows[n].availableAt <= now
        case FAILED => rows[n].availableAt <= now
        case CLAIMED => rows[n].leaseUntil <= now
        case _ => false)
    && forall p :: 0 <= p < n && rows[p].tenant == rows[n].tenant && rows[p].aggregate == rows[n].aggregate ==> rows[p].status == PUBLISHED
  }

  /** How many of the first n events are claimable and not locked by someone else. */
  function Before(rows: seq<Event>, n: nat, scope: Option<string>, now: int, locked: set<nat>): nat {
    if n == 0 then 0 else Before(rows, n - 1, scope, now, locked) + if Claimable(rows, n - 1, scope, now) && n - 1 !in locked then 1 else 0
  }

  lemma CandidateIff(rows: seq<Event>, n: nat, scope: Option<string>, now: int)
    requires n < |rows|
    ensures Candidate(rows, n, scope, now) <==> Claimable(rows, n, scope, now)
  {
  }

  /** A claim takes exactly the claimable, unlocked events with fewer than `limit` such events before them. */
  lemma {:induction false} ClaimsExactly(rows: seq<Event>, m: nat, scope: Option<string>, limit: nat, now: int, locked: set<nat>, n: nat)
    requires m <= |rows|
    ensures n in Picks(rows, m, scope, limit, now, locked) <==>
      n < m && Claimable(rows, n, scope, now) && n !in locked && Before(rows, n, scope, now, locked) < limit
    ensures |Picks(rows, m, scope, limit, now, locked)| == var k := Before(rows, m, scope, now, locked); if k < limit then k else limit
  {
    hide Claimable, Candidate, Picks;
    if m > 0 {
      CandidateIff(rows, m - 1, scope, now);
      ClaimsExactly(rows, m - 1, scope, limit, now, locked, n);
      LastPick(rows, m, scope, limit, now, locked, n);
    } else {
      NoPicks(rows, scope, limit, now, locked);
    }
  }

  lemma NoPicks(rows: seq<Event>, scope: Option<string>, limit: nat, now: int, locked: set<nat>)
    ensures Picks(rows, 0, scope, limit, now, locked) == []
  {
  }

  lemma LastPick(rows: seq<Event>, m: nat, scope: Option<string>, limit: nat, now: int, locked: set<nat>, n: nat)
    requires 0 < m <= |rows|
    ensures var before := Picks(rows, m - 1, scope, limit, now, locked); var last := Candidate(rows, m - 1, scope, now) && m - 1 !in locked && |before| < limit;
      && (n in Picks(rows, m, scope, limit, now, locked) <==> n in before || (last && n == m - 1))
      && |Picks(rows, m, scope, limit, now, locked)| == |before| + if last then 1 else 0
  {
    hide Candidate;
  }

  /** The consumer runs its handler once for an event it has not seen and whose text has its digest; anything else changes nothing and says why. */
  lemma ConsumeOutcome(sha: Sha, s: State, n: nat)
    requires n < |s.rows|
    ensures var (t, reply) := ConsumeOnce(sha, s, n); var row := s.rows[n];
      && (reply == Done <==> n !in s.inbox && sha(row.payload) == row.payloadHash)
      && (reply == Duplicate <==> n in s.inbox && s.inbox[n] == row.payloadHash)
      && (reply == Refused("INBOX_PAYLOAD_CONFLICT") <==> n in s.inbox && s.inbox[n] != row.payloadHash)
      && (reply == Refused("OUTBOX_PAYLOAD_TAMPERED") <==> n !in s.inbox && sha(row.payload) != row.payloadHash)
      && t == (if reply == Done then s.(inbox := s.inbox[n := row.payloadHash], handled := s.handled + [n]) else s)
  {
  }

  /** A worker knows its publish call returned when it saw it succeed or saw that the event had been handled before. */
  lemma DeliveryOutcome(sha: Sha, s: State, t: nat, seen: bool)
    requires t < |s.tickets| && s.tickets[t].event < |s.rows|
    ensures var (next, reply) := Step(sha, s, Deliver(t, seen)); var (consumed, answer) := ConsumeOnce(sha, s, s.tickets[t].event);
      && reply == answer && next == consumed.(tickets := next.tickets)
      && next.tickets == (if seen && !answer.Refused? then s.tickets[t := Ticket(s.tickets[t].event, s.tickets[t].worker, s.tickets[t].attempts, true)]
        else s.tickets)
  {
  }

  /** A request opens for a dead event of its tenant that has none undecided. */
  lemma RequestOutcome(sha: Sha, s: State, n: nat, tenant: string, maker: string)
    ensures var (t, reply) := Step(sha, s, ProposeReplay(n, tenant, maker));
      && (reply == Done <==>
        n < |s.rows| && s.rows[n].status == DEAD && s.rows[n].tenant == tenant
        && forall r :: 0 <= r < |s.requests| && s.requests[r].event == n ==> s.requests[r].decision != Undecided)
      && t == (if reply == Done then s.(requests := s.requests + [Request(n, tenant, maker, None, Undecided)]) else s)
  {
  }

  /** An undecided request is decided by someone else: rejected, or executed on an event that is still dead, which starts over at once. */
  lemma DecisionOutcome(sha: Sha, s: State, r: nat, checker: string, approve: bool, now: int)
    ensures var (t, reply) := Step(sha, s, DecideReplay(r, checker, approve, now));
      && (reply == Done <==>
        r < |s.requests| && s.requests[r].decision == Undecided && s.requests[r].maker != checker
        && (approve ==> s.requests[r].event < |s.rows| && s.rows[s.requests[r].event].status == DEAD))
      && (reply != Done ==> t == s)
      && (reply == Done ==>
        var q := s.requests[r];
        t.requests == s.requests[r := Request(q.event, q.tenant, q.maker, Some(checker), if approve then Executed else Rejected)] &&
        if !approve then t.rows == s.rows
        else
          var row := s.rows[q.event];
          t.rows == s.rows[q.event := Event(row.tenant, row.aggregate, row.payload, row.payloadHash, PENDING, 0, now, None, 0, row.replays + 1)])
  {
  }

  /** Every way an event's row changes, each pinned field by field. */
  predicate RowStep(sha: Sha, s: State, a: Action, n: nat, after: Event)
    requires n < |s.rows|
  {
    var row := s.rows[n];
    match a
    case Claim(worker, scope, _, leaseMs, now, locked) =>
      || after == row
      || (Claimable(s.rows, n, scope, now) && n !in locked
        && after == Event(row.tenant, row.aggregate, row.payload, row.payloadHash, CLAIMED, row.attempts + 1, row.availableAt, Some(worker), now + leaseMs, row.replays))
    case MarkPublished(t, now) =>
      || after == row
      || (MayDisturb(s, a, n) && row.status == CLAIMED
        && after == Event(row.tenant, row.aggregate, row.payload, row.payloadHash, PUBLISHED, row.attempts, row.availableAt, None, 0, row.replays))
    case MarkFailed(t, maxAttempts, delay, now) =>
      || after == row
      || (MayDisturb(s, a, n) && row.status == CLAIMED
        && after == Event(row.tenant, row.aggregate, row.payload, row.payloadHash, if s.tickets[t].attempts >= maxAttempts then DEAD else FAILED,
             row.attempts, if s.tickets[t].attempts >= maxAttempts then row.availableAt else now + delay, None, 0, row.replays))
    case DecideReplay(r, checker, approve, now) =>
      || after == row
      || (approve && row.status == DEAD && r < |s.requests| && s.requests[r].event == n && s.requests[r].maker != checker && s.requests[r].decision == Undecided
        && after == Event(row.tenant, row.aggregate, row.payload, row.payloadHash, PENDING, 0, now, None, 0, row.replays + 1))
    case _ => after == row
  }

  lemma MarkMoves(sha: Sha, s: State, a: Action, n: nat)
    requires n < |s.rows| && (a.MarkPublished? || a.MarkFailed?)
    ensures |Step(sha, s, a).0.rows| == |s.rows| && RowStep(sha, s, a, n, Step(sha, s, a).0.rows[n])
  {
    if a.ticket < |s.tickets| && s.tickets[a.ticket].event < |s.rows| {
      if a.MarkPublished? {
        PublishOutcome(sha, s, a.ticket, a.now);
        hide Step;
      } else if Owned(s.rows[s.tickets[a.ticket].event], s.tickets[a.ticket].worker, a.now) {
        FailureOutcome(sha, s, a.ticket, a.maxAttempts, a.delay, a.now);
        hide Step;
      }
    }
  }

  lemma ClaimMoves(sha: Sha, s: State, a: Action, n: nat)
    requires n < |s.rows| && a.Claim?
    ensures |Step(sha, s, a).0.rows| == |s.rows| && RowStep(sha, s, a, n, Step(sha, s, a).0.rows[n])
  {
    ClaimLeases(sha, s, a, n);
    ClaimsExactly(s.rows, |s.rows|, a.scope, a.limit, a.now, a.locked, n);
    hide Step, Picks, Claimable;
  }

  lemma OtherMoves(sha: Sha, s: State, a: Action, n: nat)
    requires n < |s.rows| && (a.Enqueue? || a.Deliver? || a.ProposeReplay?)
    ensures n < |Step(sha, s, a).0.rows| && Step(sha, s, a).0.rows[n] == s.rows[n]
  {
  }

  /** Every way an event moves, in any state: claimed when it may be, marked by its worker inside the lease, or replayed by a second person. */
  lemma RowsMove(sha: Sha, s: State, a: Action, n: nat)
    requires n < |s.rows|
    ensures n < |Step(sha, s, a).0.rows| && RowStep(sha, s, a, n, Step(sha, s, a).0.rows[n])
  {
    if a.Claim? {
      ClaimMoves(sha, s, a, n);
    } else if a.MarkPublished? || a.MarkFailed? {
      MarkMoves(sha, s, a, n);
    } else if a.DecideReplay? {
      DecisionOutcome(sha, s, a.request, a.checker, a.approve, a.now);
    } else {
      OtherMoves(sha, s, a, n);
    }
    hide Step, Claimable;
  }

  // ----- who did what -----

  /** The n-th enqueue of a run. */
  function Enqueued(actions: seq<Action>): seq<Action> {
    if actions == [] then []
    else Enqueued(actions[..|actions| - 1]) + if actions[|actions| - 1].Enqueue? then [actions[|actions| - 1]] else []
  }

  predicate AsEnqueued(sha: Sha, row: Event, a: Action) {
    a.Enqueue? && row.tenant == a.tenant && row.aggregate == a.aggregate && row.payload == a.payload && row.payloadHash == sha(a.payload)
    && (row.status == PENDING && row.replays == 0 ==> row.availableAt == a.availableAt)
  }

  lemma StepAsEnqueued(sha: Sha, s: State, a: Action, n: nat)
    requires Inv(sha, s) && n < |Step(sha, s, a).0.rows|
    ensures |Step(sha, s, a).0.rows| == |s.rows| + if a.Enqueue? then 1 else 0
    ensures n >= |s.rows| ==> AsEnqueued(sha, Step(sha, s, a).0.rows[n], a)
    ensures n < |s.rows| ==> var row, next := s.rows[n], Step(sha, s, a).0.rows[n];
      && next.tenant == row.tenant && next.aggregate == row.aggregate && next.payload == row.payload && next.payloadHash == row.payloadHash
      && next.replays >= row.replays
      && (next.status == PENDING && next.replays == row.replays ==> row.status == PENDING && next.availableAt == row.availableAt)
  {
    hide Executions, Ready, Picks;
  }

  /** Every row of a run is its enqueue, in order and with its own text and digest, available when it said while it waits for its first claim. */
  lemma {:induction false} RowsAreEnqueues(sha: Sha, actions: seq<Action>, n: nat)
    ensures |Run(sha, actions).rows| == |Enqueued(actions)|
    ensures n < |Run(sha, actions).rows| ==> AsEnqueued(sha, Run(sha, actions).rows[n], Enqueued(actions)[n])
  {
    hide Step, Inv;
    if actions != [] {
      var front := actions[..|actions| - 1];
      RowsAreEnqueues(sha, front, n);
      RunKeeps(sha, front);
      if n < |Run(sha, actions).rows| {
        StepAsEnqueued(sha, Run(sha, front), actions[|actions| - 1], n);
      } else {
        StepRowCount(sha, Run(sha, front), actions[|actions| - 1]);
      }
    }
  }

  lemma StepRowCount(sha: Sha, s: State, a: Action)
    requires Inv(sha, s)
    ensures |Step(sha, s, a).0.rows| == |s.rows| + if a.Enqueue? then 1 else 0
  {
    hide Executions, Ready, Picks;
  }

  /** The call at position i is the maker's request. */
  ghost predicate RequestedAt(sha: Sha, actions: seq<Action>, i: nat, q: Request) {
    && i < |actions| && actions[i] == ProposeReplay(q.event, q.tenant, q.maker)
    && q.event < |Run(sha, actions[..i]).rows| && Run(sha, actions[..i]).rows[q.event].status == DEAD && Run(sha, actions[..i]).rows[q.event].tenant == q.tenant
  }

  /** The call at position j is the checker's decision on request r. */
  ghost predicate AnsweredAt(sha: Sha, actions: seq<Action>, j: nat, r: nat, q: Request) {
    && j < |actions| && actions[j].DecideReplay? && actions[j].request == r && q.checker == Some(actions[j].checker)
    && actions[j].approve == (q.decision == Executed) && actions[j].checker != q.maker
    && r < |Run(sha, actions[..j]).requests| && Run(sha, actions[..j]).requests[r].decision == Undecided
  }

  lemma StepRequests(sha: Sha, s: State, a: Action, r: nat)
    requires Inv(sha, s) && r < |Step(sha, s, a).0.requests|
    ensures r >= |s.requests| ==>
      var q := Step(sha, s, a).0.requests[r];
      && a == ProposeReplay(q.event, q.tenant, q.maker) && q.decision == Undecided && q.checker == None
      && q.event < |s.rows| && s.rows[q.event].status == DEAD && s.rows[q.event].tenant == q.tenant
    ensures r < |s.requests| && Step(sha, s, a).0.requests[r] != s.requests[r] ==>
      var q, before := Step(sha, s, a).0.requests[r], s.requests[r];
      && q == before.(checker := q.checker, decision := q.decision) && before.decision == Undecided && q.decision != Undecided
      && a.DecideReplay? && a.request == r && q.checker == Some(a.checker) && a.approve == (q.decision == Executed) && a.checker != q.maker
  {
    hide Executions, Ready, Picks;
  }

  /** Every replay request was made by the maker it names, for an event then dead, and every decision by the checker it names. */
  lemma {:induction false} RequestsAreCalls(sha: Sha, actions: seq<Action>, r: nat)
    requires r < |Run(sha, actions).requests|
    ensures var q := Run(sha, actions).requests[r];
      && (exists i: nat :: RequestedAt(sha, actions, i, q))
      && (q.decision != Undecided ==> exists j: nat :: AnsweredAt(sha, actions, j, r, q))
  {
    hide Step, Inv;
    RunEmpty(sha);
    var m := |actions| - 1;
    var front := actions[..m];
    var s, q := Run(sha, front), Run(sha, actions).requests[r];
    RunKeeps(sha, front);
    StepRequests(sha, s, actions[m], r);
    if r < |s.requests| {
      RequestsAreCalls(sha, front, r);
      var i: nat :| RequestedAt(sha, front, i, s.requests[r]);
      assert front[..i] == actions[..i];
      assert RequestedAt(sha, actions, i, q);
      if q == s.requests[r] && q.decision != Undecided {
        var j: nat :| AnsweredAt(sha, front, j, r, q);
        assert front[..j] == actions[..j];
        assert AnsweredAt(sha, actions, j, r, q);
      } else if q.decision != Undecided {
        assert AnsweredAt(sha, actions, m, r, q);
      }
    } else {
      assert RequestedAt(sha, actions, m, q);
    }
  }
}
