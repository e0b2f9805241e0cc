/** What one turn of the dispatcher does with its event: the delivery, the mark that follows, and how long a failure puts it off. */
module DispatchOutcomes {
  import opened Common
  import opened Outbox
  import opened OutboxDispatcher

  function Capped(x: int, max: int): int {
    if x < max then x else max
  }

  /** The wait after a number of attempts: the base, doubled with each further attempt up to the thirty-first, never above the ceiling. */
  function Wait(base: int, max: int, attempts: int): int
    requires attempts > 0
    decreases attempts
  {
    if attempts == 1 then Capped(base, max)
    else if attempts > 31 then Wait(base, max, attempts - 1)
    else Capped(2 * Wait(base, max, attempts - 1), max)
  }

  lemma {:induction false} DelayIsWait(base: int, max: int, attempts: int)
    requires attempts > 0 && base > 0 && max > 0
    ensures RetryDelayMs(attempts, base, max) == Ok(Wait(base, max, attempts))
    decreases attempts
  {
    hide RetryDelayMs;
    if attempts == 1 {
      BackOff(1, base, max);
    } else {
      DelayIsWait(base, max, attempts - 1);
      BackOff(attempts - 1, base, max);
    }
  }

  /** The worker holds the event's lease at this clock. */
  predicate Holds(row: Event, worker: string, now: int) {
    row.status == CLAIMED && row.claimedBy == Some(worker) && now < row.leaseUntil
  }

  /** The consumer takes a first delivery with the right digest and recognises a repeated one. */
  predicate Taken(sha: Sha, s: State, n: nat)
    requires n < |s.rows|
  {
    if n in s.inbox then s.inbox[n] == s.rows[n].payloadHash else sha(s.rows[n].payload) == s.rows[n].payloadHash
  }

  /** The worker saw its publish call succeed and marks it inside its lease. */
  predicate Publishes(sha: Sha, s: State, t: nat, a: Attempt)
    requires t < |s.tickets| && s.tickets[t].event < |s.rows|
  {
    var n := s.tickets[t].event;
    a.commits && a.seen && Taken(sha, s, n) && Holds(s.rows[n], s.tickets[t].worker, a.publishedAt)
  }

  /**
   A turn publishes its event exactly when the worker saw the delivery succeed and still
   held the lease; failing that it fails the event if it holds the lease then, ends it at
   the maximum, and otherwise puts it off by the wait for its attempts; without the lease
   the turn ends the batch and the row is as it was. A delivery that went through has run
   the handler in every case.
   */
  lemma TurnOutcome(sha: Sha, d: Settings, s: State, t: nat, a: Attempt)
    requires d.Accepted() && t < |s.tickets| && Workable(s, t)
    ensures var (next, outcome) := Turn(sha, d, s, t, a);
      var n := s.tickets[t].event;
      var row, attempts, worker := s.rows[n], s.tickets[t].attempts, s.tickets[t].worker;
      var first := a.commits && n !in s.inbox && sha(row.payload) == row.payloadHash;
      && outcome == (if Publishes(sha, s, t, a) then Some(PUBLISHED)
        else if Holds(row, worker, a.failedAt) then Some(if attempts < d.maxAttempts then FAILED else DEAD) else None)
      && next.rows == s.rows[n := match outcome
        case None => row
        case Some(FAILED) => Event(row.tenant, row.aggregate, row.payload, row.payloadHash, FAILED, row.attempts,
          a.failedAt + Wait(d.base, d.max, attempts), None, 0, row.replays)
        case Some(status) => Event(row.tenant, row.aggregate, row.payload, row.payloadHash, status, row.attempts, row.availableAt, None, 0, row.replays)]
      && next.inbox == (if first then s.inbox[n := row.payloadHash] else s.inbox)
      && next.handled == (if first then s.handled + [n] else s.handled) && next.requests == s.requests
  {
    DelayIsWait(d.base, d.max, s.tickets[t].attempts);
    hide RetryDelayMs, Wait, Picks, ClaimedRows, Tickets;
  }

  /** The rest of a batch names each event once. */
  predicate Apart(s: State, t: nat) {
    forall k, l :: t <= k < l < |s.tickets| ==> s.tickets[k].event != s.tickets[l].event
  }

  predicate Finished(row: Event) {
    row.status == PUBLISHED || row.status == FAILED || row.status == DEAD
  }

  /** Is the event one of the batch from ticket t on? */
  predicate InBatch(s: State, t: nat, n: nat) {
    exists k :: t <= k < |s.tickets| && s.tickets[k].event == n
  }

  lemma TurnKeepsTickets(sha: Sha, d: Settings, s: State, t: nat, a: Attempt)
    requires d.Accepted() && t < |s.tickets| && Workable(s, t)
    ensures var u := Turn(sha, d, s, t, a).0.tickets; |u| == |s.tickets| && forall k :: 0 <= k < |u| && k != t ==> u[k] == s.tickets[k]
  {
    hide RetryDelayMs, Picks, ClaimedRows, Tickets;
  }

  /** A batch that comes to its end leaves none of its events claimed, and touches no other. */
  lemma {:induction false} RestFinishes(sha: Sha, d: Settings, s: State, t: nat, attempts: nat -> Attempt, b: Batch)
    requires d.Accepted() && t <= |s.tickets| && Workable(s, t) && Apart(s, t)
    ensures var (next, r) := Rest(sha, d, s, t, attempts, b);
      && |next.rows| == |s.rows|
      && (forall n :: 0 <= n < |s.rows| && !InBatch(s, t, n) ==> next.rows[n] == s.rows[n])
      && (r.Ok? ==> forall n :: 0 <= n < |s.rows| && InBatch(s, t, n) ==> Finished(next.rows[n]))
    decreases |s.tickets| - t
  {
    hide Turn, Publishes, Wait;
    if t < |s.tickets| {
      TurnKeepsWorkable(sha, d, s, t, attempts(t));
      TurnKeepsTickets(sha, d, s, t, attempts(t));
      TurnOutcome(sha, d, s, t, attempts(t));
      var (next, outcome) := Turn(sha, d, s, t, attempts(t));
      forall n | InBatch(s, t, n) ensures n == s.tickets[t].event || InBatch(next, t + 1, n) {
        var k :| t <= k < |s.tickets| && s.tickets[k].event == n;
        assert k == t || next.tickets[k].event == n;
      }
      forall n | InBatch(next, t + 1, n) ensures InBatch(s, t, n) && n != s.tickets[t].event {
        var k :| t + 1 <= k < |next.tickets| && next.tickets[k].event == n;
        assert s.tickets[k].event == n;
      }
      if outcome.Some? {
        RestFinishes(sha, d, next, t + 1, attempts, Counted(b, outcome.value));
      }
      assert InBatch(s, t, s.tickets[t].event);
    }
  }

  /** What a claim hands to a worker is such a batch. */
  lemma ClaimsApart(sha: Sha, s: State, worker: string, scope: Option<string>, limit: nat, leaseMs: int, now: int, locked: set<nat>)
    ensures Apart(Step(sha, s, Claim(worker, scope, limit, leaseMs, now, locked)).0, |s.tickets|)
  {
    var picks := Picks(s.rows, |s.rows|, scope, limit, now, locked);
    ClaimedOnce(s, picks, worker);
    hide Picks, ClaimedRows, Tickets, Apart;
  }

  lemma ClaimedOnce(s: State, picks: seq<nat>, worker: string)
    requires (forall k :: 0 <= k < |picks| ==> picks[k] < |s.rows|) && forall k, l :: 0 <= k < l < |picks| ==> picks[k] < picks[l]
    ensures forall u: State :: u.tickets == s.tickets + Tickets(s.rows, picks, worker) ==> Apart(u, |s.tickets|)
  {
    var more := Tickets(s.rows, picks, worker);
    assert forall k :: 0 <= k < |more| ==> more[k].event == picks[k];
    hide Tickets;
    forall u: State | u.tickets == s.tickets + more ensures Apart(u, |s.tickets|) {
      forall k, l | |s.tickets| <= k < l < |u.tickets| ensures u.tickets[k].event != u.tickets[l].event {
        assert u.tickets[k] == more[k - |s.tickets|] && u.tickets[l] == more[l - |s.tickets|];
      }
    }
  }
}
