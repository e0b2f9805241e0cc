/**
 The dispatcher: one batch of claimed events, each published and then marked.
 What the publisher does and when the clock is read are inputs of each attempt.
 */
module OutboxDispatcher {
  import opened Common
  import opened Binary
  import opened Outbox

  /** `retryDelayMs`: exponential back-off with a ceiling; the exponent stops at 30. */
  function RetryDelayMs(attempt: int, base: int, max: int): (r: Result<int>)
    ensures r.Err? <==> attempt <= 0 || base <= 0 || max <= 0
  {
    if attempt <= 0 || base <= 0 || max <= 0 then Err("TypeError")
    else
      var delay := base * Pow2(if attempt - 1 < 30 then attempt - 1 else 30);
      Ok(if max < delay then max else delay)
  }

  /** Delays start at the base (or the ceiling), double until the ceiling, and never exceed it or shrink. */
  lemma BackOff(attempt: int, base: int, max: int)
    requires attempt > 0 && base > 0 && max > 0
    ensures var now, next := RetryDelayMs(attempt, base, max).value, RetryDelayMs(attempt + 1, base, max).value;
      && (if base < max then base else max) <= now <= next <= max
      && (attempt == 1 ==> now == if base < max then base else max)
      && (attempt <= 30 ==> next == if 2 * now < max then 2 * now else max)
      && (attempt > 30 ==> next == now)
  {
    var e := if attempt - 1 < 30 then attempt - 1 else 30;
    Growth(base, e);
    assert Pow2(0) == 1;
  }

  lemma Growth(base: int, e: nat)
    requires base > 0
    ensures base * Pow2(e) >= base && base * Pow2(e + 1) == 2 * (base * Pow2(e))
  {
    var p := Pow2(e);
    assert base * p >= base * 1;
    assert base * (2 * p) == 2 * (base * p);
  }

  datatype Settings = Settings(worker: string, scope: Option<string>, leaseMs: int, maxAttempts: nat, base: int, max: int)
  {
    predicate Accepted() {
      leaseMs > 0 && maxAttempts > 0 && base > 0 && max > 0
    }
  }

  /** One event's fate outside the store: whether its delivery commits, whether the worker sees that, and both mark times. */
  datatype Attempt = Attempt(commits: bool, seen: bool, publishedAt: int, failedAt: int)

  datatype Batch = Batch(claimed: nat, published: nat, failed: nat, dead: nat)

  /** One turn of the loop: the store afterwards and which counter moved, or none when marking failed too. */
  function Turn(sha: Sha, d: Settings, s: State, t: nat, a: Attempt): (State, Option<Status>)
    requires d.Accepted() && t < |s.tickets| && s.tickets[t].event < |s.rows| && s.tickets[t].attempts > 0
  {
    var (s1, delivery) := if a.commits then Step(sha, s, Deliver(t, a.seen)) else (s, Impossible);
    var (s2, marked) := if a.seen && (delivery == Done || delivery == Duplicate) then Step(sha, s1, MarkPublished(t, a.publishedAt)) else (s1, Impossible);
    if marked == Done then (s2, Some(PUBLISHED))
    else
      var delay := RetryDelayMs(s.tickets[t].attempts, d.base, d.max).value;
      var (s3, failed) := Step(sha, s2, MarkFailed(t, d.maxAttempts, delay, a.failedAt));
      if failed == Done then (s3, Some(if s.tickets[t].attempts >= d.maxAttempts then DEAD else FAILED)) else (s3, None)
  }

  function Counted(b: Batch, outcome: Status): Batch {
    match outcome
    case PUBLISHED => b.(published := b.published + 1)
    case DEAD => b.(dead := b.dead + 1)
    case _ => b.(failed := b.failed + 1)
  }

  /** What the tickets of a batch need of the store. */
  predicate Workable(s: State, t: nat) {
    forall k :: t <= k < |s.tickets| ==> s.tickets[k].event < |s.rows| && s.tickets[k].attempts > 0
  }

  lemma TurnKeepsWorkable(sha: Sha, d: Settings, s: State, t: nat, a: Attempt)
    requires d.Accepted() && t < |s.tickets| && Workable(s, t)
    ensures Workable(Turn(sha, d, s, t, a).0, t + 1) && |Turn(sha, d, s, t, a).0.tickets| == |s.tickets|
  {
  }

  /** The rest of a batch from ticket t on. */
  function Rest(sha: Sha, d: Settings, s: State, t: nat, attempts: nat -> Attempt, b: Batch): (State, Result<Batch>)
    requires d.Accepted() && t <= |s.tickets| && Workable(s, t)
    decreases |s.tickets| - t
  {
    if t == |s.tickets| then (s, Ok(b))
    else
      TurnKeepsWorkable(sha, d, s, t, attempts(t));
      var (next, outcome) := Turn(sha, d, s, t, attempts(t));
      match outcome
      case None => (next, Err("OUTBOX_CLAIM_MISMATCH"))
      case Some(status) => Rest(sha, d, next, t + 1, attempts, Counted(b, status))
  }

  function CountStatus(rows: seq<Event>, status: Status): nat {
    if rows == [] then 0 else CountStatus(rows[..|rows| - 1], status) + if rows[|rows| - 1].status == status then 1 else 0
  }

  lemma {:induction false} CountUpdate(rows: seq<Event>, n: nat, row: Event, status: Status)
    requires n < |rows|
    ensures CountStatus(rows[n := row], status)
      == CountStatus(rows, status) + (if row.status == status then 1 else 0) - (if rows[n].status == status then 1 else 0)
  {
    var front := rows[..|rows| - 1];
    if n < |front| {
      CountUpdate(front, n, row, status);
      assert rows[n := row][..|rows| - 1] == front[n := row];
    } else {
      assert rows[n := row][..|rows| - 1] == front;
    }
  }

  /** How a batch's counters speak about the tables. */
  ghost predicate Tallied(before: seq<Event>, b0: Batch, after: seq<Event>, b: Batch) {
    && CountStatus(after, PUBLISHED) - CountStatus(before, PUBLISHED) == b.published - b0.published
    && CountStatus(after, FAILED) - CountStatus(before, FAILED) == b.failed - b0.failed
    && CountStatus(after, DEAD) - CountStatus(before, DEAD) == b.dead - b0.dead
    && CountStatus(after, PENDING) == CountStatus(before, PENDING)
  }

  lemma TurnTallies(sha: Sha, d: Settings, s: State, t: nat, a: Attempt, b: Batch)
    requires d.Accepted() && t < |s.tickets| && Workable(s, t)
    ensures var (next, outcome) := Turn(sha, d, s, t, a);
      outcome.Some? ==> Tallied(s.rows, b, next.rows, Counted(b, outcome.value))
  {
    hide CountStatus, Ready, Picks, RetryDelayMs, ClaimedRows;
    var (next, outcome) := Turn(sha, d, s, t, a);
    var n := s.tickets[t].event;
    if outcome.Some? {
      assert next.rows == s.rows[n := next.rows[n]] && s.rows[n].status == CLAIMED && next.rows[n].status == outcome.value;
      forall status ensures CountStatus(next.rows, status)
        == CountStatus(s.rows, status) + (if outcome.value == status then 1 else 0) - (if status == CLAIMED then 1 else 0) {
        CountUpdate(s.rows, n, next.rows[n], status);
      }
    }
  }

  lemma {:induction false} RestTallies(sha: Sha, d: Settings, s: State, t: nat, attempts: nat -> Attempt, b: Batch)
    requires d.Accepted() && t <= |s.tickets| && Workable(s, t)
    ensures var (next, r) := Rest(sha, d, s, t, attempts, b);
      r.Ok? ==>
        && Tallied(s.rows, b, next.rows, r.value) && r.value.claimed == b.claimed
        && r.value.published + r.value.failed + r.value.dead == b.published + b.failed + b.dead + |s.tickets| - t
    decreases |s.tickets| - t
  {
    hide CountStatus, Turn;
    if t < |s.tickets| {
      TurnKeepsWorkable(sha, d, s, t, attempts(t));
      var (next, outcome) := Turn(sha, d, s, t, attempts(t));
      if outcome.Some? {
        TurnTallies(sha, d, s, t, attempts(t), b);
        RestTallies(sha, d, next, t + 1, attempts, Counted(b, outcome.value));
      }
    }
  }

  lemma TurnKeeps(sha: Sha, d: Settings, s: State, t: nat, a: Attempt)
    requires d.Accepted() && t < |s.tickets| && Workable(s, t) && Inv(sha, s)
    ensures Inv(sha, Turn(sha, d, s, t, a).0)
  {
    hide Inv, Step;
    var s1 := Step(sha, s, Deliver(t, a.seen)).0;
    StepKeeps(sha, s, Deliver(t, a.seen));
    StepKeeps(sha, s1, MarkPublished(t, a.publishedAt));
    var delay := RetryDelayMs(s.tickets[t].attempts, d.base, d.max).value;
    var mark := MarkFailed(t, d.maxAttempts, delay, a.failedAt);
    StepKeeps(sha, s, mark);
    StepKeeps(sha, s1, mark);
    StepKeeps(sha, Step(sha, s1, MarkPublished(t, a.publishedAt)).0, mark);
  }

  lemma {:induction false} RestKeeps(sha: Sha, d: Settings, s: State, t: nat, attempts: nat -> Attempt, b: Batch)
    requires d.Accepted() && t <= |s.tickets| && Workable(s, t) && Inv(sha, s)
    ensures Inv(sha, Rest(sha, d, s, t, attempts, b).0)
    decreases |s.tickets| - t
  {
    hide Inv, Turn;
    if t < |s.tickets| {
      TurnKeepsWorkable(sha, d, s, t, attempts(t));
      TurnKeeps(sha, d, s, t, attempts(t));
      var (next, outcome) := Turn(sha, d, s, t, attempts(t));
      if outcome.Some? {
        RestKeeps(sha, d, next, t + 1, attempts, Counted(b, outcome.value));
      }
    }
  }

  /** Publishes one claimed event and marks it published, or failed when either call throws. */
  method DispatchOne(store: OutboxStore, d: Settings, t: nat, a: Attempt) returns (outcome: Option<Status>)
    requires d.Accepted() && t < |store.tickets| && Workable(store.View(), t)
    modifies store
    ensures (store.View(), outcome) == Turn(store.sha, d, old(store.View()), t, a)
  {
    var attempt := store.tickets[t].attempts;
    var delivery, marked := Impossible, Impossible;
    if a.commits {
      delivery := store.Publish(t, a.seen);
    }
    if a.seen && (delivery == Done || delivery == Duplicate) {
      marked := store.MarkOutboxPublished(t, a.publishedAt);
    }
    if marked == Done {
      return Some(PUBLISHED);
    }
    var delay := RetryDelayMs(attempt, d.base, d.max).value;
    var failed := store.MarkOutboxFailed(t, d.maxAttempts, delay, a.failedAt);
    return if failed != Done then None else Some(if attempt >= d.maxAttempts then DEAD else FAILED);
  }

  /** `dispatchBatch`: claims, then publishes and marks each event; an error while marking a failure ends the batch. */
  method DispatchBatch(store: OutboxStore, d: Settings, limit: nat, now: int, locked: set<nat>, attempts: nat -> Attempt) returns (r: Result<Batch>)
    requires d.Accepted() && limit > 0 && Inv(store.sha, store.View())
    modifies store
    ensures Inv(store.sha, store.View())
    ensures var claimed := Step(store.sha, old(store.View()), Claim(d.worker, d.scope, limit, d.leaseMs, now, locked)).0;
      var n := |claimed.tickets| - |old(store.tickets)|;
      && n >= 0 && Workable(claimed, |old(store.tickets)|)
      && (store.View(), r) == Rest(store.sha, d, claimed, |old(store.tickets)|, attempts, Batch(n, 0, 0, 0))
      && (r.Ok? ==>
        && r.value.claimed == n == r.value.published + r.value.failed + r.value.dead
        && Tallied(claimed.rows, Batch(0, 0, 0, 0), store.rows, r.value))
  {
    hide Inv, Step, CountStatus, Turn, Tallied;
    var first := |store.tickets|;
    StepKeeps(store.sha, store.View(), Claim(d.worker, d.scope, limit, d.leaseMs, now, locked));
    var events := store.ClaimOutboxBatch(d.worker, d.scope, limit, d.leaseMs, now, locked);
    ghost var claimed, none := store.View(), Batch(|events|, 0, 0, 0);
    BatchWorkable(store.sha, claimed, first);
    RestTallies(store.sha, d, claimed, first, attempts, none);
    RestKeeps(store.sha, d, claimed, first, attempts, none);
    SameTally(claimed.rows, |events|);
    var result := Batch(|events|, 0, 0, 0);
    for t := first to first + |events|
      invariant |store.tickets| == first + |events| && Workable(store.View(), t)
      invariant Rest(store.sha, d, store.View(), t, attempts, result) == Rest(store.sha, d, claimed, first, attempts, none)
    {
      TurnKeepsWorkable(store.sha, d, store.View(), t, attempts(t));
      var outcome := DispatchOne(store, d, t, attempts(t));
      match outcome {
        case None => return Err("OUTBOX_CLAIM_MISMATCH");
        case Some(PUBLISHED) => result := result.(published := result.published + 1);
        case Some(DEAD) => result := result.(dead := result.dead + 1);
        case Some(_) => result := result.(failed := result.failed + 1);
      }
    }
    return Ok(result);
  }

  lemma SameTally(before: seq<Event>, n: nat)
    ensures forall after, b :: Tallied(before, Batch(n, 0, 0, 0), after, b) ==> Tallied(before, Batch(0, 0, 0, 0), after, b)
  {
  }

  lemma BatchWorkable(sha: Sha, s: State, first: nat)
    requires Inv(sha, s) && first <= |s.tickets|
    requires forall t :: first <= t < |s.tickets| ==> s.tickets[t].attempts > 0
    ensures Workable(s, first)
  {
  }
}
