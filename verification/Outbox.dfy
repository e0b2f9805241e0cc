/**
 The transactional outbox: claiming with leases, marking, dead-letter replay and the
 deduplicating inbox. Every database statement is one step; workers may crash, lag
 behind their leases or share a worker name, and every clock reading is arbitrary.
 Row positions stand for event identifiers and for the enqueue sequence.
 */
module Outbox {
  import opened Common

  type Sha = string -> string

  datatype Status = PENDING | CLAIMED | FAILED | DEAD | PUBLISHED

  datatype Event = Event(
    tenant: string, aggregate: string, payload: string, payloadHash: string,
    status: Status, attempts: nat, availableAt: int, claimedBy: Option<string>, leaseUntil: int, replays: nat)

  /** What a worker remembers of an event it claimed; `delivered` once its publish call has returned. */
  datatype Ticket = Ticket(event: nat, worker: string, attempts: nat, delivered: bool)

  datatype Decision = Undecided | Rejected | Executed

  datatype Request = Request(event: nat, tenant: string, maker: string, checker: Option<string>, decision: Decision)

  /** `inbox` maps a consumed event to its payload hash; `handled` lists handler effects in commit order. */
  datatype State = State(rows: seq<Event>, tickets: seq<Ticket>, inbox: map<nat, string>, handled: seq<nat>, requests: seq<Request>)

  datatype Action =
    | Enqueue(tenant: string, aggregate: string, payload: string, availableAt: int)
    | Claim(worker: string, scope: Option<string>, limit: nat, leaseMs: int, now: int, locked: set<nat>)
    | Deliver(ticket: nat, seen: bool)
    | MarkPublished(ticket: nat, now: int)
    | MarkFailed(ticket: nat, maxAttempts: nat, delay: int, now: int)
    | ProposeReplay(event: nat, tenant: string, maker: string)
    | DecideReplay(request: nat, checker: string, approve: bool, now: int)

  datatype Reply = Done | Duplicate | Refused(code: string) | Impossible

  predicate SameAggregate(a: Event, b: Event) {
    a.tenant == b.tenant && a.aggregate == b.aggregate
  }

  /** Every earlier event of the same tenant and aggregate is published. */
  predicate Ready(rows: seq<Event>, n: nat)
    requires n < |rows|
  {
    forall p :: 0 <= p < n && SameAggregate(rows[p], rows[n]) ==> rows[p].status == PUBLISHED
  }

  predicate Candidate(rows: seq<Event>, n: nat, scope: Option<string>, now: int)
    requires n < |rows|
  {
    && (scope.Some? ==> rows[n].tenant == scope.value)
    && (((rows[n].status == PENDING || rows[n].status == FAILED) && rows[n].availableAt <= now)
        || (rows[n].status == CLAIMED && rows[n].leaseUntil <= now))
    && Ready(rows, n)
  }

  /** The first `limit` candidates among the first n rows, skipping rows locked by other transactions. */
  function Picks(rows: seq<Event>, n: nat, scope: Option<string>, limit: nat, now: int, locked: set<nat>): (r: seq<nat>)
    requires n <= |rows|
    ensures |r| <= limit
    ensures forall k :: 0 <= k < |r| ==> r[k] < n && Candidate(rows, r[k], scope, now) && r[k] !in locked
    ensures forall k, l :: 0 <= k < l < |r| ==> r[k] < r[l]
    ensures |r| < limit ==> forall m :: 0 <= m < n && Candidate(rows, m, scope, now) && m !in locked ==> m in r
  {
    if n == 0 then []
    else
      var before := Picks(rows, n - 1, scope, limit, now, locked);
      if Candidate(rows, n - 1, scope, now) && n - 1 !in locked && |before| < limit then before + [n - 1] else before
  }

  function ClaimedRow(row: Event, worker: string, leaseMs: int, now: int): Event {
    row.(status := CLAIMED, claimedBy := Some(worker), leaseUntil := now + leaseMs, attempts := row.attempts + 1)
  }

  function ClaimedRows(rows: seq<Event>, picks: seq<nat>, worker: string, leaseMs: int, now: int): (r: seq<Event>)
    ensures |r| == |rows|
  {
    seq(|rows|, n requires 0 <= n < |rows| => if n in picks then ClaimedRow(rows[n], worker, leaseMs, now) else rows[n])
  }

  function Tickets(rows: seq<Event>, picks: seq<nat>, worker: string): (r: seq<Ticket>)
    requires forall k :: 0 <= k < |picks| ==> picks[k] < |rows|
    ensures |r| == |picks|
  {
    seq(|picks|, k requires 0 <= k < |picks| => Ticket(picks[k], worker, rows[picks[k]].attempts + 1, false))
  }

  /** The guard of both mark statements. */
  predicate Owned(row: Event, worker: string, now: int) {
    row.status == CLAIMED && row.claimedBy == Some(worker) && row.leaseUntil > now
  }

  function ConsumeOnce(sha: Sha, s: State, n: nat): (State, Reply)
    requires n < |s.rows|
  {
    if n in s.inbox then
      if s.inbox[n] != s.rows[n].payloadHash then (s, Refused("INBOX_PAYLOAD_CONFLICT")) else (s, Duplicate)
    else if sha(s.rows[n].payload) != s.rows[n].payloadHash then (s, Refused("OUTBOX_PAYLOAD_TAMPERED"))
    else (s.(inbox := s.inbox[n := s.rows[n].payloadHash], handled := s.handled + [n]), Done)
  }

  function PublishedRow(row: Event): Event {
    row.(status := PUBLISHED, claimedBy := None, leaseUntil := 0)
  }

  function FailedRow(row: Event, dead: bool, delay: int, now: int): Event {
    if dead then row.(status := DEAD, claimedBy := None, leaseUntil := 0)
    else row.(status := FAILED, availableAt := now + delay, claimedBy := None, leaseUntil := 0)
  }

  function ReplayedRow(row: Event, now: int): Event {
    row.(status := PENDING, attempts := 0, availableAt := now, claimedBy := None, leaseUntil := 0, replays := row.replays + 1)
  }

  function Decide(s: State, r: nat, checker: string, approve: bool, now: int): (State, Reply)
    requires r < |s.requests|
  {
    var request := s.requests[r];
    if request.decision != Undecided then (s, Refused("INVALID_DEAD_LETTER_STATE"))
    else if request.maker == checker then (s, Refused("MAKER_CHECKER_CONFLICT"))
    else if !approve then
      (s.(requests := s.requests[r := request.(checker := Some(checker), decision := Rejected)]), Done)
    else if request.event >= |s.rows| || s.rows[request.event].status != DEAD then (s, Refused("INVALID_DEAD_LETTER_STATE"))
    else
      (s.(rows := s.rows[request.event := ReplayedRow(s.rows[request.event], now)],
          requests := s.requests[r := request.(checker := Some(checker), decision := Executed)]), Done)
  }

  /** One atomic step; a refused call leaves the state as it was. */
  function Step(sha: Sha, s: State, a: Action): (State, Reply) {
    match a
    case Enqueue(tenant, aggregate, payload, availableAt) =>
      (s.(rows := s.rows + [Event(tenant, aggregate, payload, sha(payload), PENDING, 0, availableAt, None, 0, 0)]), Done)
    case Claim(worker, scope, limit, leaseMs, now, locked) =>
      var picks := Picks(s.rows, |s.rows|, scope, limit, now, locked);
      (s.(rows := ClaimedRows(s.rows, picks, worker, leaseMs, now), tickets := s.tickets + Tickets(s.rows, picks, worker)), Done)
    case Deliver(t, seen) =>
      if t >= |s.tickets| || s.tickets[t].event >= |s.rows| then (s, Impossible)
      else
        var (next, reply) := ConsumeOnce(sha, s, s.tickets[t].event);
        if reply.Refused? || !seen then (next, reply)
        else (next.(tickets := s.tickets[t := s.tickets[t].(delivered := true)]), reply)
    case MarkPublished(t, now) =>
      if t >= |s.tickets| || s.tickets[t].event >= |s.rows| || !s.tickets[t].delivered then (s, Impossible)
      else
        var n := s.tickets[t].event;
        if !Owned(s.rows[n], s.tickets[t].worker, now) then (s, Refused("OUTBOX_CLAIM_MISMATCH"))
        else (s.(rows := s.rows[n := PublishedRow(s.rows[n])]), Done)
    case MarkFailed(t, maxAttempts, delay, now) =>
      if t >= |s.tickets| || s.tickets[t].event >= |s.rows| then (s, Impossible)
      else
        var n := s.tickets[t].event;
        if !Owned(s.rows[n], s.tickets[t].worker, now) then (s, Refused("OUTBOX_CLAIM_MISMATCH"))
        else (s.(rows := s.rows[n := FailedRow(s.rows[n], s.tickets[t].attempts >= maxAttempts, delay, now)]), Done)
    case ProposeReplay(n, tenant, maker) =>
      if n >= |s.rows| || s.rows[n].status != DEAD || s.rows[n].tenant != tenant then (s, Refused("INVALID_DEAD_LETTER_STATE"))
      else if exists r :: 0 <= r < |s.requests| && s.requests[r].event == n && s.requests[r].decision == Undecided then (s, Refused("23505"))
      else (s.(requests := s.requests + [Request(n, tenant, maker, None, Undecided)]), Done)
    case DecideReplay(r, checker, approve, now) =>
      if r >= |s.requests| then (s, Refused("INVALID_DEAD_LETTER_STATE")) else Decide(s, r, checker, approve, now)
  }

  const INITIAL: State := State([], [], map[], [], [])

  /** The state after a run from the empty outbox. */
  function Run(sha: Sha, actions: seq<Action>): State {
    if actions == [] then INITIAL
    else Step(sha, Run(sha, actions[..|actions| - 1]), actions[|actions| - 1]).0
  }

  // ----- what every step keeps -----

  /** An event past PENDING has only published events before it in its aggregate. */
  ghost predicate Chained(rows: seq<Event>) {
    forall n :: 0 <= n < |rows| && rows[n].status != PENDING ==> Ready(rows, n)
  }

  ghost predicate RowsGood(sha: Sha, rows: seq<Event>) {
    && Chained(rows)
    && forall n :: 0 <= n < |rows| ==>
      (rows[n].status == CLAIMED <==> rows[n].claimedBy.Some?) && rows[n].payloadHash == sha(rows[n].payload)
  }

  ghost predicate TicketsGood(s: State) {
    forall t :: 0 <= t < |s.tickets| ==>
      && s.tickets[t].event < |s.rows| && Ready(s.rows, s.tickets[t].event)
      && (s.tickets[t].delivered ==> s.tickets[t].event in s.inbox)
  }

  ghost predicate InboxGood(s: State) {
    && (forall n :: n in s.inbox <==> n in s.handled)
    && (forall n :: n in s.inbox ==> n < |s.rows| && s.inbox[n] == s.rows[n].payloadHash && Ready(s.rows, n))
    && (forall n :: 0 <= n < |s.rows| && s.rows[n].status == PUBLISHED ==> n in s.inbox)
  }

  /** Handled once each, and in enqueue order within an aggregate. */
  ghost predicate HandledInOrder(rows: seq<Event>, handled: seq<nat>) {
    && (forall p :: 0 <= p < |handled| ==> handled[p] < |rows|)
    && forall p, q :: 0 <= p < q < |handled| ==>
      handled[p] != handled[q] && (SameAggregate(rows[handled[p]], rows[handled[q]]) ==> handled[p] < handled[q])
  }

  /** Executed replay requests of an event. */
  function Executions(requests: seq<Request>, n: nat): nat {
    if requests == [] then 0
    else
      var last := requests[|requests| - 1];
      Executions(requests[..|requests| - 1], n) + if last.event == n && last.decision == Executed then 1 else 0
  }

  ghost predicate RequestsGood(s: State) {
    && (forall r :: 0 <= r < |s.requests| ==>
      && s.requests[r].event < |s.rows|
      && (s.requests[r].decision == Undecided <==> s.requests[r].checker.None?)
      && s.requests[r].checker != Some(s.requests[r].maker)
      && (s.requests[r].decision == Undecided ==> s.rows[s.requests[r].event].status == DEAD))
    && (forall r, q :: 0 <= r < q < |s.requests| && s.requests[r].decision == Undecided && s.requests[q].decision == Undecided ==>
      s.requests[r].event != s.requests[q].event)
    && forall n :: 0 <= n < |s.rows| ==> s.rows[n].replays == Executions(s.requests, n)
  }

  ghost predicate Inv(sha: Sha, s: State) {
    RowsGood(sha, s.rows) && TicketsGood(s) && InboxGood(s) && HandledInOrder(s.rows, s.handled) && RequestsGood(s)
  }

  /** What later rows keep of earlier ones: identity, and being published. */
  ghost predicate Extends(rows: seq<Event>, later: seq<Event>) {
    && |rows| <= |later|
    && forall n :: 0 <= n < |rows| ==>
      && SameAggregate(rows[n], later[n]) && later[n].payloadHash == rows[n].payloadHash && later[n].payload == rows[n].payload
      && (rows[n].status == PUBLISHED ==> later[n].status == PUBLISHED)
  }

  lemma StaysReady(rows: seq<Event>, later: seq<Event>, n: nat)
    requires Extends(rows, later) && n < |rows| && Ready(rows, n)
    ensures Ready(later, n)
  {
    forall p | 0 <= p < n && SameAggregate(later[p], later[n]) ensures later[p].status == PUBLISHED {
      assert SameAggregate(rows[p], later[p]) && SameAggregate(rows[n], later[n]);
    }
  }

  /** Rows that only gain events or change into states their position allows keep everything about rows, tickets and inbox. */
  lemma RowsAdvance(sha: Sha, s: State, later: State)
    requires Inv(sha, s) && Extends(s.rows, later.rows)
    requires later.tickets == s.tickets && later.inbox == s.inbox && later.handled == s.handled
    requires forall n :: 0 <= n < |later.rows| ==>
      && later.rows[n].payloadHash == sha(later.rows[n].payload)
      && (later.rows[n].status == CLAIMED <==> later.rows[n].claimedBy.Some?)
      && (later.rows[n].status != PENDING ==> n < |s.rows| && Ready(s.rows, n))
      && (later.rows[n].status == PUBLISHED ==> n in s.inbox)
    ensures RowsGood(sha, later.rows) && TicketsGood(later) && InboxGood(later) && HandledInOrder(later.rows, later.handled)
  {
    hide Ready;
    forall n | 0 <= n < |s.rows| && Ready(s.rows, n) ensures Ready(later.rows, n) {
      StaysReady(s.rows, later.rows, n);
    }
  }

  lemma {:induction false} ExecutionsNone(requests: seq<Request>, n: nat)
    requires forall r :: 0 <= r < |requests| ==> requests[r].event != n
    ensures Executions(requests, n) == 0
  {
    if requests != [] {
      ExecutionsNone(requests[..|requests| - 1], n);
    }
  }

  lemma {:induction false} ExecutionsUpdate(requests: seq<Request>, r: nat, q: Request, n: nat)
    requires r < |requests| && requests[r].event == q.event && requests[r].decision == Undecided
    ensures Executions(requests[r := q], n) == Executions(requests, n) + if q.event == n && q.decision == Executed then 1 else 0
  {
    var front := requests[..|requests| - 1];
    if r < |front| {
      ExecutionsUpdate(front, r, q, n);
      assert requests[r := q][..|requests| - 1] == front[r := q];
    } else {
      assert requests[r := q][..|requests| - 1] == front;
    }
  }

  lemma EnqueueKeeps(sha: Sha, s: State, a: Action)
    requires Inv(sha, s) && a.Enqueue?
    ensures Inv(sha, Step(sha, s, a).0)
  {
    hide Executions;
    var next := Step(sha, s, a).0;
    RowsAdvance(sha, s, next);
    ExecutionsNone(s.requests, |s.rows|);
  }

  lemma ClaimedRowsGood(sha: Sha, s: State, picks: seq<nat>, worker: string, leaseMs: int, now: int)
    requires Inv(sha, s)
    requires forall k :: 0 <= k < |picks| ==> picks[k] < |s.rows| && Ready(s.rows, picks[k]) && s.rows[picks[k]].status != PUBLISHED && s.rows[picks[k]].status != DEAD
    ensures var next := s.(rows := ClaimedRows(s.rows, picks, worker, leaseMs, now));
      Inv(sha, next) && Extends(s.rows, next.rows)
  {
    hide Executions, Ready, Picks;
    var next := s.(rows := ClaimedRows(s.rows, picks, worker, leaseMs, now));
    assert forall n :: n in picks ==> Ready(s.rows, n) && s.rows[n].status != PUBLISHED && s.rows[n].status != DEAD;
    RowsAdvance(sha, s, next);
    hide RowsGood, TicketsGood, InboxGood, HandledInOrder, Extends;
    assert RequestsGood(next);
  }

  lemma TicketsAside(s: State, next: State)
    requires next == s.(tickets := next.tickets)
    ensures InboxGood(s) ==> InboxGood(next)
    ensures RequestsGood(s) ==> RequestsGood(next)
  {
    hide Ready, Executions;
  }

  lemma ClaimKeeps(sha: Sha, s: State, a: Action)
    requires Inv(sha, s) && a.Claim?
    ensures Inv(sha, Step(sha, s, a).0)
  {
    hide Executions, Ready, Picks, RowsGood, InboxGood, HandledInOrder, RequestsGood, Extends, ClaimedRows;
    var next := Step(sha, s, a).0;
    var picks := Picks(s.rows, |s.rows|, a.scope, a.limit, a.now, a.locked);
    ClaimedRowsGood(sha, s, picks, a.worker, a.leaseMs, a.now);
    forall k | 0 <= k < |picks| ensures Ready(next.rows, picks[k]) {
      StaysReady(s.rows, next.rows, picks[k]);
    }
    TicketsAside(s.(rows := next.rows), next);
  }

  /** Handling an event whose predecessors are published puts it after them and before nothing of its aggregate. */
  lemma HandleKeeps(sha: Sha, s: State, n: nat)
    requires Inv(sha, s) && n < |s.rows| && Ready(s.rows, n) && n !in s.inbox
    ensures var next := s.(inbox := s.inbox[n := s.rows[n].payloadHash], handled := s.handled + [n]);
      InboxGood(next) && HandledInOrder(next.rows, next.handled)
  {
    var next := s.(inbox := s.inbox[n := s.rows[n].payloadHash], handled := s.handled + [n]);
    forall p | 0 <= p < |s.handled| && SameAggregate(s.rows[s.handled[p]], s.rows[n]) ensures s.handled[p] < n {
      var m := s.handled[p];
      assert m in s.inbox && Ready(s.rows, m);
    }
    assert forall m :: m in next.handled <==> m in s.handled || m == n;
  }

  lemma RequestsAside(s: State, next: State)
    requires RequestsGood(s) && next.rows == s.rows && next.requests == s.requests
    ensures RequestsGood(next)
  {
    hide Executions;
  }

  lemma DeliverKeeps(sha: Sha, s: State, a: Action)
    requires Inv(sha, s) && a.Deliver?
    ensures Inv(sha, Step(sha, s, a).0)
    ensures !Step(sha, s, a).1.Refused?
  {
    hide Executions, Ready, RequestsGood, HandledInOrder, Chained;
    var next := Step(sha, s, a).0;
    if a.ticket < |s.tickets| {
      var n := s.tickets[a.ticket].event;
      if n !in s.inbox {
        HandleKeeps(sha, s, n);
        hide InboxGood;
        assert TicketsGood(next);
      }
      RequestsAside(s, next);
    }
  }

  lemma MarkKeeps(sha: Sha, s: State, a: Action)
    requires Inv(sha, s) && (a.MarkPublished? || a.MarkFailed?)
    ensures Inv(sha, Step(sha, s, a).0)
  {
    hide Executions, Ready;
    var (next, reply) := Step(sha, s, a);
    if reply == Done {
      RowsAdvance(sha, s, next);
    }
  }

  lemma ProposeKeeps(sha: Sha, s: State, a: Action)
    requires Inv(sha, s) && a.ProposeReplay?
    ensures Inv(sha, Step(sha, s, a).0)
  {
    hide Ready;
    var (next, reply) := Step(sha, s, a);
    if reply == Done {
      assert next.requests[..|s.requests|] == s.requests;
    }
  }

  lemma DecideKeeps(sha: Sha, s: State, a: Action)
    requires Inv(sha, s) && a.DecideReplay?
    ensures Inv(sha, Step(sha, s, a).0)
  {
    hide Executions, Ready;
    var (next, reply) := Step(sha, s, a);
    if reply == Done {
      RowsAdvance(sha, s, next);
      var q := next.requests[a.request];
      forall n | 0 <= n < |s.rows| ensures next.rows[n].replays == Executions(next.requests, n) {
        ExecutionsUpdate(s.requests, a.request, q, n);
      }
    }
  }

  lemma StepKeeps(sha: Sha, s: State, a: Action)
    requires Inv(sha, s)
    ensures Inv(sha, Step(sha, s, a).0)
  {
    hide Inv, Step;
    match a
    case Enqueue(_, _, _, _) => EnqueueKeeps(sha, s, a);
    case Claim(_, _, _, _, _, _) => ClaimKeeps(sha, s, a);
    case Deliver(_, _) => DeliverKeeps(sha, s, a);
    case MarkPublished(_, _) => MarkKeeps(sha, s, a);
    case MarkFailed(_, _, _, _) => MarkKeeps(sha, s, a);
    case ProposeReplay(_, _, _) => ProposeKeeps(sha, s, a);
    case DecideReplay(_, _, _, _) => DecideKeeps(sha, s, a);
  }

  lemma {:induction false} RunKeeps(sha: Sha, actions: seq<Action>)
    ensures Inv(sha, Run(sha, actions))
  {
    hide Step;
    if actions != [] {
      RunKeeps(sha, actions[..|actions| - 1]);
      StepKeeps(sha, Run(sha, actions[..|actions| - 1]), actions[|actions| - 1]);
    }
  }

  // ----- the theorems -----

  /** The members of `ns` that belong to an aggregate, in order. */
  function Of(rows: seq<Event>, tenant: string, aggregate: string, ns: seq<nat>): seq<nat> {
    if ns == [] then []
    else
      var n := ns[|ns| - 1];
      Of(rows, tenant, aggregate, ns[..|ns| - 1])
        + if n < |rows| && rows[n].tenant == tenant && rows[n].aggregate == aggregate then [n] else []
  }

  function Positions(n: nat): (r: seq<nat>)
    ensures |r| == n && forall i :: 0 <= i < n ==> r[i] == i
  {
    seq(n, i => i)
  }

  /** An aggregate's events in enqueue order. */
  function EventsOf(s: State, tenant: string, aggregate: string): seq<nat> {
    Of(s.rows, tenant, aggregate, Positions(|s.rows|))
  }

  /** The handler effects of an aggregate in the order they happened. */
  function EffectsOf(s: State, tenant: string, aggregate: string): seq<nat> {
    Of(s.rows, tenant, aggregate, s.handled)
  }

  predicate Belongs(rows: seq<Event>, tenant: string, aggregate: string, n: nat) {
    n < |rows| && rows[n].tenant == tenant && rows[n].aggregate == aggregate
  }

  predicate Rising(ns: seq<nat>) {
    forall i, j :: 0 <= i < j < |ns| ==> ns[i] < ns[j]
  }

  lemma {:induction false} OfProperties(rows: seq<Event>, tenant: string, aggregate: string, ns: seq<nat>)
    requires forall p, q :: 0 <= p < q < |ns| && Belongs(rows, tenant, aggregate, ns[p]) && Belongs(rows, tenant, aggregate, ns[q]) ==> ns[p] < ns[q]
    ensures Rising(Of(rows, tenant, aggregate, ns))
    ensures forall n :: n in Of(rows, tenant, aggregate, ns) <==> n in ns && Belongs(rows, tenant, aggregate, n)
  {
    if ns != [] {
      var front, n := ns[..|ns| - 1], ns[|ns| - 1];
      OfProperties(rows, tenant, aggregate, front);
      assert ns == front + [n];
      var r := Of(rows, tenant, aggregate, front);
      forall i | 0 <= i < |r| && Belongs(rows, tenant, aggregate, n) ensures r[i] < n {
        assert r[i] in front;
        var p :| 0 <= p < |front| && front[p] == r[i];
        assert ns[p] == r[i];
      }
    }
  }

  lemma TailMembers(xs: seq<nat>)
    requires xs != [] && Rising(xs)
    ensures Rising(xs[1..]) && forall x :: x in xs[1..] <==> x in xs && x > xs[0]
  {
    assert xs == [xs[0]] + xs[1..];
    forall x | x in xs[1..] ensures x > xs[0] {
      var i :| 0 <= i < |xs[1..]| && xs[1..][i] == x;
      assert xs[i + 1] == x;
    }
  }

  lemma SameHead(xs: seq<nat>, ys: seq<nat>)
    requires Rising(xs) && Rising(ys) && xs != []
    requires xs[0] in ys
    requires forall y :: y in ys && y < xs[0] ==> y in xs
    ensures xs[0] == ys[0]
  {
    HeadIsLeast(xs);
    HeadIsLeast(ys);
    assert ys[0] in ys;
  }

  lemma HeadIsLeast(xs: seq<nat>)
    requires Rising(xs)
    ensures forall x :: x in xs ==> xs[0] <= x
  {
  }

  /** A rising selection that contains everything below its members is a prefix. */
  lemma {:induction false} DownClosedIsPrefix(xs: seq<nat>, ys: seq<nat>)
    requires Rising(xs) && Rising(ys)
    requires forall x :: x in xs ==> x in ys
    requires forall x, y :: x in xs && y in ys && y < x ==> y in xs
    ensures |xs| <= |ys| && xs == ys[..|xs|]
  {
    if xs != [] {
      assert xs[0] in xs;
      SameHead(xs, ys);
      TailMembers(xs);
      TailMembers(ys);
      assert xs == [xs[0]] + xs[1..] && ys == [ys[0]] + ys[1..];
      DownClosedIsPrefix(xs[1..], ys[1..]);
    }
  }

  /** How many of an aggregate's leading events are published. */
  function PublishedPrefix(rows: seq<Event>, events: seq<nat>): (k: nat)
    ensures k <= |events|
    ensures forall i :: 0 <= i < k ==> events[i] < |rows| && rows[events[i]].status == PUBLISHED
    ensures k < |events| ==> !(events[k] < |rows| && rows[events[k]].status == PUBLISHED)
  {
    if events != [] && events[0] < |rows| && rows[events[0]].status == PUBLISHED then 1 + PublishedPrefix(rows, events[1..]) else 0
  }

  /**
   Under any interleaving, an aggregate's events are a published prefix, then at most
   one event in flight, failed or dead, then only pending events. The handler has run
   once for each event of the prefix, in enqueue order, and for at most the next one.
   */
  lemma AggregateOrder(sha: Sha, actions: seq<Action>, tenant: string, aggregate: string)
    ensures var s := Run(sha, actions);
      var events := EventsOf(s, tenant, aggregate);
      var k := PublishedPrefix(s.rows, events);
      var effects := EffectsOf(s, tenant, aggregate);
      && Rising(events) && (forall n: nat :: n in events <==> Belongs(s.rows, tenant, aggregate, n))
      && (forall i :: k < i < |events| ==> events[i] < |s.rows| && s.rows[events[i]].status == PENDING)
      && k <= |effects| <= k + 1 && |effects| <= |events| && effects == events[..|effects|]
  {
    hide Run, PublishedPrefix, RowsGood, TicketsGood, InboxGood, RequestsGood;
    var s := Run(sha, actions);
    RunKeeps(sha, actions);
    var events, effects := EventsOf(s, tenant, aggregate), EffectsOf(s, tenant, aggregate);
    OfProperties(s.rows, tenant, aggregate, Positions(|s.rows|));
    forall n: nat | Belongs(s.rows, tenant, aggregate, n) ensures n in events {
      assert Positions(|s.rows|)[n] == n;
    }
    OfProperties(s.rows, tenant, aggregate, s.handled);
    EffectsAreAPrefix(sha, s, tenant, aggregate, events, effects);
    ShapeOfEvents(sha, s, tenant, aggregate, events, effects);
  }

  /** `events` are the aggregate's rows in order and `effects` those of them that were handled. */
  ghost predicate Selected(s: State, tenant: string, aggregate: string, events: seq<nat>, effects: seq<nat>) {
    && Rising(events) && Rising(effects)
    && (forall n: nat :: n in events <==> Belongs(s.rows, tenant, aggregate, n))
    && (forall n: nat :: n in effects <==> n in s.handled && Belongs(s.rows, tenant, aggregate, n))
  }

  lemma EffectsAreAPrefix(sha: Sha, s: State, tenant: string, aggregate: string, events: seq<nat>, effects: seq<nat>)
    requires Inv(sha, s) && Selected(s, tenant, aggregate, events, effects)
    ensures |effects| <= |events| && effects == events[..|effects|]
  {
    hide RowsGood, RequestsGood, TicketsGood, HandledInOrder;
    forall x, y | x in effects && y in events && y < x ensures y in effects {
      assert x in s.inbox && Ready(s.rows, x);
      assert SameAggregate(s.rows[y], s.rows[x]);
    }
    DownClosedIsPrefix(effects, events);
  }

  /** Nothing past the first unpublished event of an aggregate is ready. */
  lemma BeyondThePrefix(s: State, tenant: string, aggregate: string, events: seq<nat>, effects: seq<nat>, k: nat, i: nat)
    requires Selected(s, tenant, aggregate, events, effects) && k < i < |events|
    requires events[k] < |s.rows| && s.rows[events[k]].status != PUBLISHED
    ensures events[i] < |s.rows| && !Ready(s.rows, events[i])
  {
    assert events[i] in events && events[k] in events && events[k] < events[i];
    assert SameAggregate(s.rows[events[k]], s.rows[events[i]]);
  }

  lemma ShapeOfEvents(sha: Sha, s: State, tenant: string, aggregate: string, events: seq<nat>, effects: seq<nat>)
    requires Inv(sha, s) && Selected(s, tenant, aggregate, events, effects)
    requires |effects| <= |events| && effects == events[..|effects|]
    ensures var k := PublishedPrefix(s.rows, events);
      && (forall i :: k < i < |events| ==> events[i] < |s.rows| && s.rows[events[i]].status == PENDING)
      && k <= |effects| <= k + 1
  {
    hide Ready, TicketsGood, HandledInOrder, RequestsGood, PublishedPrefix;
    var k := PublishedPrefix(s.rows, events);
    forall i | k < i < |events| ensures events[i] < |s.rows| && s.rows[events[i]].status == PENDING && events[i] !in s.handled {
      assert events[k] in events;
      BeyondThePrefix(s, tenant, aggregate, events, effects, k, i);
      assert events[i] !in s.inbox;
    }
    EffectAt(s, tenant, aggregate, events, effects, k + 1);
    assert |effects| <= k + 1;
    forall i | 0 <= i < k ensures events[i] in effects {
      assert events[i] in events && events[i] in s.inbox;
    }
    NotBefore(events, |effects|);
  }

  lemma EffectAt(s: State, tenant: string, aggregate: string, events: seq<nat>, effects: seq<nat>, i: nat)
    requires Selected(s, tenant, aggregate, events, effects) && |effects| <= |events| && effects == events[..|effects|]
    ensures i < |effects| ==> events[i] == effects[i] && effects[i] in s.handled
  {
    assert i < |effects| ==> effects[i] in effects;
  }

  /** A rising list does not repeat an element among those before it. */
  lemma NotBefore(ns: seq<nat>, m: nat)
    requires Rising(ns) && m <= |ns|
    ensures m < |ns| ==> ns[m] !in ns[..m]
  {
  }

  /** No run makes the consumer see a reused identifier or a tampered payload, nor an approval find its event not dead. */
  lemma NoFalseAlarms(sha: Sha, actions: seq<Action>, a: Action)
    ensures a.Deliver? ==> !Step(sha, Run(sha, actions), a).1.Refused?
    ensures var s := Run(sha, actions);
      a.DecideReplay? && a.request < |s.requests| && s.requests[a.request].decision == Undecided && a.checker != s.requests[a.request].maker
      ==> Step(sha, s, a).1 == Done
  {
    RunKeeps(sha, actions);
    if a.Deliver? {
      DeliverKeeps(sha, Run(sha, actions), a);
    }
  }

  /** A dead letter is replayed once per executed request, each decided by someone other than its maker. */
  lemma ReplaysAreApproved(sha: Sha, actions: seq<Action>, n: nat)
    ensures var s := Run(sha, actions);
      n < |s.rows| ==> s.rows[n].replays == Executions(s.requests, n)
    ensures var s := Run(sha, actions);
      forall r :: 0 <= r < |s.requests| && s.requests[r].decision == Executed ==> s.requests[r].checker.Some? && s.requests[r].checker.value != s.requests[r].maker
  {
    RunKeeps(sha, actions);
  }

  /** A dead event changes only through an approved replay, which makes it available at once, and a published one never again. */
  lemma DeadUntilReplayed(sha: Sha, s: State, a: Action, n: nat)
    requires Inv(sha, s) && n < |s.rows|
    ensures var (next, reply) := Step(sha, s, a);
      && (s.rows[n].status == PUBLISHED ==> next.rows[n] == s.rows[n])
      && (s.rows[n].status == DEAD && next.rows[n] != s.rows[n] ==>
          a.DecideReplay? && a.approve && a.request < |s.requests| && s.requests[a.request].event == n
          && a.checker != s.requests[a.request].maker && next.rows[n].status == PENDING && next.rows[n].attempts == 0
          && next.rows[n].availableAt == a.now && next.rows[n].replays == s.rows[n].replays + 1)
  {
    hide Executions, Ready;
  }

  /** A claim of row n while its attempts already stand at the limit. */
  predicate OverClaims(s: State, a: Action, n: nat, limit: nat) {
    a.Claim? && n < |s.rows| && s.rows[n].attempts == limit && n in Picks(s.rows, |s.rows|, a.scope, a.limit, a.now, a.locked)
  }

  /** Exactly the steps that take a row's attempts past a limit: claims of a row that already stands at it. */
  lemma ExceedsIff(sha: Sha, s: State, a: Action, n: nat, limit: nat)
    requires Inv(sha, s) && n < |s.rows| && s.rows[n].attempts <= limit
    ensures Step(sha, s, a).0.rows[n].attempts > limit <==> OverClaims(s, a, n, limit)
  {
    hide Executions, Ready, Picks;
  }

  /** The attempts a row shows, none before it exists. */
  function AttemptsOf(s: State, n: nat): nat {
    if n < |s.rows| then s.rows[n].attempts else 0
  }

  lemma StepRows(sha: Sha, s: State, a: Action, n: nat)
    requires Inv(sha, s)
    ensures |s.rows| <= |Step(sha, s, a).0.rows|
    ensures n >= |s.rows| ==> AttemptsOf(Step(sha, s, a).0, n) == 0
  {
    hide Executions, Ready, Picks;
  }

  /** Row n never shows more attempts than the limit, in any state of the run. */
  ghost predicate WithinLimit(sha: Sha, actions: seq<Action>, n: nat, limit: nat) {
    forall i :: 0 <= i <= |actions| ==> AttemptsOf(Run(sha, actions[..i]), n) <= limit
  }

  /** No claim in the run takes row n while it stands at the limit. */
  ghost predicate NeverOverClaimed(sha: Sha, actions: seq<Action>, n: nat, limit: nat) {
    forall i :: 0 <= i < |actions| ==> !OverClaims(Run(sha, actions[..i]), actions[i], n, limit)
  }

  lemma WithinLimitSplits(sha: Sha, actions: seq<Action>, n: nat, limit: nat)
    requires actions != []
    ensures WithinLimit(sha, actions, n, limit) <==>
      WithinLimit(sha, actions[..|actions| - 1], n, limit) && AttemptsOf(Run(sha, actions), n) <= limit
  {
    hide Run, AttemptsOf;
    var front := actions[..|actions| - 1];
    if WithinLimit(sha, actions, n, limit) {
      forall i | 0 <= i <= |front| ensures AttemptsOf(Run(sha, front[..i]), n) <= limit {
        assert front[..i] == actions[..i];
      }
      assert actions[..|actions|] == actions;
    }
    if WithinLimit(sha, front, n, limit) && AttemptsOf(Run(sha, actions), n) <= limit {
      forall i | 0 <= i <= |actions| ensures AttemptsOf(Run(sha, actions[..i]), n) <= limit {
        if i < |actions| {
          assert front[..i] == actions[..i];
        } else {
          assert actions[..i] == actions;
        }
      }
    }
  }

  lemma NeverOverClaimedSplits(sha: Sha, actions: seq<Action>, n: nat, limit: nat)
    requires actions != []
    ensures var m := |actions| - 1;
      NeverOverClaimed(sha, actions, n, limit) <==>
      NeverOverClaimed(sha, actions[..m], n, limit) && !OverClaims(Run(sha, actions[..m]), actions[m], n, limit)
  {
    hide Run, OverClaims;
    var m := |actions| - 1;
    var front := actions[..m];
    if NeverOverClaimed(sha, actions, n, limit) {
      forall i | 0 <= i < m ensures !OverClaims(Run(sha, front[..i]), front[i], n, limit) {
        assert front[..i] == actions[..i];
      }
    }
    if NeverOverClaimed(sha, front, n, limit) && !OverClaims(Run(sha, front), actions[m], n, limit) {
      forall i | 0 <= i < |actions| ensures !OverClaims(Run(sha, actions[..i]), actions[i], n, limit) {
        if i < m {
          assert front[..i] == actions[..i] && front[i] == actions[i];
        }
      }
    }
  }

  /** Over a whole run attempts stay within a limit exactly when no claim ever takes the row while it stands at it. */
  lemma {:induction false} AttemptsWithinLimitIff(sha: Sha, actions: seq<Action>, n: nat, limit: nat)
    ensures WithinLimit(sha, actions, n, limit) <==> NeverOverClaimed(sha, actions, n, limit)
    decreases |actions|
  {
    if actions == [] {
      assert actions[..0] == [];
      NothingAttempted(sha, n);
    } else {
      hide *;
      var front := actions[..|actions| - 1];
      AttemptsWithinLimitIff(sha, front, n, limit);
      WithinLimitSplits(sha, actions, n, limit);
      NeverOverClaimedSplits(sha, actions, n, limit);
      if WithinLimit(sha, front, n, limit) {
        WithinAtTheEnd(sha, front, n, limit);
        LastAttempt(sha, actions, n, limit);
      }
    }
  }

  lemma WithinAtTheEnd(sha: Sha, actions: seq<Action>, n: nat, limit: nat)
    requires WithinLimit(sha, actions, n, limit)
    ensures AttemptsOf(Run(sha, actions), n) <= limit
  {
    hide Run, AttemptsOf;
    assert actions[..|actions|] == actions;
  }

  lemma NothingAttempted(sha: Sha, n: nat)
    ensures AttemptsOf(Run(sha, []), n) == 0
  {
  }

  lemma RunSplits(sha: Sha, actions: seq<Action>)
    requires actions != []
    ensures Run(sha, actions) == Step(sha, Run(sha, actions[..|actions| - 1]), actions[|actions| - 1]).0
  {
  }

  lemma LastAttempt(sha: Sha, actions: seq<Action>, n: nat, limit: nat)
    requires actions != [] && AttemptsOf(Run(sha, actions[..|actions| - 1]), n) <= limit
    ensures AttemptsOf(Run(sha, actions), n) > limit <==> OverClaims(Run(sha, actions[..|actions| - 1]), actions[|actions| - 1], n, limit)
  {
    var s, a := Run(sha, actions[..|actions| - 1]), actions[|actions| - 1];
    hide *;
    RunKeeps(sha, actions[..|actions| - 1]);
    RunSplits(sha, actions);
    OneAttempt(sha, s, a, n, limit);
  }

  lemma OneAttempt(sha: Sha, s: State, a: Action, n: nat, limit: nat)
    requires Inv(sha, s) && AttemptsOf(s, n) <= limit
    ensures AttemptsOf(Step(sha, s, a).0, n) > limit <==> OverClaims(s, a, n, limit)
  {
    hide Step, Inv, Picks;
    StepRows(sha, s, a, n);
    if n < |s.rows| {
      ExceedsIff(sha, s, a, n, limit);
    }
  }

  /** A worker's claim on row n that its guard still accepts. */
  predicate Marks(s: State, a: Action, n: nat) {
    a.MarkFailed? && a.ticket < |s.tickets| && s.tickets[a.ticket].event == n && n < |s.rows|
    && Owned(s.rows[n], s.tickets[a.ticket].worker, a.now)
  }

  /** Exactly the steps that dead-letter a row: an accepted failure mark whose own claim was at the limit. */
  lemma DeadLettersIff(sha: Sha, s: State, a: Action, n: nat)
    requires Inv(sha, s) && n < |s.rows| && s.rows[n].status != DEAD
    ensures Step(sha, s, a).0.rows[n].status == DEAD <==> Kills(s, a, n)
  {
    hide Executions, Ready, Picks;
  }

  /** A failure mark of row n that its guard accepts, from a claim that had reached the maximum. */
  predicate Kills(s: State, a: Action, n: nat) {
    Marks(s, a, n) && s.tickets[a.ticket].attempts >= a.maxAttempts
  }

  predicate SameRow(s: State, t: State, n: nat) {
    n < |s.rows| && n < |t.rows| && s.rows[n] == t.rows[n]
  }

  /** The call at position i dead-letters row n, and nothing changes the row after it. */
  ghost predicate KilledAt(sha: Sha, actions: seq<Action>, i: nat, n: nat) {
    && i < |actions|
    && Kills(Run(sha, actions[..i]), actions[i], n)
    && SameRow(Run(sha, actions[..i + 1]), Run(sha, actions), n)
  }

  /**
   In every run a dead event was killed by one accepted failure mark of a worker that
   still held it, from a claim that had reached the given maximum, and stands as that
   mark left it; no crash, lapse or stale worker brings an event there.
   */
  lemma {:induction false} DeadByItsMark(sha: Sha, actions: seq<Action>, n: nat)
    requires n < |Run(sha, actions).rows| && Run(sha, actions).rows[n].status == DEAD
    ensures exists i: nat :: KilledAt(sha, actions, i, n)
    decreases |actions|
  {
    hide Step, Inv, Kills;
    RunEmpty(sha);
    var m := |actions| - 1;
    var front := actions[..m];
    var s := Run(sha, front);
    RunKeeps(sha, front);
    StepRows(sha, s, actions[m], n);
    assert actions[..m + 1] == actions;
    if n < |s.rows| && s.rows[n].status == DEAD {
      DeadByItsMark(sha, front, n);
      var i: nat :| KilledAt(sha, front, i, n);
      assert front[..i] == actions[..i] && front[..i + 1] == actions[..i + 1];
      StaysDead(sha, s, actions[m], n);
      assert KilledAt(sha, actions, i, n);
    } else {
      NewlyDead(sha, s, actions[m], n);
      assert KilledAt(sha, actions, m, n);
    }
  }

  lemma RunEmpty(sha: Sha)
    ensures Run(sha, []) == INITIAL
  {
  }

  lemma StaysDead(sha: Sha, s: State, a: Action, n: nat)
    requires Inv(sha, s) && n < |s.rows| && s.rows[n].status == DEAD
    requires n < |Step(sha, s, a).0.rows| && Step(sha, s, a).0.rows[n].status == DEAD
    ensures Step(sha, s, a).0.rows[n] == s.rows[n]
  {
    hide Step, Inv;
    DeadUntilReplayed(sha, s, a, n);
  }

  lemma NewlyDead(sha: Sha, s: State, a: Action, n: nat)
    requires Inv(sha, s) && (n < |s.rows| ==> s.rows[n].status != DEAD)
    requires n < |Step(sha, s, a).0.rows| && Step(sha, s, a).0.rows[n].status == DEAD
    ensures Kills(s, a, n)
  {
    if n < |s.rows| {
      DeadLettersIff(sha, s, a, n);
    } else {
      NewRows(sha, s, a, n);
    }
    hide Step, Inv;
  }

  lemma NewRows(sha: Sha, s: State, a: Action, n: nat)
    requires Inv(sha, s)
    ensures |s.rows| <= n < |Step(sha, s, a).0.rows| ==> Step(sha, s, a).0.rows[n].status == PENDING
  {
    hide Executions, Ready, Picks;
  }

  /** The two ways a row can stand at the limit and be claimed again: its lease ran out, or a stale claim's failure was recorded for it. */
  predicate LeaseLapses(s: State, a: Action, n: nat, limit: nat) {
    OverClaims(s, a, n, limit) && s.rows[n].status == CLAIMED && s.rows[n].leaseUntil <= a.now
  }

  predicate StaleMark(s: State, a: Action, n: nat, limit: nat) {
    Marks(s, a, n) && s.rows[n].attempts == limit && s.tickets[a.ticket].attempts < limit
  }

  /** Every failure mark in the run uses the same limit, and no claim or mark of row n is one of the two leaks. */
  ghost predicate NoLeak(sha: Sha, actions: seq<Action>, n: nat, limit: nat) {
    forall i :: 0 <= i < |actions| ==>
      && (actions[i].MarkFailed? ==> actions[i].maxAttempts == limit)
      && !LeaseLapses(Run(sha, actions[..i]), actions[i], n, limit)
      && !StaleMark(Run(sha, actions[..i]), actions[i], n, limit)
  }

  /** At the limit a row is held by a worker or finished; a pending row has no attempts. */
  ghost predicate AtLimitHeld(s: State, n: nat, limit: nat) {
    n < |s.rows| ==>
      && s.rows[n].attempts <= limit
      && (s.rows[n].status == PENDING ==> s.rows[n].attempts == 0)
      && (s.rows[n].attempts == limit ==> s.rows[n].status == CLAIMED || s.rows[n].status == DEAD || s.rows[n].status == PUBLISHED)
  }

  lemma StepStaysWithinLimit(sha: Sha, s: State, a: Action, n: nat, limit: nat)
    requires Inv(sha, s) && AtLimitHeld(s, n, limit) && limit > 0
    requires a.MarkFailed? ==> a.maxAttempts == limit
    requires !LeaseLapses(s, a, n, limit) && !StaleMark(s, a, n, limit)
    ensures AtLimitHeld(Step(sha, s, a).0, n, limit)
  {
    hide Executions, Ready, Picks;
  }

  /** Without a lapsed lease at the limit and without a stale failure mark there, attempts never exceed the dispatcher's limit. */
  lemma {:induction false} OnlyTwoLeaks(sha: Sha, actions: seq<Action>, n: nat, limit: nat)
    requires limit > 0 && NoLeak(sha, actions, n, limit)
    ensures AttemptsOf(Run(sha, actions), n) <= limit && AtLimitHeld(Run(sha, actions), n, limit)
    decreases |actions|
  {
    hide Step, Inv, LeaseLapses, StaleMark;
    if actions != [] {
      var m := |actions| - 1;
      assert forall i :: 0 <= i <= m ==> actions[..m][..i] == actions[..i];
      OnlyTwoLeaks(sha, actions[..m], n, limit);
      RunKeeps(sha, actions[..m]);
      assert !LeaseLapses(Run(sha, actions[..m]), actions[m], n, limit);
      StepStaysWithinLimit(sha, Run(sha, actions[..m]), actions[m], n, limit);
    }
  }

  /** A published event is the same in every later state of any run. */
  lemma {:induction false} PublishedForever(sha: Sha, actions: seq<Action>, more: seq<Action>, n: nat)
    requires n < |Run(sha, actions).rows| && Run(sha, actions).rows[n].status == PUBLISHED
    ensures n < |Run(sha, actions + more).rows| && Run(sha, actions + more).rows[n] == Run(sha, actions).rows[n]
    decreases |more|
  {
    hide Step, Inv;
    if more == [] {
      assert actions + more == actions;
    } else {
      var front, last := more[..|more| - 1], more[|more| - 1];
      assert (actions + more)[..|actions + more| - 1] == actions + front && (actions + more)[|actions + more| - 1] == last;
      PublishedForever(sha, actions, front, n);
      RunKeeps(sha, actions + front);
      DeadUntilReplayed(sha, Run(sha, actions + front), last, n);
      StepRows(sha, Run(sha, actions + front), last, n);
    }
  }

  /** A worker that dies while holding the lease is never counted as failed: attempts grow without end and no dead letter appears. */
  function CrashingWorker(n: nat): (r: seq<Action>)
    ensures |r| == n + 1
  {
    if n == 0 then [Enqueue("t", "a", "p", 0)] else CrashingWorker(n - 1) + [Claim("w", None, 1, 1, n, {})]
  }

  lemma {:induction false} LeaseExpiryNeverDeadLetters(sha: Sha, n: nat)
    ensures var s := Run(sha, CrashingWorker(n));
      |s.rows| == 1 && s.rows[0].attempts == n && s.rows[0].status == (if n == 0 then PENDING else CLAIMED)
      && s.rows[0].availableAt == 0 && s.rows[0].leaseUntil <= n + 1 && s.handled == []
  {
    var actions := CrashingWorker(n);
    if n == 0 {
      assert actions[..0] == [];
    } else {
      LeaseExpiryNeverDeadLetters(sha, n - 1);
      assert actions[..n] == CrashingWorker(n - 1);
      var s := Run(sha, actions[..n]);
      assert Candidate(s.rows, 0, None, n);
      assert Picks(s.rows, 1, None, 1, n, {}) == Picks(s.rows, 0, None, 1, n, {}) + [0];
    }
  }

  // ----- the store -----

  /** The outbox and inbox tables, with the claims its workers hold. */
  class OutboxStore {
    const sha: Sha
    var rows: seq<Event>
    var tickets: seq<Ticket>
    var inbox: map<nat, string>
    var handled: seq<nat>
    var requests: seq<Request>

    function View(): State
      reads this
    {
      State(rows, tickets, inbox, handled, requests)
    }

    constructor (sha: Sha)
      ensures View() == INITIAL && this.sha == sha
    {
      this.sha := sha;
      rows, tickets, inbox, handled, requests := [], [], map[], [], [];
    }

    method EnqueueOutbox(tenant: string, aggregate: string, payload: string, availableAt: int)
      modifies this
      ensures View() == Step(sha, old(View()), Enqueue(tenant, aggregate, payload, availableAt)).0
    {
      var payloadHash := sha(payload);
      rows := rows + [Event(tenant, aggregate, payload, payloadHash, PENDING, 0, availableAt, None, 0, 0)];
    }

    /** Candidates in enqueue order, up to the limit. */
    method SelectCandidates(scope: Option<string>, limit: nat, now: int, locked: set<nat>) returns (picks: seq<nat>)
      ensures picks == Picks(rows, |rows|, scope, limit, now, locked)
    {
      picks := [];
      for n := 0 to |rows|
        invariant picks == Picks(rows, n, scope, limit, now, locked)
      {
        if |picks| < limit && n !in locked && Candidate(rows, n, scope, now) {
          picks := picks + [n];
        }
      }
    }

    /** Claims every selected event and returns what the worker will remember of it. */
    method ClaimOutboxBatch(worker: string, scope: Option<string>, limit: nat, leaseMs: int, now: int, locked: set<nat>) returns (claimed: seq<Ticket>)
      modifies this
      ensures View() == Step(sha, old(View()), Claim(worker, scope, limit, leaseMs, now, locked)).0
      ensures tickets == old(tickets) + claimed && |claimed| <= limit
      ensures forall k :: 0 <= k < |claimed| ==> claimed[k].attempts > 0
    {
      hide Picks, Candidate;
      var picks := SelectCandidates(scope, limit, now, locked);
      claimed := Tickets(rows, picks, worker);
      ghost var before := rows;
      for k := 0 to |picks|
        invariant (tickets, inbox, handled, requests) == old((tickets, inbox, handled, requests))
        invariant rows == ClaimedRows(before, picks[..k], worker, leaseMs, now)
      {
        var n := picks[k];
        assert picks[..k + 1] == picks[..k] + [n] && n !in picks[..k];
        rows := rows[n := ClaimedRow(rows[n], worker, leaseMs, now)];
      }
      assert picks[..|picks|] == picks;
      tickets := tickets + claimed;
    }

    /** Runs the handler and records the consumption in one transaction, unless the event was consumed before. */
    method ConsumeOutboxOnce(n: nat) returns (reply: Reply)
      requires n < |rows|
      modifies this
      ensures (View(), reply) == ConsumeOnce(sha, old(View()), n)
    {
      var event := rows[n];
      if n in inbox {
        if inbox[n] != event.payloadHash {
          return Refused("INBOX_PAYLOAD_CONFLICT");
        }
        return Duplicate;
      }
      if sha(event.payload) != event.payloadHash {
        return Refused("OUTBOX_PAYLOAD_TAMPERED");
      }
      handled := handled + [n];
      inbox := inbox[n := event.payloadHash];
      return Done;
    }

    /** A worker's publish call through the deduplicating consumer; `seen` when the worker learns that it returned. */
    method Publish(ticket: nat, seen: bool) returns (reply: Reply)
      requires ticket < |tickets| && tickets[ticket].event < |rows|
      modifies this
      ensures (View(), reply) == Step(sha, old(View()), Deliver(ticket, seen))
    {
      reply := ConsumeOutboxOnce(tickets[ticket].event);
      if !reply.Refused? && seen {
        tickets := tickets[ticket := tickets[ticket].(delivered := true)];
      }
    }

    method MarkOutboxPublished(ticket: nat, now: int) returns (reply: Reply)
      requires ticket < |tickets| && tickets[ticket].event < |rows| && tickets[ticket].delivered
      modifies this
      ensures (View(), reply) == Step(sha, old(View()), MarkPublished(ticket, now))
    {
      var n := tickets[ticket].event;
      if rows[n].status == CLAIMED && rows[n].claimedBy == Some(tickets[ticket].worker) && rows[n].leaseUntil > now {
        rows := rows[n := rows[n].(status := PUBLISHED, claimedBy := None, leaseUntil := 0)];
        return Done;
      }
      return Refused("OUTBOX_CLAIM_MISMATCH");
    }

    method MarkOutboxFailed(ticket: nat, maxAttempts: nat, delay: int, now: int) returns (reply: Reply)
      requires ticket < |tickets| && tickets[ticket].event < |rows|
      modifies this
      ensures (View(), reply) == Step(sha, old(View()), MarkFailed(ticket, maxAttempts, delay, now))
    {
      var n := tickets[ticket].event;
      var dead := tickets[ticket].attempts >= maxAttempts;
      if rows[n].status == CLAIMED && rows[n].claimedBy == Some(tickets[ticket].worker) && rows[n].leaseUntil > now {
        var availableAt := if dead then rows[n].availableAt else now + delay;
        rows := rows[n := rows[n].(status := if dead then DEAD else FAILED, availableAt := availableAt, claimedBy := None, leaseUntil := 0)];
        return Done;
      }
      return Refused("OUTBOX_CLAIM_MISMATCH");
    }

    method ProposeDeadLetterReplay(n: nat, tenant: string, maker: string) returns (reply: Reply)
      modifies this
      ensures (View(), reply) == Step(sha, old(View()), ProposeReplay(n, tenant, maker))
    {
      if n >= |rows| || rows[n].status != DEAD || rows[n].tenant != tenant {
        return Refused("INVALID_DEAD_LETTER_STATE");
      }
      if exists r :: 0 <= r < |requests| && requests[r].event == n && requests[r].decision == Undecided {
        return Refused("23505");
      }
      requests := requests + [Request(n, tenant, maker, None, Undecided)];
      return Done;
    }

    method DecideDeadLetterReplay(r: nat, checker: string, approve: bool, now: int) returns (reply: Reply)
      modifies this
      ensures (View(), reply) == Step(sha, old(View()), DecideReplay(r, checker, approve, now))
    {
      if r >= |requests| || requests[r].decision != Undecided {
        return Refused("INVALID_DEAD_LETTER_STATE");
      }
      if requests[r].maker == checker {
        return Refused("MAKER_CHECKER_CONFLICT");
      }
      var n := requests[r].event;
      if approve {
        if n >= |rows| || rows[n].status != DEAD {
          return Refused("INVALID_DEAD_LETTER_STATE");
        }
        rows := rows[n := rows[n].(status := PENDING, attempts := 0, availableAt := now, claimedBy := None, leaseUntil := 0,
          replays := rows[n].replays + 1)];
      }
      requests := requests[r := requests[r].(checker := Some(checker), decision := if approve then Executed else Rejected)];
      return Done;
    }
  }
}
