/**
 The durable prover queue. Every statement that touches the job table is one step, a
 worker may stop between any two of them, and what the prover service, the settlement
 gate and the clock answer is an input. An attempt is one claim together with the row
 it returned, which the worker keeps using after its lease is gone.
 */
module ProverQueue {
  import opened Common

  const MAX_ATTEMPTS: nat := 8

  /** The table's own ceiling on the counter. */
  const ROW_LIMIT: nat := 32

  datatype JobState = QUEUED | SUBMITTING | REMOTE_PENDING | VERIFYING | RETRYABLE | VERIFIED | FAILED

  datatype Lease = Lease(owner: string, until: int)

  datatype Job = Job(transaction: string, state: JobState, external: Option<string>, attempts: nat, polls: nat,
    nextAt: int, lease: Option<Lease>, receipt: Option<string>, lastError: Option<string>)

  /** `attempts` and `external` are the claimed row's; `accepted` is the receipt the worker learnt from the gate. */
  datatype Attempt = Attempt(job: nat, worker: string, attempts: nat, external: Option<string>, accepted: Option<string>, live: bool)

  /** `receipts` maps a transaction to its proof receipt. */
  datatype State = State(jobs: seq<Job>, claims: seq<Attempt>, receipts: map<string, string>)

  datatype Reply = Done | Nothing | Refused(code: string)

  const INITIAL: State := State([], [], map[])

  predicate Leased(j: Job) {
    j.state == SUBMITTING || j.state == VERIFYING
  }

  predicate Terminal(j: Job) {
    j.state == VERIFIED || j.state == FAILED
  }

  predicate RunOut(j: Job, now: int) {
    Leased(j) && j.lease.Some? && j.lease.value.until <= now
  }

  /** Counts a job whose lease has run out as one failed attempt. */
  function ExpireJob(j: Job, now: int): Job {
    if RunOut(j, now) then
      j.(state := if j.attempts + 1 >= MAX_ATTEMPTS then FAILED else RETRYABLE, attempts := j.attempts + 1,
         lease := None, lastError := Some("PROVER_LEASE_EXPIRED"), nextAt := now)
    else j
  }

  function Expire(jobs: seq<Job>, now: int): (r: seq<Job>)
    ensures |r| == |jobs|
  {
    seq(|jobs|, n requires 0 <= n < |jobs| => ExpireJob(jobs[n], now))
  }

  predicate Eligible(j: Job, now: int) {
    && (j.state == QUEUED || j.state == REMOTE_PENDING || j.state == RETRYABLE)
    && j.nextAt <= now && (j.lease.None? || j.lease.value.until <= now)
  }

  /** The unlocked eligible job that is due first, the earlier row when two are due together; |jobs| when none is. */
  function FirstDue(jobs: seq<Job>, n: nat, now: int, locked: set<nat>): (pick: nat)
    requires n <= |jobs|
    ensures pick < n || pick == |jobs|
    ensures pick < n ==> Eligible(jobs[pick], now) && pick !in locked
    ensures forall k :: 0 <= k < n && Eligible(jobs[k], now) && k !in locked ==>
      pick < n && (jobs[pick].nextAt < jobs[k].nextAt || (jobs[pick].nextAt == jobs[k].nextAt && pick <= k))
  {
    if n == 0 then |jobs|
    else
      var best := FirstDue(jobs, n - 1, now, locked);
      if Eligible(jobs[n - 1], now) && n - 1 !in locked && (best == |jobs| || jobs[n - 1].nextAt < jobs[best].nextAt) then n - 1 else best
  }

  function Taken(j: Job, worker: string, leaseMs: int, now: int): Job {
    j.(state := if j.external.Some? then VERIFYING else SUBMITTING, lease := Some(Lease(worker, now + leaseMs)),
       polls := j.polls + if j.external.Some? then 1 else 0)
  }

  function Holds(s: State, c: nat, states: set<JobState>): bool
    requires c < |s.claims| && s.claims[c].job < |s.jobs|
  {
    var j := s.jobs[s.claims[c].job];
    j.lease.Some? && j.lease.value.owner == s.claims[c].worker && j.state in states
  }

  datatype Gate = Accepts(receipt: string) | Throws(code: string)

  datatype Action =
    | Request(transaction: string, authorized: bool)
    | AcceptElsewhere(transaction: string, receipt: string)
    | Claim(worker: string, now: int, leaseMs: int, locked: set<nat>)
    | Crash(claim: nat)
    | Submitted(claim: nat, external: string, now: int)
    | StillRunning(claim: nat, now: int)
    | RemoteFailed(claim: nat, code: string)
    | PresentProof(claim: nat, gate: Gate)
    | RecordVerified(claim: nat)
    | Retry(claim: nat, code: string, now: int)

  function Update(s: State, c: nat, j: Job): State
    requires c < |s.claims| && s.claims[c].job < |s.jobs|
  {
    s.(jobs := s.jobs[s.claims[c].job := j], claims := s.claims[c := s.claims[c].(live := false)])
  }

  /** The gate takes one proof per transaction; receipt identifiers are fresh. */
  function GateStep(s: State, transaction: string, gate: Gate): (State, Gate) {
    match gate
    case Throws(_) => (s, gate)
    case Accepts(receipt) =>
      if transaction in s.receipts || receipt in s.receipts.Values then (s, Throws("ZK_TRANSACTION_NOT_AUTHORIZED"))
      else (s.(receipts := s.receipts[transaction := receipt]), gate)
  }

  function PollIntervalMs(polls: nat): int {
    var e := if polls / 5 < 4 then polls / 5 else 4;
    1000 * (if e == 0 then 2 else if e == 1 then 4 else if e == 2 then 8 else if e == 3 then 16 else 30)
  }

  /** Seconds until the next attempt after the given number of failures. */
  function RetryDelayMs(failed: nat): int {
    1000 * (if failed == 0 then 1 else if failed == 1 then 2 else if failed == 2 then 4 else if failed == 3 then 8
      else if failed == 4 then 16 else if failed == 5 then 32 else 60)
  }

  predicate Usable(s: State, c: nat) {
    c < |s.claims| && s.claims[c].live && s.claims[c].job < |s.jobs|
  }

  function ClaimStep(s: State, worker: string, now: int, leaseMs: int, locked: set<nat>): (r: (State, Reply))
    ensures r.1 == Done ==> |r.0.claims| > 0 && Usable(r.0, |r.0.claims| - 1)
  {
    var jobs := Expire(s.jobs, now);
    var pick := FirstDue(jobs, |jobs|, now, locked);
    if exists n :: 0 <= n < |jobs| && jobs[n].attempts > ROW_LIMIT then (s, Refused("23514"))
    else if pick == |jobs| then (s.(jobs := jobs), Nothing)
    else
      (s.(jobs := jobs[pick := Taken(jobs[pick], worker, leaseMs, now)],
          claims := s.claims + [Attempt(pick, worker, jobs[pick].attempts, jobs[pick].external, None, true)]), Done)
  }

  function SubmitStep(s: State, c: nat, external: string, now: int): (State, Reply)
    requires Usable(s, c)
  {
    var n := s.claims[c].job;
    if !Holds(s, c, {SUBMITTING}) then (s, Refused("PROVER_JOB_LEASE_LOST"))
    else if exists m :: 0 <= m < |s.jobs| && m != n && s.jobs[m].external == Some(external) then (s, Refused("23505"))
    else (Update(s, c, s.jobs[n].(state := REMOTE_PENDING, external := Some(external), lease := None, nextAt := now + 1000, lastError := None)), Done)
  }

  function PendingStep(s: State, c: nat, now: int): (State, Reply)
    requires Usable(s, c)
  {
    var j := s.jobs[s.claims[c].job];
    if !Holds(s, c, {VERIFYING}) then (s, Refused("PROVER_JOB_LEASE_LOST"))
    else (Update(s, c, j.(state := REMOTE_PENDING, lease := None, nextAt := now + PollIntervalMs(j.polls))), Done)
  }

  function FailedStep(s: State, c: nat, code: string): (State, Reply)
    requires Usable(s, c)
  {
    var j := s.jobs[s.claims[c].job];
    if !Holds(s, c, {VERIFYING}) then (s, Refused("PROVER_JOB_LEASE_LOST"))
    else (Update(s, c, j.(state := FAILED, lease := None, lastError := Some(code))), Done)
  }

  /** Presents the proof; a proof already accepted counts when its receipt can be looked up. */
  function ProofStep(s: State, c: nat, gate: Gate): (State, Reply)
    requires Usable(s, c)
  {
    var transaction := s.jobs[s.claims[c].job].transaction;
    var (t, answer) := GateStep(s, transaction, gate);
    match answer
    case Accepts(receipt) => (t.(claims := t.claims[c := t.claims[c].(accepted := Some(receipt))]), Done)
    case Throws(code) =>
      if code != "ZK_TRANSACTION_NOT_AUTHORIZED" || transaction !in s.receipts then (s, Refused(code))
      else (s.(claims := s.claims[c := s.claims[c].(accepted := Some(s.receipts[transaction]))]), Done)
  }

  function VerifiedStep(s: State, c: nat): (State, Reply)
    requires Usable(s, c)
  {
    if s.claims[c].accepted.None? then (s, Nothing)
    else if !Holds(s, c, {VERIFYING}) then (s, Refused("PROVER_JOB_LEASE_LOST"))
    else (Update(s, c, s.jobs[s.claims[c].job].(state := VERIFIED, receipt := s.claims[c].accepted, lease := None, lastError := None)), Done)
  }

  /** Terminal or retryable is decided from the row as claimed; the counter is the row's own. */
  function RetryStep(s: State, c: nat, code: string, now: int): (State, Reply)
    requires Usable(s, c)
  {
    var j, failed := s.jobs[s.claims[c].job], s.claims[c].attempts + 1;
    if !Holds(s, c, {SUBMITTING, VERIFYING}) || j.attempts >= ROW_LIMIT then (s.(claims := s.claims[c := s.claims[c].(live := false)]), Refused(code))
    else
      (Update(s, c, j.(state := if failed >= MAX_ATTEMPTS then FAILED else RETRYABLE, attempts := j.attempts + 1, lease := None,
        lastError := Some(code), nextAt := now + RetryDelayMs(failed))), Done)
  }

  function Step(s: State, a: Action): (State, Reply) {
    match a
    case Request(transaction, authorized) =>
      if !authorized || transaction in s.receipts then (s, Refused("INVALID_ZK_TRANSACTION_STATE"))
      else if exists n :: 0 <= n < |s.jobs| && s.jobs[n].transaction == transaction then (s, Nothing)
      else (s.(jobs := s.jobs + [Job(transaction, QUEUED, None, 0, 0, 0, None, None, None)]), Done)
    case AcceptElsewhere(transaction, receipt) => (GateStep(s, transaction, Accepts(receipt)).0, Done)
    case Claim(worker, now, leaseMs, locked) => ClaimStep(s, worker, now, leaseMs, locked)
    case Crash(c) => if !Usable(s, c) then (s, Nothing) else (s.(claims := s.claims[c := s.claims[c].(live := false)]), Done)
    case Submitted(c, external, now) => if !Usable(s, c) || s.claims[c].external.Some? then (s, Nothing) else SubmitStep(s, c, external, now)
    case StillRunning(c, now) => if !Usable(s, c) || s.claims[c].external.None? then (s, Nothing) else PendingStep(s, c, now)
    case RemoteFailed(c, code) => if !Usable(s, c) || s.claims[c].external.None? then (s, Nothing) else FailedStep(s, c, code)
    case PresentProof(c, gate) => if !Usable(s, c) || s.claims[c].external.None? then (s, Nothing) else ProofStep(s, c, gate)
    case RecordVerified(c) => if !Usable(s, c) || s.claims[c].external.None? then (s, Nothing) else VerifiedStep(s, c)
    case Retry(c, code, now) => if !Usable(s, c) then (s, Nothing) else RetryStep(s, c, code, now)
  }

  function Run(actions: seq<Action>): State {
    if actions == [] then INITIAL else Step(Run(actions[..|actions| - 1]), actions[|actions| - 1]).0
  }

  // ----- what every step keeps -----

  ghost predicate JobGood(j: Job, receipts: map<string, string>) {
    && (j.lease.Some? <==> Leased(j))
    && (j.receipt.Some? <==> j.state == VERIFIED)
    && (j.receipt.Some? ==> j.transaction in receipts && receipts[j.transaction] == j.receipt.value)
    && (j.state == VERIFYING || j.state == REMOTE_PENDING || j.state == VERIFIED ==> j.external.Some?)
    && (j.state == SUBMITTING || j.state == QUEUED ==> j.external.None?)
  }

  ghost predicate ClaimsGood(s: State) {
    forall c :: 0 <= c < |s.claims| ==>
      && s.claims[c].job < |s.jobs|
      && (s.claims[c].accepted.Some? ==>
        && s.jobs[s.claims[c].job].transaction in s.receipts
        && s.receipts[s.jobs[s.claims[c].job].transaction] == s.claims[c].accepted.value)
  }

  ghost predicate Inv(s: State) {
    && (forall n :: 0 <= n < |s.jobs| ==> JobGood(s.jobs[n], s.receipts))
    && (forall n, m :: 0 <= n < m < |s.jobs| ==> s.jobs[n].transaction != s.jobs[m].transaction)
    && (forall x, y :: x in s.receipts && y in s.receipts && s.receipts[x] == s.receipts[y] ==> x == y)
    && ClaimsGood(s)
  }

  /** The job states a row may move to, as the table's guard lists them; staying put counts while not final. */
  predicate MayBecome(from: JobState, to: JobState) {
    match from
    case QUEUED => to == SUBMITTING
    case SUBMITTING => to == REMOTE_PENDING || to == RETRYABLE || to == FAILED
    case REMOTE_PENDING => to == VERIFYING || to == REMOTE_PENDING || to == RETRYABLE || to == FAILED
    case VERIFYING => to == VERIFIED || to == REMOTE_PENDING || to == RETRYABLE || to == FAILED
    case RETRYABLE => to == SUBMITTING || to == VERIFYING || to == FAILED
    case VERIFIED => false
    case FAILED => false
  }

  lemma ClaimKeeps(s: State, a: Action)
    requires Inv(s) && a.Claim?
    ensures Inv(Step(s, a).0)
  {
    hide FirstDue;
    var jobs := Expire(s.jobs, a.now);
    var t := s.(jobs := jobs);
    assert forall n :: 0 <= n < |jobs| ==> JobGood(jobs[n], s.receipts) && jobs[n].transaction == s.jobs[n].transaction;
    assert Inv(t);
    hide ExpireJob, Expire;
    var pick := FirstDue(jobs, |jobs|, a.now, a.locked);
    if pick < |jobs| {
      assert JobGood(Taken(jobs[pick], a.worker, a.leaseMs, a.now), s.receipts);
    }
  }

  /** Ending an attempt with a well-formed row of the same transaction. */
  lemma UpdateKeeps(s: State, c: nat, j: Job)
    requires Inv(s) && Usable(s, c) && JobGood(j, s.receipts) && j.transaction == s.jobs[s.claims[c].job].transaction
    ensures Inv(Update(s, c, j))
  {
  }

  lemma GateKeeps(s: State, transaction: string, gate: Gate)
    requires Inv(s)
    ensures var (t, answer) := GateStep(s, transaction, gate);
      && Inv(t) && t.jobs == s.jobs && t.claims == s.claims
      && (answer.Accepts? ==> transaction in t.receipts && t.receipts[transaction] == answer.receipt)
  {
    var t := GateStep(s, transaction, gate).0;
    assert forall x :: x in s.receipts ==> x in t.receipts && t.receipts[x] == s.receipts[x];
  }

  lemma StepKeeps(s: State, a: Action)
    requires Inv(s)
    ensures Inv(Step(s, a).0)
  {
    if a.Claim? {
      ClaimKeeps(s, a);
    } else if a.AcceptElsewhere? {
      GateKeeps(s, a.transaction, Accepts(a.receipt));
    } else if a.PresentProof? {
      ProofKeeps(s, a);
    } else if !a.Request? && Step(s, a).1 == Done {
      AttemptKeeps(s, a);
    } else {
      hide JobGood, Holds;
    }
  }

  lemma ProofKeeps(s: State, a: Action)
    requires Inv(s) && a.PresentProof?
    ensures Inv(Step(s, a).0)
  {
    hide JobGood, Holds;
    if Usable(s, a.claim) && s.claims[a.claim].external.Some? {
      GateKeeps(s, s.jobs[s.claims[a.claim].job].transaction, a.gate);
      hide GateStep;
    }
  }

  lemma AttemptKeeps(s: State, a: Action)
    requires Inv(s) && Step(s, a).1 == Done
    requires a.Crash? || a.Submitted? || a.StillRunning? || a.RemoteFailed? || a.RecordVerified? || a.Retry?
    ensures Inv(Step(s, a).0)
  {
    var n := s.claims[a.claim].job;
    assert JobGood(s.jobs[n], s.receipts);
    var j := Step(s, a).0.jobs[n];
    assert j.transaction == s.jobs[n].transaction && JobGood(j, s.receipts);
    UpdateKeeps(s, a.claim, j);
    hide JobGood;
    assert s.jobs[n := s.jobs[n]] == s.jobs;
  }

  lemma {:induction false} RunKeeps(actions: seq<Action>)
    ensures Inv(Run(actions))
  {
    hide Inv, Step;
    if actions == [] {
      InitialInv();
    } else {
      RunKeeps(actions[..|actions| - 1]);
      StepKeeps(Run(actions[..|actions| - 1]), actions[|actions| - 1]);
    }
  }

  lemma InitialInv()
    ensures Inv(INITIAL)
  {
  }

  /**
   In every interleaving: a lease exactly in SUBMITTING and VERIFYING; a verified job
   names its transaction's one receipt, whoever obtained it, and no two jobs share one.
   */
  lemma QueueSafety(actions: seq<Action>, n: nat, m: nat)
    requires n < |Run(actions).jobs| && m < |Run(actions).jobs|
    ensures var s := Run(actions); var j := s.jobs[n];
      && (j.lease.Some? <==> j.state == SUBMITTING || j.state == VERIFYING)
      && (j.state == VERIFIED <==> j.receipt.Some?)
      && (j.state == VERIFIED ==> j.transaction in s.receipts && s.receipts[j.transaction] == j.receipt.value)
      && (n != m && j.state == VERIFIED ==> s.jobs[m].receipt != j.receipt)
  {
    hide Run;
    RunKeeps(actions);
    var s := Run(actions);
    assert JobGood(s.jobs[n], s.receipts) && JobGood(s.jobs[m], s.receipts);
  }

  /** A step leaves final jobs as they are, moves others as the table's guard allows, and counts a failure at most once. */
  lemma StepMovesJobs(s: State, a: Action, n: nat)
    requires Inv(s) && n < |s.jobs| && !a.Claim?
    ensures var j, k := s.jobs[n], Step(s, a).0.jobs[n];
      && |Step(s, a).0.jobs| >= |s.jobs| && k.transaction == j.transaction
      && (Terminal(j) ==> k == j)
      && (k != j ==> MayBecome(j.state, k.state))
      && k.attempts == j.attempts + (if a.Retry? && k != j then 1 else 0)
      && (k.state == VERIFIED && j.state != VERIFIED ==> a.RecordVerified?)
  {
    hide GateStep;
    assert JobGood(s.jobs[n], s.receipts);
    if a.AcceptElsewhere? {
      GateKeeps(s, a.transaction, Accepts(a.receipt));
    }
    if a.PresentProof? && Usable(s, a.claim) {
      GateKeeps(s, s.jobs[s.claims[a.claim].job].transaction, a.gate);
    }
  }

  /** A claim first counts expired leases, once each, then leases at most one job that is not final. */
  lemma ClaimMovesJobs(s: State, a: Action, n: nat)
    requires Inv(s) && n < |s.jobs| && a.Claim?
    ensures var j, e, k := s.jobs[n], ExpireJob(s.jobs[n], a.now), Step(s, a).0.jobs[n];
      && |Step(s, a).0.jobs| == |s.jobs| && k.transaction == j.transaction
      && (Terminal(j) ==> k == j)
      && (e != j ==> MayBecome(j.state, e.state) && e.attempts == j.attempts + 1)
      && (k == j || k == e || MayBecome(e.state, k.state))
      && (k != j && k != e ==> k.attempts == e.attempts && Leased(k) && k.lease.value.owner == a.worker)
  {
    hide FirstDue;
    assert JobGood(s.jobs[n], s.receipts);
  }

  // ----- the bound on attempts -----

  /** One worker name works on at most one claim at a time: a new claim only after the last one of that name has ended. */
  ghost predicate Sequential(s: State, a: Action) {
    a.Claim? ==> forall c :: 0 <= c < |s.claims| && s.claims[c].live ==> s.claims[c].worker != a.worker
  }

  ghost predicate SequentialRun(actions: seq<Action>) {
    forall i :: 0 <= i < |actions| ==> Sequential(Run(actions[..i]), actions[i])
  }

  ghost predicate Bounded(jobs: seq<Job>) {
    forall n :: 0 <= n < |jobs| ==> jobs[n].attempts <= MAX_ATTEMPTS && (jobs[n].attempts == MAX_ATTEMPTS ==> jobs[n].state == FAILED)
  }

  /** While a live claim's worker holds the lease, the row has not been counted since it was claimed. */
  ghost predicate Current(s: State) {
    forall c :: 0 <= c < |s.claims| && s.claims[c].live && s.claims[c].job < |s.jobs| ==>
      var j := s.jobs[s.claims[c].job];
      j.lease.Some? && j.lease.value.owner == s.claims[c].worker ==> j.attempts == s.claims[c].attempts
  }

  /** One live claim per worker name. */
  ghost predicate OneEach(s: State) {
    forall c, d :: 0 <= c < d < |s.claims| && s.claims[c].live && s.claims[d].live ==> s.claims[c].worker != s.claims[d].worker
  }

  lemma ClaimStaysBounded(s: State, a: Action)
    requires Inv(s) && Bounded(s.jobs) && Current(s) && OneEach(s) && Sequential(s, a) && a.Claim?
    ensures var t := Step(s, a).0; Bounded(t.jobs) && Current(t) && OneEach(t)
  {
    hide FirstDue;
    var jobs := Expire(s.jobs, a.now);
    forall n | 0 <= n < |jobs| ensures jobs[n] == s.jobs[n] || jobs[n].lease.None? {
    }
    assert Bounded(jobs);
    hide Expire, ExpireJob;
  }

  lemma StepStaysBounded(s: State, a: Action)
    requires Inv(s) && Bounded(s.jobs) && Current(s) && OneEach(s) && Sequential(s, a)
    ensures var t := Step(s, a).0; Bounded(t.jobs) && Current(t) && OneEach(t)
  {
    hide JobGood;
    if a.Claim? {
      ClaimStaysBounded(s, a);
    } else if a.AcceptElsewhere? {
      GateKeeps(s, a.transaction, Accepts(a.receipt));
    } else if a.PresentProof? {
      if Usable(s, a.claim) {
        GateKeeps(s, s.jobs[s.claims[a.claim].job].transaction, a.gate);
        hide GateStep;
      }
    } else if !a.Request? && Step(s, a).1 == Done {
      AttemptStaysBounded(s, a);
    }
  }

  lemma AttemptStaysBounded(s: State, a: Action)
    requires Inv(s) && Bounded(s.jobs) && Current(s) && OneEach(s) && Step(s, a).1 == Done
    requires a.Crash? || a.Submitted? || a.StillRunning? || a.RemoteFailed? || a.RecordVerified? || a.Retry?
    ensures var t := Step(s, a).0; Bounded(t.jobs) && Current(t) && OneEach(t)
  {
    hide OneEach;
    var n, t := s.claims[a.claim].job, Step(s, a).0;
    assert JobGood(s.jobs[n], s.receipts);
    assert t.claims == s.claims[a.claim := s.claims[a.claim].(live := false)];
    if !a.Crash? {
      var j := t.jobs[n];
      assert j.lease.None? && j.attempts <= MAX_ATTEMPTS && (j.attempts == MAX_ATTEMPTS ==> j.state == FAILED);
      assert t.jobs == s.jobs[n := j];
    }
    hide Step, JobGood, Inv;
    EndingOneEach(s, a.claim, t);
  }

  lemma EndingOneEach(s: State, c: nat, t: State)
    requires c < |s.claims| && t.claims == s.claims[c := s.claims[c].(live := false)] && OneEach(s)
    ensures OneEach(t)
  {
  }

  /**
   With worker names used by one attempt at a time, attempts never exceed eight and a
   job that is not final has fewer.
   */
  lemma {:induction false} AttemptsBounded(actions: seq<Action>)
    requires SequentialRun(actions)
    ensures var s := Run(actions);
      forall n :: 0 <= n < |s.jobs| ==> s.jobs[n].attempts <= MAX_ATTEMPTS && (s.jobs[n].attempts == MAX_ATTEMPTS ==> s.jobs[n].state == FAILED)
    ensures Current(Run(actions)) && OneEach(Run(actions))
  {
    hide Step, Inv, Sequential;
    if actions != [] {
      var front, last := actions[..|actions| - 1], actions[|actions| - 1];
      forall i | 0 <= i < |front| ensures Sequential(Run(front[..i]), front[i]) {
        assert front[..i] == actions[..i] && front[i] == actions[i];
      }
      AttemptsBounded(front);
      RunKeeps(front);
      assert Sequential(Run(actions[..|actions| - 1]), last);
      StepStaysBounded(Run(front), last);
    }
  }

  /**
   A retry under a worker name that still leases the row, where the row is at its last
   attempt and the copy the worker claimed is not.
   */
  predicate Leaks(s: State, a: Action) {
    a.Retry? && Usable(s, a.claim) &&
    var c, j := s.claims[a.claim], s.jobs[s.claims[a.claim].job];
      j.lease.Some? && j.lease.value.owner == c.worker && j.attempts + 1 >= MAX_ATTEMPTS && c.attempts + 1 < MAX_ATTEMPTS
  }

  lemma RetryKeepsBoundIff(s: State, a: Action)
    requires Inv(s) && Bounded(s.jobs) && a.Retry?
    ensures Bounded(Step(s, a).0.jobs) <==> !Leaks(s, a)
  {
    if Usable(s, a.claim) {
      var t, n := Step(s, a).0, s.claims[a.claim].job;
      assert JobGood(s.jobs[n], s.receipts);
      assert t.jobs[n].state == FAILED || t.jobs[n].state == RETRYABLE || t.jobs[n] == s.jobs[n];
      if Leaks(s, a) {
        assert t.jobs[n].attempts == MAX_ATTEMPTS && t.jobs[n].state == RETRYABLE;
      }
    }
  }

  /** Whatever the worker names, exactly the leaking retry takes the queue out of its bound. */
  lemma StepKeepsBoundIff(s: State, a: Action)
    requires Inv(s) && Bounded(s.jobs)
    ensures Bounded(Step(s, a).0.jobs) <==> !Leaks(s, a)
  {
    if a.Retry? {
      RetryKeepsBoundIff(s, a);
    } else {
      hide Inv, Step;
      forall n | 0 <= n < |Step(s, a).0.jobs|
        ensures Step(s, a).0.jobs[n].attempts <= MAX_ATTEMPTS && (Step(s, a).0.jobs[n].attempts == MAX_ATTEMPTS ==> Step(s, a).0.jobs[n].state == FAILED)
      {
        if n < |s.jobs| {
          JobStaysBounded(s, a, n);
        } else {
          NewJob(s, a, n);
        }
      }
    }
  }

  lemma JobStaysBounded(s: State, a: Action, n: nat)
    requires Inv(s) && Bounded(s.jobs) && n < |s.jobs| && !a.Retry?
    ensures n < |Step(s, a).0.jobs|
    ensures Step(s, a).0.jobs[n].attempts <= MAX_ATTEMPTS && (Step(s, a).0.jobs[n].attempts == MAX_ATTEMPTS ==> Step(s, a).0.jobs[n].state == FAILED)
  {
    if a.Claim? {
      ClaimMovesJobs(s, a, n);
    } else {
      StepMovesJobs(s, a, n);
    }
    hide Step, Inv;
  }

  lemma NewJob(s: State, a: Action, n: nat)
    requires Inv(s) && |s.jobs| <= n < |Step(s, a).0.jobs|
    ensures Step(s, a).0.jobs[n].attempts == 0
  {
    hide GateStep, FirstDue, JobGood;
    if a.AcceptElsewhere? {
      GateKeeps(s, a.transaction, Accepts(a.receipt));
    }
    if a.PresentProof? && Usable(s, a.claim) {
      GateKeeps(s, s.jobs[s.claims[a.claim].job].transaction, a.gate);
    }
  }

  /** The queue stays in its bound in every state of the run. */
  ghost predicate BoundedThroughout(actions: seq<Action>) {
    forall i :: 0 <= i <= |actions| ==> Bounded(Run(actions[..i]).jobs)
  }

  ghost predicate NeverLeaks(actions: seq<Action>) {
    forall i :: 0 <= i < |actions| ==> !Leaks(Run(actions[..i]), actions[i])
  }

  lemma ThroughoutSplits(actions: seq<Action>)
    requires actions != []
    ensures BoundedThroughout(actions) <==> BoundedThroughout(actions[..|actions| - 1]) && Bounded(Run(actions).jobs)
  {
    hide Run, Bounded;
    var front := actions[..|actions| - 1];
    if BoundedThroughout(actions) {
      forall i | 0 <= i <= |front| ensures Bounded(Run(front[..i]).jobs) {
        assert front[..i] == actions[..i];
      }
      assert actions[..|actions|] == actions;
    }
    if BoundedThroughout(front) && Bounded(Run(actions).jobs) {
      forall i | 0 <= i <= |actions| ensures Bounded(Run(actions[..i]).jobs) {
        if i < |actions| {
          assert front[..i] == actions[..i];
        } else {
          assert actions[..i] == actions;
        }
      }
    }
  }

  lemma NeverLeaksSplits(actions: seq<Action>)
    requires actions != []
    ensures var m := |actions| - 1;
      NeverLeaks(actions) <==> NeverLeaks(actions[..m]) && !Leaks(Run(actions[..m]), actions[m])
  {
    hide Run, Leaks;
    var m := |actions| - 1;
    var front := actions[..m];
    if NeverLeaks(actions) {
      forall i | 0 <= i < m ensures !Leaks(Run(front[..i]), front[i]) {
        assert front[..i] == actions[..i];
      }
    }
    if NeverLeaks(front) && !Leaks(Run(front), actions[m]) {
      forall i | 0 <= i < |actions| ensures !Leaks(Run(actions[..i]), actions[i]) {
        if i < m {
          assert front[..i] == actions[..i] && front[i] == actions[i];
        }
      }
    }
  }

  lemma BoundedAtTheEnd(actions: seq<Action>)
    requires BoundedThroughout(actions)
    ensures Bounded(Run(actions).jobs)
  {
    hide Run, Bounded;
    assert actions[..|actions|] == actions;
  }

  /** Whoever shares a name, attempts stay bounded through a run exactly when no retry in it leaks. */
  lemma {:induction false} AttemptsBoundedIff(actions: seq<Action>)
    ensures BoundedThroughout(actions) <==> NeverLeaks(actions)
    decreases |actions|
  {
    if actions == [] {
      assert actions[..0] == [];
      RunEmpty();
    } else {
      hide Step, Inv, Bounded, BoundedThroughout, NeverLeaks, Leaks;
      var front := actions[..|actions| - 1];
      AttemptsBoundedIff(front);
      ThroughoutSplits(actions);
      NeverLeaksSplits(actions);
      if BoundedThroughout(front) {
        BoundedAtTheEnd(front);
        RunKeeps(front);
        StepKeepsBoundIff(Run(front), actions[|actions| - 1]);
      }
    }
  }

  /** A job that is verified or failed is the same in every later state of any run. */
  lemma {:induction false} FinalForever(actions: seq<Action>, more: seq<Action>, n: nat)
    requires n < |Run(actions).jobs| && Terminal(Run(actions).jobs[n])
    ensures n < |Run(actions + more).jobs| && Run(actions + more).jobs[n] == Run(actions).jobs[n]
    decreases |more|
  {
    hide Step, Inv;
    if more == [] {
      assert actions + more == actions;
    } else {
      var front, last := more[..|more| - 1], more[|more| - 1];
      FinalForever(actions, front, n);
      assert (actions + more)[..|actions + more| - 1] == actions + front && (actions + more)[|actions + more| - 1] == last;
      RunKeeps(actions + front);
      if last.Claim? {
        ClaimMovesJobs(Run(actions + front), last, n);
      } else {
        StepMovesJobs(Run(actions + front), last, n);
      }
    }
  }

  // ----- a shared worker name -----

  /** Two processes under one name: the first stalls, the job is counted seven times, then the first gives up its old copy. */
  function SharedName(k: nat): seq<Action> {
    if k == 0 then [Request("t", true), Claim("w", 0, 1, {})]
    else SharedName(k - 1) + [Claim("w", k, 1, {})]
  }

  lemma RunMore(actions: seq<Action>, a: Action)
    ensures Run(actions + [a]) == Step(Run(actions), a).0
  {
    hide Step;
    assert (actions + [a])[..|actions|] == actions;
  }

  ghost predicate CountedTimes(s: State, k: nat) {
    && |s.jobs| == 1 && |s.claims| == k + 1 && s.jobs[0].state == SUBMITTING && s.jobs[0].attempts == k && s.jobs[0].external == None
    && s.jobs[0].lease == Some(Lease("w", k + 1)) && s.claims[0] == Attempt(0, "w", 0, None, None, true)
  }

  lemma {:induction false} SharedNameRun(k: nat)
    requires k <= 7
    ensures CountedTimes(Run(SharedName(k)), k)
  {
    hide Run, Step;
    if k == 0 {
      assert [] + [Request("t", true)] == [Request("t", true)];
      assert SharedName(0) == [Request("t", true)] + [Claim("w", 0, 1, {})];
      RunMore([], Request("t", true));
      RunMore([Request("t", true)], Claim("w", 0, 1, {}));
      FirstRequest();
      RunEmpty();
      TakesTheJob(Run([Request("t", true)]), 0);
    } else {
      SharedNameRun(k - 1);
      RunMore(SharedName(k - 1), Claim("w", k, 1, {}));
      TakesTheJob(Run(SharedName(k - 1)), k);
    }
  }

  lemma RunEmpty()
    ensures Run([]) == INITIAL
  {
  }

  lemma FirstRequest()
    ensures Step(INITIAL, Request("t", true)).0 == State([Job("t", QUEUED, None, 0, 0, 0, None, None, None)], [], map[])
  {
  }

  lemma TakesTheJob(s: State, k: nat)
    requires |s.jobs| == 1 && s.jobs[0].external == None && k <= 7
    requires if k == 0 then s.jobs[0].state == QUEUED && s.jobs[0].attempts == 0 && s.jobs[0].lease == None && s.jobs[0].nextAt == 0
      else s.jobs[0].state == SUBMITTING && s.jobs[0].attempts == k - 1 && s.jobs[0].lease == Some(Lease("w", k))
    ensures var (t, reply) := Step(s, Claim("w", k, 1, {}));
      && |t.jobs| == 1 && t.jobs[0].state == SUBMITTING && t.jobs[0].external == None && t.jobs[0].lease == Some(Lease("w", k + 1))
      && t.jobs[0].attempts == s.jobs[0].attempts + (if k == 0 then 0 else 1)
      && t.claims == s.claims + [Attempt(0, "w", t.jobs[0].attempts, None, None, true)]
  {
    var jobs := Expire(s.jobs, k);
    assert Eligible(jobs[0], k);
    assert FirstDue(jobs, 1, k, {}) == 0;
  }

  lemma GivesUp(s: State)
    requires |s.jobs| == 1 && |s.claims| == 8 && s.jobs[0].state == SUBMITTING && s.jobs[0].attempts == 7
    requires s.jobs[0].lease == Some(Lease("w", 8)) && s.claims[0] == Attempt(0, "w", 0, None, None, true)
    ensures var t := Step(s, Retry(0, "E", 8)).0; |t.jobs| == 1 && t.jobs[0].attempts == MAX_ATTEMPTS && t.jobs[0].state == RETRYABLE
  {
  }

  /** Under a shared name the bound fails: eight failures on a job that is retryable again. */
  lemma SharedNameBreaksTheBound()
    ensures exists actions: seq<Action> ::
      |Run(actions).jobs| == 1 && Run(actions).jobs[0].attempts == MAX_ATTEMPTS && Run(actions).jobs[0].state == RETRYABLE
  {
    hide Run, Step, SharedName;
    SharedNameRun(7);
    RunMore(SharedName(7), Retry(0, "E", 8));
    GivesUp(Run(SharedName(7)));
  }

  // ----- the service -----

  /** What the prover service answers to one attempt. */
  datatype Remote = Fails(code: string) | SubmittedAs(external: string) | Running | Ended(code: string) | Proof(gate: Gate)

  /** The part of `runOnce` between the claim and its error handler. */
  function Attempted(s: State, c: nat, remote: Remote, now: int): (State, Reply)
    requires Usable(s, c)
  {
    if s.claims[c].external.None? then
      match remote
      case SubmittedAs(external) => Step(s, Submitted(c, external, now))
      case Fails(code) => (s, Refused(code))
      case _ => (s, Refused("PROVER_SERVICE_FAILURE"))
    else
      match remote
      case Running => Step(s, StillRunning(c, now))
      case Ended(code) => Step(s, RemoteFailed(c, code))
      case Proof(gate) =>
        var (t, reply) := Step(s, PresentProof(c, gate));
        if reply == Done then Step(t, RecordVerified(c)) else (t, reply)
      case Fails(code) => (s, Refused(code))
      case SubmittedAs(_) => (s, Refused("PROVER_SERVICE_FAILURE"))
  }

  /** A whole `runOnce`: claim, attempt, and on any error a retry. */
  function RanOnce(s: State, worker: string, claimedAt: int, leaseMs: int, locked: set<nat>, remote: Remote, answeredAt: int, failedAt: int): (State, Reply) {
    var (t, claimed) := Step(s, Claim(worker, claimedAt, leaseMs, locked));
    if claimed != Done then (t, claimed)
    else
      var c := |t.claims| - 1;
      var (u, reply) := Attempted(t, c, remote, answeredAt);
      match reply
      case Refused(code) => Step(u, Retry(c, code, failedAt))
      case _ => (u, reply)
  }

  lemma RefusedStaysUsable(s: State, c: nat, remote: Remote, now: int)
    requires Usable(s, c) && Attempted(s, c, remote, now).1.Refused?
    ensures Usable(Attempted(s, c, remote, now).0, c)
  {
    hide Holds;
  }

  lemma ClaimUsable(s: State, worker: string, now: int, leaseMs: int, locked: set<nat>)
    ensures var (t, reply) := Step(s, Claim(worker, now, leaseMs, locked)); reply == Done ==> |t.claims| > 0 && Usable(t, |t.claims| - 1)
  {
  }

  /** A whole attempt is a run of steps, so everything above holds of it. */
  lemma RanOnceKeeps(s: State, worker: string, claimedAt: int, leaseMs: int, locked: set<nat>, remote: Remote, answeredAt: int, failedAt: int)
    requires Inv(s)
    ensures Inv(RanOnce(s, worker, claimedAt, leaseMs, locked, remote, answeredAt, failedAt).0)
  {
    hide Step, Inv;
    var t := Step(s, Claim(worker, claimedAt, leaseMs, locked)).0;
    StepKeeps(s, Claim(worker, claimedAt, leaseMs, locked));
    ClaimUsable(s, worker, claimedAt, leaseMs, locked);
    if Step(s, Claim(worker, claimedAt, leaseMs, locked)).1 == Done {
      var c := |t.claims| - 1;
      var u := AttemptedKeeps(t, c, remote, answeredAt);
      forall code ensures Inv(Step(u, Retry(c, code, failedAt)).0) {
        StepKeeps(u, Retry(c, code, failedAt));
      }
    }
  }

  lemma AttemptedKeeps(s: State, c: nat, remote: Remote, now: int) returns (t: State)
    requires Inv(s) && Usable(s, c)
    ensures t == Attempted(s, c, remote, now).0 && Inv(t)
  {
    hide Step, Inv;
    t := Attempted(s, c, remote, now).0;
    match remote {
      case SubmittedAs(external) => StepKeeps(s, Submitted(c, external, now));
      case Running => StepKeeps(s, StillRunning(c, now));
      case Ended(code) => StepKeeps(s, RemoteFailed(c, code));
      case Proof(gate) =>
        StepKeeps(s, PresentProof(c, gate));
        StepKeeps(Step(s, PresentProof(c, gate)).0, RecordVerified(c));
      case Fails(_) =>
    }
  }

  class ProverJobService {
    var jobs: seq<Job>
    var claims: seq<Attempt>
    var receipts: map<string, string>

    function View(): State
      reads this
    {
      State(jobs, claims, receipts)
    }

    constructor ()
      ensures View() == INITIAL
    {
      jobs, claims, receipts := [], [], map[];
    }

    /** Creates the transaction's one job unless it exists. */
    method RequestJob(transaction: string, authorized: bool) returns (reply: Reply)
      modifies this
      ensures (View(), reply) == Step(old(View()), Request(transaction, authorized))
    {
      if !authorized || transaction in receipts {
        return Refused("INVALID_ZK_TRANSACTION_STATE");
      }
      if exists n :: 0 <= n < |jobs| && jobs[n].transaction == transaction {
        return Nothing;
      }
      jobs := jobs + [Job(transaction, QUEUED, None, 0, 0, 0, None, None, None)];
      return Done;
    }

    /** The rows with every run-out lease counted as a failed attempt. */
    method ExpiredRows(now: int) returns (expired: seq<Job>)
      ensures expired == Expire(jobs, now)
    {
      expired := jobs;
      for n := 0 to |jobs|
        invariant |expired| == |jobs|
        invariant forall k :: 0 <= k < |jobs| ==> expired[k] == if k < n then ExpireJob(jobs[k], now) else jobs[k]
      {
        var j := expired[n];
        if Leased(j) && j.lease.Some? && j.lease.value.until <= now {
          expired := expired[n := j.(state := if j.attempts + 1 >= MAX_ATTEMPTS then FAILED else RETRYABLE, attempts := j.attempts + 1,
            lease := None, lastError := Some("PROVER_LEASE_EXPIRED"), nextAt := now)];
        }
      }
    }

    /** Expires leases, selects the job due first and leases it. */
    method ClaimJob(worker: string, now: int, leaseMs: int, locked: set<nat>) returns (reply: Reply)
      modifies this
      ensures (View(), reply) == ClaimStep(old(View()), worker, now, leaseMs, locked)
    {
      var expired := ExpiredRows(now);
      if exists n :: 0 <= n < |expired| && expired[n].attempts > ROW_LIMIT {
        return Refused("23514");
      }
      jobs := expired;
      var pick := |jobs|;
      for n := 0 to |jobs|
        invariant View() == old(View()).(jobs := expired) && pick == FirstDue(expired, n, now, locked)
      {
        if Eligible(jobs[n], now) && n !in locked && (pick == |jobs| || jobs[n].nextAt < jobs[pick].nextAt) {
          pick := n;
        }
      }
      if pick == |jobs| {
        return Nothing;
      }
      claims := claims + [Attempt(pick, worker, jobs[pick].attempts, jobs[pick].external, None, true)];
      jobs := jobs[pick := Taken(jobs[pick], worker, leaseMs, now)];
      return Done;
    }

    /** Ends an attempt with the given row, when its worker still holds the lease in one of the states. */
    method Finish(c: nat, states: set<JobState>, j: Job) returns (reply: Reply)
      requires Usable(View(), c)
      modifies this
      ensures reply == if Holds(old(View()), c, states) then Done else Refused("PROVER_JOB_LEASE_LOST")
      ensures View() == if reply == Done then Update(old(View()), c, j) else old(View())
    {
      var n := claims[c].job;
      if jobs[n].lease.Some? && jobs[n].lease.value.owner == claims[c].worker && jobs[n].state in states {
        jobs, claims := jobs[n := j], claims[c := claims[c].(live := false)];
        return Done;
      }
      return Refused("PROVER_JOB_LEASE_LOST");
    }

    method Submit(c: nat, external: string, now: int) returns (reply: Reply)
      requires Usable(View(), c)
      modifies this
      ensures (View(), reply) == SubmitStep(old(View()), c, external, now)
    {
      var n := claims[c].job;
      if Holds(View(), c, {SUBMITTING}) && exists m :: 0 <= m < |jobs| && m != n && jobs[m].external == Some(external) {
        return Refused("23505");
      }
      reply := Finish(c, {SUBMITTING}, jobs[n].(state := REMOTE_PENDING, external := Some(external), lease := None, nextAt := now + 1000, lastError := None));
    }

    method Poll(c: nat, remote: Remote, now: int) returns (reply: Reply)
      requires Usable(View(), c) && claims[c].external.Some?
      modifies this
      ensures (View(), reply) == Attempted(old(View()), c, remote, now)
    {
      var j := jobs[claims[c].job];
      match remote {
        case Running =>
          reply := Finish(c, {VERIFYING}, j.(state := REMOTE_PENDING, lease := None, nextAt := now + PollIntervalMs(j.polls)));
        case Ended(code) =>
          reply := Finish(c, {VERIFYING}, j.(state := FAILED, lease := None, lastError := Some(code)));
        case Fails(code) => return Refused(code);
        case SubmittedAs(_) => return Refused("PROVER_SERVICE_FAILURE");
        case Proof(gate) =>
          reply := Present(c, gate);
          if reply == Done {
            reply := Finish(c, {VERIFYING}, j.(state := VERIFIED, receipt := claims[c].accepted, lease := None, lastError := None));
          }
      }
    }

    /** Hands the proof to the gate, or finds the receipt an earlier worker obtained. */
    method Present(c: nat, gate: Gate) returns (reply: Reply)
      requires Usable(View(), c)
      modifies this
      ensures (View(), reply) == ProofStep(old(View()), c, gate)
    {
      var transaction := jobs[claims[c].job].transaction;
      var answer := gate;
      if gate.Accepts? {
        if transaction in receipts || gate.receipt in receipts.Values {
          answer := Throws("ZK_TRANSACTION_NOT_AUTHORIZED");
        } else {
          receipts := receipts[transaction := gate.receipt];
        }
      }
      if answer.Throws? && (answer.code != "ZK_TRANSACTION_NOT_AUTHORIZED" || transaction !in receipts) {
        return Refused(answer.code);
      }
      claims := claims[c := claims[c].(accepted := Some(receipts[transaction]))];
      return Done;
    }

    method RetryJob(c: nat, code: string, now: int) returns (reply: Reply)
      requires Usable(View(), c)
      modifies this
      ensures (View(), reply) == RetryStep(old(View()), c, code, now)
    {
      var n := claims[c].job;
      var failedAttempts := claims[c].attempts + 1;
      var terminal := failedAttempts >= MAX_ATTEMPTS;
      claims := claims[c := claims[c].(live := false)];
      if !Holds(View(), c, {SUBMITTING, VERIFYING}) || jobs[n].attempts >= ROW_LIMIT {
        return Refused(code);
      }
      jobs := jobs[n := jobs[n].(state := if terminal then FAILED else RETRYABLE, attempts := jobs[n].attempts + 1, lease := None,
        lastError := Some(code), nextAt := now + RetryDelayMs(failedAttempts))];
      return Done;
    }

    method RunOnce(worker: string, claimedAt: int, leaseMs: int, locked: set<nat>, remote: Remote, answeredAt: int, failedAt: int) returns (reply: Reply)
      requires Inv(View())
      modifies this
      ensures Inv(View()) && (View(), reply) == RanOnce(old(View()), worker, claimedAt, leaseMs, locked, remote, answeredAt, failedAt)
    {
      hide Inv, ClaimStep, SubmitStep, RetryStep;
      RanOnceKeeps(View(), worker, claimedAt, leaseMs, locked, remote, answeredAt, failedAt);
      reply := ClaimJob(worker, claimedAt, leaseMs, locked);
      if reply != Done {
        return;
      }
      var c := |claims| - 1;
      ghost var claimed := View();
      if claims[c].external.Some? {
        reply := Poll(c, remote, answeredAt);
      } else if remote.SubmittedAs? {
        reply := Submit(c, remote.external, answeredAt);
      } else {
        reply := Refused(if remote.Fails? then remote.code else "PROVER_SERVICE_FAILURE");
      }
      if reply.Refused? {
        RefusedStaysUsable(claimed, c, remote, answeredAt);
        reply := RetryJob(c, reply.code, failedAt);
      }
    }
  }
}
