/** What each call of a prover worker does to the job it holds, and how a job ends. */
module ProverOutcomes {
  import opened Common
  import opened ProverQueue

  /** The worker of the claim still leases its job. */
  predicate Holder(s: State, c: nat) {
    Usable(s, c) && s.jobs[s.claims[c].job].lease.Some? && s.jobs[s.claims[c].job].lease.value.owner == s.claims[c].worker
  }

  /** Only the claim's job changed, to k, and the claim is over. */
  predicate Becomes(s: State, t: State, c: nat, k: Job)
    requires Usable(s, c)
  {
    && t.jobs == s.jobs[s.claims[c].job := k] && t.claims == s.claims[c := s.claims[c].(live := false)] && t.receipts == s.receipts
  }

  /** Seconds a remote job is left alone after so many polls: two, doubled every five polls up to four times, and at most thirty. */
  function PollSeconds(polls: nat): nat {
    if polls < 5 then 2 else if polls < 10 then 4 else if polls < 15 then 8 else if polls < 20 then 16 else 30
  }

  /** A submission hands the job to the prover service under an identifier nobody else's job has. */
  lemma SubmissionOutcome(s: State, c: nat, external: string, now: int)
    requires Inv(s) && Holder(s, c) && s.claims[c].external.None? && s.jobs[s.claims[c].job].state == SUBMITTING
    ensures var (t, reply) := Step(s, Submitted(c, external, now)); var n := s.claims[c].job; var j := s.jobs[n];
      if exists m :: 0 <= m < |s.jobs| && m != n && s.jobs[m].external == Some(external) then t == s && reply == Refused("23505")
      else
        && reply == Done && Becomes(s, t, c, t.jobs[n])
        && t.jobs[n] == Job(j.transaction, REMOTE_PENDING, Some(external), j.attempts, j.polls, now + 1000, None, None, None)
  {
    assert JobGood(s.jobs[s.claims[c].job], s.receipts);
  }

  /** A poll that finds the proof still running puts the job back, the same remote job with the same count, due again after its interval. */
  lemma PollOutcome(s: State, c: nat, now: int)
    requires Inv(s) && Holder(s, c) && s.claims[c].external.Some? && s.jobs[s.claims[c].job].state == VERIFYING
    ensures var (t, reply) := Step(s, StillRunning(c, now)); var n := s.claims[c].job; var j := s.jobs[n];
      && reply == Done && Becomes(s, t, c, t.jobs[n])
      && t.jobs[n] == Job(j.transaction, REMOTE_PENDING, j.external, j.attempts, j.polls, now + 1000 * PollSeconds(j.polls), None, None, j.lastError)
      && t.jobs[n].external.Some? && now < t.jobs[n].nextAt <= now + 30_000
  {
    assert JobGood(s.jobs[s.claims[c].job], s.receipts);
  }

  /** A remote failure ends the job with the service's code. */
  lemma RemoteFailureOutcome(s: State, c: nat, code: string)
    requires Inv(s) && Holder(s, c) && s.claims[c].external.Some? && s.jobs[s.claims[c].job].state == VERIFYING
    ensures var (t, reply) := Step(s, RemoteFailed(c, code)); var n := s.claims[c].job; var j := s.jobs[n];
      && reply == Done && Becomes(s, t, c, t.jobs[n])
      && t.jobs[n] == Job(j.transaction, FAILED, j.external, j.attempts, j.polls, j.nextAt, None, None, Some(code))
  {
    assert JobGood(s.jobs[s.claims[c].job], s.receipts);
  }

  /** A proof the gate has taken verifies the job with that receipt. */
  lemma VerificationOutcome(s: State, c: nat)
    requires Inv(s) && Holder(s, c) && s.claims[c].external.Some? && s.jobs[s.claims[c].job].state == VERIFYING && s.claims[c].accepted.Some?
    ensures var (t, reply) := Step(s, RecordVerified(c)); var n := s.claims[c].job; var j := s.jobs[n];
      && reply == Done && Becomes(s, t, c, t.jobs[n])
      && t.jobs[n] == Job(j.transaction, VERIFIED, j.external, j.attempts, j.polls, j.nextAt, None, s.claims[c].accepted, None)
      && j.transaction in s.receipts && t.jobs[n].receipt == Some(s.receipts[j.transaction])
  {
    assert JobGood(s.jobs[s.claims[c].job], s.receipts);
  }

  /** Seconds until a job is tried again after so many failures before this one. */
  function RetrySeconds(failed: nat): nat {
    if failed == 0 then 1 else if failed == 1 then 2 else if failed == 2 then 4 else if failed == 3 then 8 else if failed == 4 then 16
    else if failed == 5 then 32 else 60
  }

  /** A failure counts one attempt; the job ends when the worker's own count is at the last one, and waits otherwise. */
  lemma RetryOutcome(s: State, c: nat, code: string, now: int)
    requires Inv(s) && Holder(s, c) && s.jobs[s.claims[c].job].attempts < ROW_LIMIT
    ensures var (t, reply) := Step(s, Retry(c, code, now)); var n := s.claims[c].job; var j := s.jobs[n];
      && reply == Done && Becomes(s, t, c, t.jobs[n])
      && t.jobs[n] == Job(j.transaction, if s.claims[c].attempts + 1 >= MAX_ATTEMPTS then FAILED else RETRYABLE, j.external, j.attempts + 1, j.polls,
        now + 1000 * RetrySeconds(s.claims[c].attempts + 1), None, None, Some(code))
  {
    assert JobGood(s.jobs[s.claims[c].job], s.receipts);
  }

  /** A worker whose lease is gone writes no job, whatever it reports. */
  lemma LostLeaseOutcome(s: State, c: nat, a: Action)
    requires Inv(s) && Usable(s, c) && !Holder(s, c)
    requires (a.Submitted? || a.StillRunning? || a.RemoteFailed? || a.RecordVerified? || a.Retry?) && a.claim == c
    ensures Step(s, a).0.jobs == s.jobs && Step(s, a).0.receipts == s.receipts && Step(s, a).1 != Done
  {
  }

  /** The gate takes a transaction's first proof, under a receipt identifier nobody has. */
  predicate GateTakes(s: State, transaction: string, gate: Gate) {
    gate.Accepts? && transaction !in s.receipts && gate.receipt !in s.receipts.Values
  }

  /** The proof goes to the gate without touching any job; the worker learns the transaction's one receipt, or that there is none. */
  lemma PresentationOutcome(s: State, c: nat, gate: Gate)
    requires Inv(s) && Usable(s, c) && s.claims[c].external.Some?
    ensures var (t, reply) := Step(s, PresentProof(c, gate)); var x := s.jobs[s.claims[c].job].transaction;
      && t.jobs == s.jobs
      && (reply == Done <==> GateTakes(s, x, gate) || (x in s.receipts && (gate.Accepts? || gate.code == "ZK_TRANSACTION_NOT_AUTHORIZED")))
      && (reply == Done ==> x in t.receipts && t.claims == s.claims[c := s.claims[c].(accepted := Some(t.receipts[x]))])
      && (reply != Done ==> t == s)
  {
  }

  /** A claim leases a due job to the worker until its lease time has passed, to submit it or, once it has a remote job, to poll it. */
  lemma ClaimOutcome(s: State, worker: string, now: int, leaseMs: int, locked: set<nat>)
    requires Inv(s) && Step(s, Claim(worker, now, leaseMs, locked)).1 == Done
    ensures var t := Step(s, Claim(worker, now, leaseMs, locked)).0;
      && |t.claims| == |s.claims| + 1 && t.claims[..|s.claims|] == s.claims
      && var c := t.claims[|s.claims|]; var n := c.job;
        && n < |s.jobs| && n !in locked && c == Attempt(n, worker, t.jobs[n].attempts, s.jobs[n].external, None, true)
        && t.jobs[n].lease == Some(Lease(worker, now + leaseMs)) && t.jobs[n].external == s.jobs[n].external
        && t.jobs[n].state == (if s.jobs[n].external.Some? then VERIFYING else SUBMITTING)
        && t.jobs[n].polls == s.jobs[n].polls + (if s.jobs[n].external.Some? then 1 else 0)
        && (forall m :: 0 <= m < |s.jobs| && m != n ==> t.jobs[m] == s.jobs[m] || (Leased(s.jobs[m]) && s.jobs[m].lease.Some? && s.jobs[m].lease.value.until <= now))
        && (s.jobs[n].nextAt <= now || Leased(s.jobs[n]))
  {
    hide FirstDue;
    assert Step(s, Claim(worker, now, leaseMs, locked)) == ClaimStep(s, worker, now, leaseMs, locked);
    var jobs := Expire(s.jobs, now);
    var n := FirstDue(jobs, |jobs|, now, locked);
    assert JobGood(s.jobs[n], s.receipts);
  }

  /** A request queues a new job for an authorized transaction that has neither a job nor a receipt, and nothing otherwise. */
  lemma RequestOutcome(s: State, transaction: string, authorized: bool)
    ensures var (t, reply) := Step(s, Request(transaction, authorized));
      if authorized && transaction !in s.receipts && forall n :: 0 <= n < |s.jobs| ==> s.jobs[n].transaction != transaction then
        reply == Done && t == s.(jobs := s.jobs + [Job(transaction, QUEUED, None, 0, 0, 0, None, None, None)])
      else t == s && (reply == Nothing <==> authorized && transaction !in s.receipts)
  {
  }

  // ----- every way a job moves -----

  /** What the holder of a job turns it into with each call. */
  function Turned(s: State, c: nat, a: Action): Job
    requires Usable(s, c)
  {
    var k, j := s.claims[c], s.jobs[s.claims[c].job];
    match a
    case Submitted(_, external, now) => Job(j.transaction, REMOTE_PENDING, Some(external), j.attempts, j.polls, now + 1000, None, None, None)
    case StillRunning(_, now) =>
      Job(j.transaction, REMOTE_PENDING, j.external, j.attempts, j.polls, now + 1000 * PollSeconds(j.polls), None, None, j.lastError)
    case RemoteFailed(_, code) => Job(j.transaction, FAILED, j.external, j.attempts, j.polls, j.nextAt, None, None, Some(code))
    case RecordVerified(_) => Job(j.transaction, VERIFIED, j.external, j.attempts, j.polls, j.nextAt, None, k.accepted, None)
    case Retry(_, code, now) =>
      Job(j.transaction, if k.attempts + 1 >= MAX_ATTEMPTS then FAILED else RETRYABLE, j.external, j.attempts + 1, j.polls,
        now + 1000 * RetrySeconds(k.attempts + 1), None, None, Some(code))
    case _ => j
  }

  /** The job state a call needs its holder's job in. */
  predicate Suits(j: Job, k: Attempt, a: Action) {
    match a
    case Submitted(_, _, _) => k.external.None? && j.state == SUBMITTING
    case StillRunning(_, _) => k.external.Some? && j.state == VERIFYING
    case RemoteFailed(_, _) => k.external.Some? && j.state == VERIFYING
    case RecordVerified(_) => k.external.Some? && j.state == VERIFYING && k.accepted.Some?
    case Retry(_, _, _) => true
    case _ => false
  }

  predicate Reports(a: Action) {
    a.Submitted? || a.StillRunning? || a.RemoteFailed? || a.RecordVerified? || a.Retry?
  }

  /** A lapsed lease is one failed attempt, the last of which ends the job. */
  function Lapsed(j: Job, now: int): Job {
    Job(j.transaction, if j.attempts + 1 >= MAX_ATTEMPTS then FAILED else RETRYABLE, j.external, j.attempts + 1, j.polls, now, None, j.receipt,
      Some("PROVER_LEASE_EXPIRED"))
  }

  /** A claim may count a lapsed lease, and may then lease the job to its worker. */
  predicate Claims(j: Job, worker: string, now: int, leaseMs: int, after: Job) {
    var waiting := if Leased(j) && j.lease.Some? && j.lease.value.until <= now then Lapsed(j, now) else j;
    || after == waiting
    || (waiting.nextAt <= now && (waiting.state == QUEUED || waiting.state == REMOTE_PENDING || waiting.state == RETRYABLE)
      && after == waiting.(state := if waiting.external.Some? then VERIFYING else SUBMITTING, lease := Some(Lease(worker, now + leaseMs)),
           polls := waiting.polls + if waiting.external.Some? then 1 else 0))
  }

  /** Counting the lapsed leases would take some counter past the table's ceiling. */
  predicate Overflows(s: State, now: int) {
    exists n :: 0 <= n < |s.jobs| &&
      (if Leased(s.jobs[n]) && s.jobs[n].lease.Some? && s.jobs[n].lease.value.until <= now then s.jobs[n].attempts + 1 else s.jobs[n].attempts) > ROW_LIMIT
  }

  /** Every way a job row changes: a claim, or a report of the worker that holds it, turning it as that report does. */
  predicate JobStep(s: State, a: Action, t: State, n: nat)
    requires n < |s.jobs| && n < |t.jobs|
  {
    if a.Claim? then (if Overflows(s, a.now) then t.jobs[n] == s.jobs[n] else Claims(s.jobs[n], a.worker, a.now, a.leaseMs, t.jobs[n]))
    else if Reports(a) then
      || t.jobs[n] == s.jobs[n]
      || (Holder(s, a.claim) && s.claims[a.claim].job == n && Suits(s.jobs[n], s.claims[a.claim], a) && t.jobs[n] == Turned(s, a.claim, a))
    else t.jobs[n] == s.jobs[n]
  }

  lemma ReportMoves(s: State, a: Action)
    requires Inv(s) && Reports(a) && Usable(s, a.claim)
    ensures |Step(s, a).0.jobs| == |s.jobs| && forall n :: 0 <= n < |s.jobs| ==> JobStep(s, a, Step(s, a).0, n)
  {
    var c := a.claim;
    if !Holder(s, c) {
      LostLeaseOutcome(s, c, a);
      hide Step, Inv;
    } else if !Suits(s.jobs[s.claims[c].job], s.claims[c], a) {
      UnsuitedReport(s, a);
      hide Step, Inv;
    } else {
      match a {
        case Submitted(_, external, now) => SubmissionOutcome(s, c, external, now);
        case StillRunning(_, now) => PollOutcome(s, c, now);
        case RemoteFailed(_, code) => RemoteFailureOutcome(s, c, code);
        case RecordVerified(_) => VerificationOutcome(s, c);
        case Retry(_, code, now) =>
          if s.jobs[s.claims[c].job].attempts < ROW_LIMIT {
            RetryOutcome(s, c, code, now);
          } else {
            CeilingOutcome(s, c, code, now);
          }
        case _ =>
      }
      hide Step, Inv;
    }
  }

  lemma UnsuitedReport(s: State, a: Action)
    requires Inv(s) && Reports(a) && Holder(s, a.claim) && !Suits(s.jobs[s.claims[a.claim].job], s.claims[a.claim], a)
    ensures Step(s, a).0.jobs == s.jobs
  {
    assert JobGood(s.jobs[s.claims[a.claim].job], s.receipts);
  }

  lemma CeilingOutcome(s: State, c: nat, code: string, now: int)
    requires Usable(s, c) && s.jobs[s.claims[c].job].attempts >= ROW_LIMIT
    ensures Step(s, Retry(c, code, now)).0.jobs == s.jobs
  {
  }

  lemma LapsedJob(j: Job, now: int)
    ensures ExpireJob(j, now) == if Leased(j) && j.lease.Some? && j.lease.value.until <= now then Lapsed(j, now) else j
  {
  }

  lemma ClaimMoves(s: State, a: Action, n: nat)
    requires Inv(s) && a.Claim? && n < |s.jobs|
    ensures n < |Step(s, a).0.jobs| && JobStep(s, a, Step(s, a).0, n)
  {
    hide FirstDue, ExpireJob, Lapsed;
    LapsedJob(s.jobs[n], a.now);
    ClaimRefusedIff(s, a);
    hide Overflows;
    var jobs := Expire(s.jobs, a.now);
    assert jobs[n] == ExpireJob(s.jobs[n], a.now);
  }

  /** The job as a claim at this clock finds it, once lapsed leases are counted. */
  function Found(s: State, n: nat, now: int): Job
    requires n < |s.jobs|
  {
    if Leased(s.jobs[n]) && s.jobs[n].lease.Some? && s.jobs[n].lease.value.until <= now then Lapsed(s.jobs[n], now) else s.jobs[n]
  }

  /** It waits for a worker, is due, and nobody else has it locked. */
  predicate Due(s: State, n: nat, now: int, locked: set<nat>) {
    && n < |s.jobs| && n !in locked
    && (Found(s, n, now).state == QUEUED || Found(s, n, now).state == REMOTE_PENDING || Found(s, n, now).state == RETRYABLE)
    && Found(s, n, now).nextAt <= now
  }

  /** A claim finds nothing exactly when no job is due, and otherwise takes the one due first, the older row when two are due together. */
  lemma ClaimTakesFirstDue(s: State, worker: string, now: int, leaseMs: int, locked: set<nat>)
    requires Inv(s) && !Overflows(s, now)
    ensures var (t, reply) := Step(s, Claim(worker, now, leaseMs, locked));
      && (reply == Nothing <==> forall n: nat :: !Due(s, n, now, locked))
      && (reply != Nothing ==>
        && reply == Done && |t.claims| == |s.claims| + 1
        && var n := t.claims[|s.claims|].job;
          && Due(s, n, now, locked)
          && forall m: nat :: Due(s, m, now, locked) ==>
            Found(s, n, now).nextAt < Found(s, m, now).nextAt || (Found(s, n, now).nextAt == Found(s, m, now).nextAt && n <= m))
  {
    var a := Claim(worker, now, leaseMs, locked);
    ClaimRefusedIff(s, a);
    var jobs := Expire(s.jobs, now);
    forall n | 0 <= n < |jobs| ensures jobs[n] == Found(s, n, now) && (Eligible(jobs[n], now) && n !in locked <==> Due(s, n, now, locked)) {
      LapsedJob(s.jobs[n], now);
      assert jobs[n] == ExpireJob(s.jobs[n], now);
      assert JobGood(s.jobs[n], s.receipts);
    }
    hide Overflows, Expire, FirstDue, Due, Eligible, Inv, Taken;
    assert Step(s, a) == ClaimStep(s, worker, now, leaseMs, locked);
    var pick := FirstDue(jobs, |jobs|, now, locked);
    forall n: nat ensures Due(s, n, now, locked) ==> n < |jobs| {
      DueBelow(s, n, now, locked);
    }
  }

  lemma DueBelow(s: State, n: nat, now: int, locked: set<nat>)
    ensures Due(s, n, now, locked) ==> n < |s.jobs|
  {
  }

  /** A claim is refused exactly then, and changes nothing. */
  lemma ClaimRefusedIff(s: State, a: Action)
    requires a.Claim?
    ensures Step(s, a).1 == Refused("23514") <==> Overflows(s, a.now)
    ensures Step(s, a).1.Refused? <==> Overflows(s, a.now)
    ensures Overflows(s, a.now) ==> Step(s, a).0 == s
  {
    hide FirstDue, Taken;
    var jobs := Expire(s.jobs, a.now);
    forall n | 0 <= n < |jobs| ensures jobs[n].attempts ==
      (if Leased(s.jobs[n]) && s.jobs[n].lease.Some? && s.jobs[n].lease.value.until <= a.now then s.jobs[n].attempts + 1 else s.jobs[n].attempts)
    {
      assert jobs[n] == ExpireJob(s.jobs[n], a.now);
    }
  }

  lemma OtherMoves(s: State, a: Action)
    requires Inv(s) && !a.Claim? && !(Reports(a) && Usable(s, a.claim))
    ensures |s.jobs| <= |Step(s, a).0.jobs| && Step(s, a).0.jobs[..|s.jobs|] == s.jobs
  {
    hide GateStep;
    if a.AcceptElsewhere? {
      GateKeeps(s, a.transaction, Accepts(a.receipt));
    }
    if a.PresentProof? && Usable(s, a.claim) {
      GateKeeps(s, s.jobs[s.claims[a.claim].job].transaction, a.gate);
    }
  }

  /**
   Every way a job moves in reachable states, each pinned field by field: a claim, which
   counts a lapsed lease and may lease the job for its time, and the five reports of the
   worker that holds it. Anything else leaves it alone.
   */
  lemma JobsMove(s: State, a: Action, n: nat)
    requires Inv(s) && n < |s.jobs|
    ensures n < |Step(s, a).0.jobs| && JobStep(s, a, Step(s, a).0, n)
  {
    if a.Claim? {
      ClaimMoves(s, a, n);
    } else if Reports(a) && Usable(s, a.claim) {
      ReportMoves(s, a);
    } else {
      OtherMoves(s, a);
      assert Step(s, a).0.jobs[n] == Step(s, a).0.jobs[..|s.jobs|][n];
    }
    hide Step, Inv;
  }

  // ----- how a job fails -----

  /** One of the three ways to fail a job: the service says so to its holder, the holder gives up at its last attempt, or the lease runs out at the last attempt. */
  predicate FailsJob(s: State, a: Action, n: nat) {
    n < |s.jobs| &&
    match a
    case RemoteFailed(c, _) => Holder(s, c) && s.claims[c].job == n && s.claims[c].external.Some? && s.jobs[n].state == VERIFYING
    case Retry(c, _, _) => Holder(s, c) && s.claims[c].job == n && s.claims[c].attempts + 1 >= MAX_ATTEMPTS
    case Claim(_, now, _, _) =>
      Leased(s.jobs[n]) && s.jobs[n].lease.Some? && s.jobs[n].lease.value.until <= now && s.jobs[n].attempts + 1 >= MAX_ATTEMPTS
    case _ => false
  }

  /** Exactly the steps that fail a job. */
  lemma FailsIff(s: State, a: Action, n: nat)
    requires Inv(s) && n < |s.jobs| && s.jobs[n].state != FAILED
    ensures n < |Step(s, a).0.jobs|
    ensures Step(s, a).0.jobs[n].state == FAILED <==> FailsJob(s, a, n) && !Step(s, a).1.Refused?
  {
    hide FirstDue, GateStep;
    assert JobGood(s.jobs[n], s.receipts);
    if a.AcceptElsewhere? {
      GateKeeps(s, a.transaction, Accepts(a.receipt));
    }
    if a.PresentProof? && Usable(s, a.claim) {
      GateKeeps(s, s.jobs[s.claims[a.claim].job].transaction, a.gate);
    }
  }

  lemma NewJobsQueue(s: State, a: Action, n: nat)
    requires Inv(s) && |s.jobs| <= n < |Step(s, a).0.jobs|
    ensures Step(s, a).0.jobs[n].state == QUEUED
  {
    hide GateStep, FirstDue, JobGood;
    if a.AcceptElsewhere? {
      GateKeeps(s, a.transaction, Accepts(a.receipt));
    }
    if a.PresentProof? && Usable(s, a.claim) {
      GateKeeps(s, s.jobs[s.claims[a.claim].job].transaction, a.gate);
    }
  }

  /** The call at position i failed the job, which is as it left it. */
  ghost predicate FailedAt(actions: seq<Action>, i: nat, n: nat) {
    && i < |actions| && n < |Run(actions[..i]).jobs| && Run(actions[..i]).jobs[n].state != FAILED && FailsJob(Run(actions[..i]), actions[i], n)
    && n < |Run(actions[..i + 1]).jobs| && n < |Run(actions).jobs| && Run(actions[..i + 1]).jobs[n] == Run(actions).jobs[n]
  }

  /**
   In every run a failed job was failed by one call of just three kinds, and stands as
   that call left it; no submission, poll, presentation or stale worker ever fails one.
   */
  lemma {:induction false} FailedByOneCall(actions: seq<Action>, n: nat)
    requires n < |Run(actions).jobs| && Run(actions).jobs[n].state == FAILED
    ensures exists i: nat :: FailedAt(actions, i, n)
  {
    hide Step, Inv, FailsJob;
    RunEmpty();
    var m := |actions| - 1;
    var front := actions[..m];
    var s := Run(front);
    RunKeeps(front);
    assert actions[..m + 1] == actions;
    if n < |s.jobs| && s.jobs[n].state == FAILED {
      FailedByOneCall(front, n);
      var i: nat :| FailedAt(front, i, n);
      assert front[..i] == actions[..i] && front[..i + 1] == actions[..i + 1];
      StaysFailed(s, actions[m], n);
      assert FailedAt(actions, i, n);
    } else {
      if n < |s.jobs| {
        FailsIff(s, actions[m], n);
      } else {
        NewJobsQueue(s, actions[m], n);
      }
      assert FailedAt(actions, m, n);
    }
  }

  lemma StaysFailed(s: State, a: Action, n: nat)
    requires Inv(s) && n < |s.jobs| && s.jobs[n].state == FAILED
    ensures n < |Step(s, a).0.jobs| && Step(s, a).0.jobs[n] == s.jobs[n]
  {
    if a.Claim? {
      ClaimMovesJobs(s, a, n);
    } else {
      StepMovesJobs(s, a, n);
    }
    hide Step, Inv;
  }
}
