/** What the records of the in-memory engine say: settled transactions stand, receipts tell their transaction, and cases name the calls behind them. */
module ControlPlaneRecords {
  import opened Common
  import opened ControlPlane
  import opened ControlPlaneSafety

  // ----- settled transactions stand -----

  lemma SimulateKeepsRows(w: World, s: State, key: string, r: Request, x: string)
    requires r.TransferRequest? && x in s.transactions
    ensures x in Simulate(w, s, key, r).0.transactions && Simulate(w, s, key, r).0.transactions[x] == s.transactions[x]
  {
    hide CurrentNav, EligibleError, Abs, Get;
  }

  lemma ExecuteKeepsRows(w: World, s: State, key: string, r: Request, x: string)
    requires x in s.transactions
    ensures x in Execute(w, s, key, r).0.transactions && Execute(w, s, key, r).0.transactions[x] == s.transactions[x]
  {
    hide SettleError, CurrentNav, Paid, Moved, SettledTransaction;
  }

  /** The transaction behind a case is not settled, so another one is not touched with it. */
  lemma ReviewedElsewhere(s: State, id: string, x: string)
    requires Inv(s) && id in s.cases && IsSettled(s, x)
    ensures s.cases[id].transaction != x
  {
    hide Money, Units, Holdings, Books, RetryKey, Carries;
    assert CaseGood(s, id);
  }

  lemma ResolveKeepsRows(s: State, id: string, state: TxState, stage: Stage, c: Case, now: int, x: string)
    requires c.transaction in s.transactions && x in s.transactions && x != c.transaction
    ensures x in Resolve(s, id, state, stage, c, now).transactions && Resolve(s, id, state, stage, c, now).transactions[x] == s.transactions[x]
  {
  }

  lemma ApproveKeepsSettled(w: World, s: State, id: string, checker: string, x: string)
    requires Inv(s) && IsSettled(s, x)
    ensures x in Approve(w, s, id, checker).0.transactions && Approve(w, s, id, checker).0.transactions[x] == s.transactions[x]
  {
    hide Inv, Execute, Resolve, RetryKey, Mark;
    if id in s.cases && s.cases[id].transaction in s.transactions && s.cases[id].proposal.Some? {
      ReviewedElsewhere(s, id, x);
      var c, p := s.cases[id], s.cases[id].proposal.value;
      var y := c.transaction;
      var approved := s.(transactions := s.transactions[y := Mark(s.transactions[y], s.transactions[y].state, ReviewApproved, w.now)]);
      var t := Execute(w, approved, RetryKey(id, p.replacement), Renamed(c.retry, p.replacement)).0;
      ExecuteKeepsRows(w, approved, RetryKey(id, p.replacement), Renamed(c.retry, p.replacement), x);
      ResolveKeepsRows(approved, id, CANCELLED, Cancelled, c.(status := RESOLVED_CANCELLED, checker := Some(checker)), w.now, x);
      ResolveKeepsRows(approved, id, REQUIRES_REVIEW, RetryBlocked, c.(status := OPEN, proposal := None), w.now, x);
      ResolveKeepsRows(t, id, REPLACED, Replaced, c.(status := RESOLVED_RETRIED, replacement := Some(p.replacement), checker := Some(checker)), w.now, x);
    }
  }

  lemma ProposeKeepsSettled(w: World, s: State, id: string, maker: string, retry: bool, replacement: string, x: string)
    requires Inv(s) && IsSettled(s, x)
    ensures var t := Propose(w, s, id, maker, retry, replacement).0; x in t.transactions && t.transactions[x] == s.transactions[x]
  {
    hide Inv, Mark;
    if id in s.cases {
      ReviewedElsewhere(s, id, x);
    }
  }

  lemma StepKeepsSettled(s: State, e: Event, x: string)
    requires Inv(s) && IsSettled(s, x)
    ensures x in Step(s, e).0.transactions && Step(s, e).0.transactions[x] == s.transactions[x]
  {
    hide Inv, Execute, Simulate, Propose, Approve, CreditCash, Configure;
    match e.action
    case DoExecute(key, r) => ExecuteKeepsRows(e.world, s, key, r, x);
    case DoSimulate(key, r) =>
      if r.TransferRequest? {
        SimulateKeepsRows(e.world, s, key, r, x);
      }
    case DoPropose(id, maker, retry, replacement) => ProposeKeepsSettled(e.world, s, id, maker, retry, replacement, x);
    case DoApprove(id, checker) => ApproveKeepsSettled(e.world, s, id, checker, x);
    case DoCredit(account, currency, amount) => CreditKeepsEntries(s, account, currency, amount);
    case _ => ConfigureLeaves(s, e);
  }

  /** A settled transaction is the same in every later state of any run. */
  lemma {:induction false} SettledForever(before: seq<Event>, later: seq<Event>, x: string)
    requires IsSettled(Run(before), x)
    ensures x in Run(before + later).transactions && Run(before + later).transactions[x] == Run(before).transactions[x]
    decreases |later|
  {
    hide Step, Inv;
    if later == [] {
      assert before + later == before;
    } else {
      var front, last := later[..|later| - 1], later[|later| - 1];
      SettledForever(before, front, x);
      assert (before + later)[..|before + later| - 1] == before + front && (before + later)[|before + later| - 1] == last;
      RunKeeps(before + front);
      StepKeepsSettled(Run(before + front), last, x);
    }
  }

  // ----- receipts -----

  /** The stages of a creation, all stamped with one reading of the clock. */
  predicate StampedAt(stamps: seq<Stamp>, now: int, stages: seq<Stage>) {
    |stamps| == |stages| && forall i :: 0 <= i < |stages| ==> stamps[i] == Stamp(stages[i], now)
  }

  /** What a transaction says of its creation. */
  ghost predicate CreatedAs(t: Transaction) {
    var made := Creation(t.lifecycle);
    if t.settledAt.Some? then StampedAt(made, t.settledAt.value, [Requested, PolicyChecked, CashReserved, RegisterPending, Settled])
    else t.mode == EXCEPTION_REVIEW && made != [] && StampedAt(made, made[0].at, [Requested, PolicyChecked, CashReserved, RegisterFailed, RequiresReview])
  }

  /** A stored result tells what its transaction was created as. */
  ghost predicate Told(s: State, key: string) {
    key in s.idempotency && s.idempotency[key].request.id in s.transactions &&
    var e, t := s.idempotency[key], s.transactions[s.idempotency[key].request.id];
    && CreatedAs(t) && e.result.transaction == e.request.id && e.result.settledAt == t.settledAt && e.result.mode == t.mode
    && e.result.state == (if t.settledAt.Some? then SETTLED else REQUIRES_REVIEW)
    && |e.result.lifecycle| == |Creation(t.lifecycle)|
    && forall i :: 0 <= i < |e.result.lifecycle| ==> e.result.lifecycle[i] == Creation(t.lifecycle)[i].stage
  }

  lemma FiveStamps(a: Stamp, b: Stamp, c: Stamp, d: Stamp, e: Stamp)
    requires AtCreation(a.stage) && AtCreation(b.stage) && AtCreation(c.stage) && AtCreation(d.stage) && AtCreation(e.stage)
    ensures Creation([a, b, c, d, e]) == [a, b, c, d, e]
  {
    var all := [a, b, c, d, e];
    assert all[..4][..3] == all[..3] && all[..3][..2] == all[..2] && all[..2][..1] == all[..1] && all[..1][..0] == [];
    assert Creation(all[..1]) == [a];
    assert Creation(all[..2]) == [a, b];
    assert Creation(all[..3]) == [a, b, c];
    assert Creation(all[..4]) == [a, b, c, d];
  }

  lemma SettledTells(s: State, r: Request, nav: Nav, now: int)
    ensures var t := SettledTransaction(s, r, nav, now);
      CreatedAs(t) && t.state == SETTLED && t.settledAt == Some(now) && Creation(t.lifecycle) == t.lifecycle
  {
    FiveStamps(Stamp(Requested, now), Stamp(PolicyChecked, now), Stamp(CashReserved, now), Stamp(RegisterPending, now), Stamp(Settled, now));
    hide Creation;
  }

  lemma FailedTells(r: Request, nav: Nav, now: int)
    requires r.TransferRequest?
    ensures var t := FailedTransaction(r, nav, now);
      CreatedAs(t) && t.state == REQUIRES_REVIEW && t.settledAt == None && Creation(t.lifecycle) == t.lifecycle
  {
    FiveStamps(Stamp(Requested, now), Stamp(PolicyChecked, now), Stamp(CashReserved, now), Stamp(RegisterFailed, now), Stamp(RequiresReview, now));
    hide Creation;
  }

  lemma ExecuteTells(w: World, s: State, key: string, r: Request, k: string)
    requires k !in s.idempotency && k in Execute(w, s, key, r).0.idempotency
    ensures Told(Execute(w, s, key, r).0, k)
  {
    SettledTells(s, r, CurrentNav(s, r.product, w.now).value, w.now);
    hide SettleError, CurrentNav, Paid, Moved, SettledTransaction, CreatedAs, Creation;
  }

  lemma SimulateTells(w: World, s: State, key: string, r: Request, k: string)
    requires r.TransferRequest? && k !in s.idempotency && k in Simulate(w, s, key, r).0.idempotency
    ensures Told(Simulate(w, s, key, r).0, k)
  {
    FailedTells(r, CurrentNav(s, r.product, w.now).value, w.now);
    hide TransferError, CurrentNav, FailedTransaction, CreatedAs, Creation, CaseId;
  }

  /** Evidence that stays keeps what was told. */
  lemma TellsStill(s: State, t: State, k: string)
    requires Told(s, k) && SameEvidence(s, t, s.idempotency[k].request.id) && k in t.idempotency && t.idempotency[k] == s.idempotency[k]
    ensures Told(t, k)
  {
    hide Creation;
  }

  lemma ApproveTells(w: World, s: State, id: string, checker: string, k: string)
    requires k !in s.idempotency && k in Approve(w, s, id, checker).0.idempotency
    ensures Told(Approve(w, s, id, checker).0, k)
  {
    hide Execute, Resolve, RetryKey, Mark, Told, SameEvidence;
    if id in s.cases && s.cases[id].transaction in s.transactions && s.cases[id].proposal.Some? {
      var c, p := s.cases[id], s.cases[id].proposal.value;
      var y := c.transaction;
      var approved := s.(transactions := s.transactions[y := Mark(s.transactions[y], s.transactions[y].state, ReviewApproved, w.now)]);
      var t := Execute(w, approved, RetryKey(id, p.replacement), Renamed(c.retry, p.replacement)).0;
      ResolveLeaves(approved, id, CANCELLED, Cancelled, c.(status := RESOLVED_CANCELLED, checker := Some(checker)), w.now);
      ResolveLeaves(approved, id, REQUIRES_REVIEW, RetryBlocked, c.(status := OPEN, proposal := None), w.now);
      var d := c.(status := RESOLVED_RETRIED, replacement := Some(p.replacement), checker := Some(checker));
      ResolveLeaves(t, id, REPLACED, Replaced, d, w.now);
      if k in t.idempotency {
        ExecuteTells(w, approved, RetryKey(id, p.replacement), Renamed(c.retry, p.replacement), k);
        ResolveTells(t, id, d, w.now, k);
      }
    }
  }

  lemma ResolveTells(s: State, id: string, c: Case, now: int, k: string)
    requires c.transaction in s.transactions && Told(s, k)
    ensures Told(Resolve(s, id, REPLACED, Replaced, c, now), k)
  {
    hide SameEvidence, Mark, CreatedAs;
    var t := Resolve(s, id, REPLACED, Replaced, c, now);
    MarkKeepsEvidence(s, t, s.idempotency[k].request.id, c.transaction, REPLACED, Replaced, now);
    TellsStill(s, t, k);
  }

  lemma StepTells(s: State, e: Event, k: string)
    requires k in Step(s, e).0.idempotency && (k in s.idempotency ==> Told(s, k))
    ensures Told(Step(s, e).0, k)
  {
    hide Execute, Simulate, Propose, Approve, CreditCash, Configure, Told;
    if k in s.idempotency {
      StepKeepsEntries(s, e);
      StillTold(s, e, k);
    } else {
      match e.action
      case DoExecute(key, r) => ExecuteTells(e.world, s, key, r, k);
      case DoSimulate(key, r) =>
        if r.TransferRequest? {
          SimulateTells(e.world, s, key, r, k);
        }
      case DoPropose(id, maker, retry, replacement) => ProposeKeepsEntries(e.world, s, id, maker, retry, replacement);
      case DoApprove(id, checker) => ApproveTells(e.world, s, id, checker, k);
      case DoCredit(account, currency, amount) => CreditKeepsEntries(s, account, currency, amount);
      case _ => ConfigureLeaves(s, e);
    }
  }

  lemma StillTold(s: State, e: Event, k: string)
    requires Told(s, k) && EntriesStay(s, Step(s, e).0)
    ensures Told(Step(s, e).0, k)
  {
    hide Step, SameEvidence, CreatedAs, Creation;
    StepKeepsEvidence(s, e, s.idempotency[k].request.id);
    TellsStill(s, Step(s, e).0, k);
  }

  /** In every run each stored result tells the state, time, mode and stages its transaction was created with, however it was reviewed since. */
  lemma {:induction false} ReceiptsTellTheTransaction(events: seq<Event>, key: string)
    requires key in Run(events).idempotency
    ensures Told(Run(events), key)
  {
    hide Step, Told;
    var front := events[..|events| - 1];
    if key in Run(front).idempotency {
      ReceiptsTellTheTransaction(front, key);
    }
    StepTells(Run(front), events[|events| - 1], key);
  }

  // ----- cases -----

  /** A case as a simulated register failure opens it. */
  predicate Opens(e: Event, id: string, c: Case) {
    e.action.DoSimulate? && id == CaseId(e.action.request.id) && e.action.request.TransferRequest?
    && c == Case(e.action.request.id, e.action.request.product, OPEN, None, None, None, e.action.request)
  }

  /** An open case is proposed by a named maker. */
  predicate Proposes(e: Event, id: string, before: Case, after: Case) {
    && e.action.DoPropose? && e.action.id == id && e.action.maker != "" && before.status == OPEN
    && (e.action.retry ==> e.action.replacement != "")
    && after == before.(status := PENDING, proposal := Some(Proposal(e.action.retry, e.action.replacement, e.action.maker)))
  }

  /** A proposed case is decided by a named checker who is not its maker: cancelled, retried, or opened again after a blocked retry. */
  predicate Decides(e: Event, id: string, before: Case, after: Case) {
    && e.action.DoApprove? && e.action.id == id && before.status == PENDING && before.proposal.Some?
    && e.action.checker != "" && e.action.checker != before.proposal.value.maker
    && (!before.proposal.value.retry ==> after == before.(status := RESOLVED_CANCELLED, checker := Some(e.action.checker)))
    && (before.proposal.value.retry ==>
      || after == before.(status := OPEN, proposal := None)
      || after == before.(status := RESOLVED_RETRIED, replacement := Some(before.proposal.value.replacement), checker := Some(e.action.checker)))
  }

  predicate CaseStep(s: State, e: Event, t: State, id: string)
    requires id in t.cases
  {
    if id !in s.cases then Opens(e, id, t.cases[id])
    else t.cases[id] == s.cases[id] || Proposes(e, id, s.cases[id], t.cases[id]) || Decides(e, id, s.cases[id], t.cases[id])
  }

  lemma SimulateCases(w: World, s: State, key: string, r: Request, id: string)
    requires Inv(s) && r.TransferRequest? && id in Simulate(w, s, key, r).0.cases
    ensures CaseStep(s, Event(w, DoSimulate(key, r)), Simulate(w, s, key, r).0, id)
  {
    if r.id !in s.transactions {
      FreshCase(s, r.id);
    }
    hide Inv, CurrentNav, EligibleError, Abs, Get, CaseId;
  }

  lemma FreshCase(s: State, x: string)
    requires Inv(s) && x !in s.transactions
    ensures CaseId(x) !in s.cases
  {
    hide Money, Units, Holdings, Books, CaseGood, EntryGood, CaseId;
    CasesElsewhere(s, x);
  }

  lemma ProposeCases(w: World, s: State, id: string, maker: string, retry: bool, replacement: string, x: string)
    requires x in Propose(w, s, id, maker, retry, replacement).0.cases
    ensures CaseStep(s, Event(w, DoPropose(id, maker, retry, replacement)), Propose(w, s, id, maker, retry, replacement).0, x)
  {
    hide Mark;
  }

  lemma ApproveCases(w: World, s: State, id: string, checker: string, x: string)
    requires x in Approve(w, s, id, checker).0.cases
    ensures CaseStep(s, Event(w, DoApprove(id, checker)), Approve(w, s, id, checker).0, x)
  {
    hide Execute, RetryKey, Mark, Resolve;
    if id in s.cases && s.cases[id].transaction in s.transactions && s.cases[id].proposal.Some? {
      var c, p := s.cases[id], s.cases[id].proposal.value;
      var y := c.transaction;
      var approved := s.(transactions := s.transactions[y := Mark(s.transactions[y], s.transactions[y].state, ReviewApproved, w.now)]);
      var t := Execute(w, approved, RetryKey(id, p.replacement), Renamed(c.retry, p.replacement)).0;
      ExecuteKeepsCases(w, approved, RetryKey(id, p.replacement), Renamed(c.retry, p.replacement));
      ResolveWrites(approved, id, CANCELLED, Cancelled, c.(status := RESOLVED_CANCELLED, checker := Some(checker)), w.now);
      ResolveWrites(approved, id, REQUIRES_REVIEW, RetryBlocked, c.(status := OPEN, proposal := None), w.now);
      ResolveWrites(t, id, REPLACED, Replaced, c.(status := RESOLVED_RETRIED, replacement := Some(p.replacement), checker := Some(checker)), w.now);
    }
  }

  lemma ResolveWrites(s: State, id: string, state: TxState, stage: Stage, c: Case, now: int)
    requires c.transaction in s.transactions
    ensures Resolve(s, id, state, stage, c, now).cases == s.cases[id := c]
  {
    hide Mark;
  }

  lemma ExecuteKeepsCases(w: World, s: State, key: string, r: Request)
    ensures Execute(w, s, key, r).0.cases == s.cases
  {
    hide SettleError, CurrentNav, Paid, Moved, SettledTransaction;
  }

  lemma CreditKeepsCases(s: State, account: string, currency: string, amount: int)
    ensures CreditCash(s, account, currency, amount).0.cases == s.cases
  {
    hide Put;
  }

  /** Every way a case comes to be and moves. */
  lemma CasesMove(s: State, e: Event, id: string)
    requires Inv(s) && id in Step(s, e).0.cases
    ensures CaseStep(s, e, Step(s, e).0, id)
  {
    hide Inv, Execute, Simulate, Propose, Approve, CreditCash, Configure, Opens, Proposes, Decides;
    match e.action
    case DoExecute(key, r) => ExecuteKeepsCases(e.world, s, key, r);
    case DoSimulate(key, r) =>
      if r.TransferRequest? {
        SimulateCases(e.world, s, key, r, id);
      }
    case DoPropose(x, maker, retry, replacement) => ProposeCases(e.world, s, x, maker, retry, replacement, id);
    case DoApprove(x, checker) => ApproveCases(e.world, s, x, checker, id);
    case DoCredit(account, currency, amount) => CreditKeepsCases(s, account, currency, amount);
    case _ => ConfigureLeaves(s, e);
  }

  /** The call at position i made the proposal the case carries. */
  ghost predicate ProposedAt(events: seq<Event>, i: nat, id: string, p: Proposal) {
    && i < |events| && events[i].action == DoPropose(id, p.maker, p.retry, p.replacement) && p.maker != ""
    && id in Run(events[..i]).cases && Run(events[..i]).cases[id].status == OPEN
  }

  /** The call at position j decided it. */
  ghost predicate DecidedAt(events: seq<Event>, j: nat, id: string, p: Proposal, checker: string) {
    && j < |events| && events[j].action == DoApprove(id, checker) && checker != "" && checker != p.maker
    && id in Run(events[..j]).cases && Run(events[..j]).cases[id].status == PENDING && Run(events[..j]).cases[id].proposal == Some(p)
  }

  lemma {:induction false} ProposalMade(events: seq<Event>, id: string)
    requires id in Run(events).cases && Run(events).cases[id].proposal.Some?
    ensures exists i: nat :: ProposedAt(events, i, id, Run(events).cases[id].proposal.value)
  {
    hide Step, Inv;
    var m := |events| - 1;
    var front := events[..m];
    RunKeeps(front);
    CasesMove(Run(front), events[m], id);
    var p := Run(events).cases[id].proposal.value;
    if id in Run(front).cases && Run(front).cases[id].proposal == Some(p) {
      ProposalMade(front, id);
      var i: nat :| ProposedAt(front, i, id, p);
      assert front[..i] == events[..i];
      assert ProposedAt(events, i, id, p);
    } else {
      assert ProposedAt(events, m, id, p);
    }
  }

  predicate Resolved(c: Case) {
    c.status == RESOLVED_CANCELLED || c.status == RESOLVED_RETRIED
  }

  lemma {:induction false} DecisionMade(events: seq<Event>, id: string)
    requires id in Run(events).cases && Resolved(Run(events).cases[id])
    ensures var c := Run(events).cases[id];
      && c.proposal.Some? && c.checker.Some? && (c.status == RESOLVED_RETRIED <==> c.proposal.value.retry)
      && (c.status == RESOLVED_RETRIED ==> c.replacement == Some(c.proposal.value.replacement))
      && exists j: nat :: DecidedAt(events, j, id, c.proposal.value, c.checker.value)
  {
    hide Step, Inv;
    var m := |events| - 1;
    var front := events[..m];
    RunKeeps(front);
    CasesMove(Run(front), events[m], id);
    var c := Run(events).cases[id];
    if id in Run(front).cases && Run(front).cases[id] == c {
      DecisionMade(front, id);
      var j: nat :| DecidedAt(front, j, id, c.proposal.value, c.checker.value);
      assert front[..j] == events[..j];
      assert DecidedAt(events, j, id, c.proposal.value, c.checker.value);
    } else {
      assert DecidedAt(events, m, id, c.proposal.value, c.checker.value);
    }
  }

  /** A maker's proposal at i, decided by another person at j, later. */
  ghost predicate TwoCalls(events: seq<Event>, i: nat, j: nat, id: string, c: Case) {
    c.proposal.Some? && c.checker.Some? && i < j && ProposedAt(events, i, id, c.proposal.value) && DecidedAt(events, j, id, c.proposal.value, c.checker.value)
  }

  /**
   In every run each resolved case goes back to two calls: the maker's proposal, whose
   kind decided whether it was cancelled or retried and as what, and the later decision
   of a different person, both on record under the names they called with.
   */
  lemma ResolvedByTwoCalls(events: seq<Event>, id: string)
    requires id in Run(events).cases && Resolved(Run(events).cases[id])
    ensures var c := Run(events).cases[id];
      && c.proposal.Some? && (c.status == RESOLVED_RETRIED <==> c.proposal.value.retry)
      && (c.status == RESOLVED_RETRIED ==> c.replacement == Some(c.proposal.value.replacement))
      && exists i: nat, j: nat :: TwoCalls(events, i, j, id, c)
  {
    hide Run;
    DecisionMade(events, id);
    var c := Run(events).cases[id];
    var j: nat :| DecidedAt(events, j, id, c.proposal.value, c.checker.value);
    ProposalMade(events[..j], id);
    var i: nat :| ProposedAt(events[..j], i, id, c.proposal.value);
    assert events[..j][..i] == events[..i];
    assert TwoCalls(events, i, j, id, c);
  }

  /** The call at position i is the simulated failure the case stands for. */
  ghost predicate OpenedAt(events: seq<Event>, i: nat, id: string, c: Case) {
    i < |events| && events[i].action.DoSimulate? && events[i].action.request == c.retry && id == CaseId(c.retry.id) && c.transaction == c.retry.id
    && c.product == c.retry.product && id !in Run(events[..i]).cases
  }

  /** Every case stands for one simulated register failure, whose request a retry repeats. */
  lemma {:induction false} CaseOpened(events: seq<Event>, id: string)
    requires id in Run(events).cases
    ensures exists i: nat :: OpenedAt(events, i, id, Run(events).cases[id])
  {
    hide Step, Inv;
    var m := |events| - 1;
    var front := events[..m];
    RunKeeps(front);
    CasesMove(Run(front), events[m], id);
    if id in Run(front).cases {
      CaseOpened(front, id);
      var i: nat :| OpenedAt(front, i, id, Run(front).cases[id]);
      assert front[..i] == events[..i];
      assert OpenedAt(events, i, id, Run(events).cases[id]);
    } else {
      assert OpenedAt(events, m, id, Run(events).cases[id]);
    }
  }
}
