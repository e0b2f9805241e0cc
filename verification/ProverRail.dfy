/**
 The prover queue together with the confidential rail it feeds. A worker's call of the
 gate is the rail's own second phase, and the queue's receipts are the rail's: one table,
 read by both.
 */
module ProverRail {
  import opened Common
  import R = ConfidentialRail
  import S = ConfidentialRailSafety
  import P = ConfidentialRailRecords
  import Q = ProverQueue

  /** The proof receipts of a rail state, by transaction. */
  function ReceiptsOf(s: R.State): map<string, string> {
    map x | x in s.transfers && s.transfers[x].receipt.Some? :: s.transfers[x].receipt.value.id
  }

  datatype State = State(rail: R.State, queue: Q.State)

  /**
   A call of the rail from anywhere, a worker presenting a finished proof through its
   check, or any other step of the queue, a gate that throws before the second phase
   included.
   */
  datatype Move =
    | OnRail(event: R.Event)
    | Present(claim: nat, world: R.World, check: nat, receiptId: string)
    | OnQueue(action: Q.Action)

  const INITIAL: State := State(R.INITIAL, Q.INITIAL)

  /** The worker holds a claim with a finished remote job, and the check is for that job's transaction. */
  predicate MayPresent(s: State, claim: nat, check: nat) {
    && Q.Usable(s.queue, claim) && s.queue.claims[claim].external.Some?
    && check < |s.rail.checks| && s.rail.checks[check].stage.Passed?
    && s.rail.checks[check].transaction == s.queue.jobs[s.queue.claims[claim].job].transaction
  }

  /** Steps that leave the receipts alone. */
  predicate Offline(a: Q.Action) {
    !a.AcceptElsewhere? && (a.PresentProof? ==> a.gate.Throws?)
  }

  function GateAnswer(reply: R.Reply, receiptId: string): Q.Gate {
    match reply
    case Done => Q.Accepts(receiptId)
    case Error(code) => Q.Throws(code)
    case Existing(_) => Q.Throws("")
  }

  function Step(c: R.Config, s: State, m: Move): State {
    match m
    case OnRail(e) =>
      var (rail, reply) := R.Step(c, s.rail, e);
      if e.action.DoCompleteAccept? && reply == R.Done && e.action.check < |s.rail.checks| then
        State(rail, Q.Step(s.queue, Q.AcceptElsewhere(s.rail.checks[e.action.check].transaction, e.action.receiptId)).0)
      else State(rail, s.queue)
    case Present(claim, w, check, receiptId) =>
      if !MayPresent(s, claim, check) then s
      else
        var (rail, reply) := R.CompleteAccept(w, s.rail, check, receiptId);
        State(rail, Q.Step(s.queue, Q.PresentProof(claim, GateAnswer(reply, receiptId))).0)
    case OnQueue(a) => if Offline(a) then State(s.rail, Q.Step(s.queue, a).0) else s
  }

  function Run(c: R.Config, moves: seq<Move>): State {
    if moves == [] then INITIAL else Step(c, Run(c, moves[..|moves| - 1]), moves[|moves| - 1])
  }

  /** Both invariants, and one table of receipts. */
  ghost predicate Joined(c: R.Config, s: State) {
    S.Settlement(c, s.rail) && Q.Inv(s.queue) && s.queue.receipts == ReceiptsOf(s.rail)
  }

  // ----- the receipts of the rail -----

  /** No call of the rail but a second phase gives a transfer a receipt. */
  lemma OldReceipt(c: R.Config, s: R.State, e: R.Event, x: string)
    requires !e.action.DoCompleteAccept? && x in R.Step(c, s, e).0.transfers
    ensures R.Step(c, s, e).0.transfers[x].receipt.Some? ==> x in s.transfers && s.transfers[x].receipt == R.Step(c, s, e).0.transfers[x].receipt
  {
    hide R.Step, P.Prepares, P.Authorizes, P.Finalizes;
    P.TransfersMove(c, s, e, x);
    if x !in s.transfers {
      P.NewlyPrepared(s, e, x, R.Step(c, s, e).0.transfers[x]);
    } else {
      P.KeptReceipt(s, e, x, s.transfers[x], R.Step(c, s, e).0.transfers[x]);
    }
  }

  lemma KeptByStep(s: R.State, t: R.State, x: string)
    requires S.Extends(s, t) && x in s.transfers && s.transfers[x].receipt.Some?
    ensures x in t.transfers && t.transfers[x].receipt == s.transfers[x].receipt
  {
    assert S.Advances(s.transfers[x], t.transfers[x]);
  }

  lemma OtherReceipts(c: R.Config, s: R.State, e: R.Event)
    requires !e.action.DoCompleteAccept? && S.Settlement(c, s)
    ensures ReceiptsOf(R.Step(c, s, e).0) == ReceiptsOf(s)
  {
    hide *;
    var t := R.Step(c, s, e).0;
    S.SettlementKeeps(c, s, e);
    forall x | x in t.transfers ensures t.transfers[x].receipt.Some? ==> x in s.transfers && s.transfers[x].receipt == t.transfers[x].receipt {
      OldReceipt(c, s, e, x);
    }
    forall x | x in s.transfers && s.transfers[x].receipt.Some? ensures x in t.transfers && t.transfers[x].receipt == s.transfers[x].receipt {
      KeptByStep(s, t, x);
    }
    SameReceiptsOf(s, t);
  }

  lemma SameReceiptsOf(s: R.State, t: R.State)
    requires forall x :: x in t.transfers ==> t.transfers[x].receipt.Some? ==> x in s.transfers && s.transfers[x].receipt == t.transfers[x].receipt
    requires forall x :: x in s.transfers && s.transfers[x].receipt.Some? ==> x in t.transfers && t.transfers[x].receipt == s.transfers[x].receipt
    ensures ReceiptsOf(t) == ReceiptsOf(s)
  {
    assert ReceiptsOf(t).Keys == ReceiptsOf(s).Keys;
  }

  /** A second phase adds one receipt, under an identifier and for a transaction that had none, or leaves them all. */
  lemma CompleteReceipts(w: R.World, s: R.State, k: nat, receiptId: string)
    ensures var (t, reply) := R.CompleteAccept(w, s, k, receiptId);
      && !reply.Existing?
      && (reply != R.Done ==> ReceiptsOf(t) == ReceiptsOf(s))
      && (reply == R.Done ==>
        && k < |s.checks|
        && var x := s.checks[k].transaction;
          && x !in ReceiptsOf(s) && receiptId !in ReceiptsOf(s).Values && ReceiptsOf(t) == ReceiptsOf(s)[x := receiptId])
  {
    hide R.CompleteError, R.Spend, R.Record, R.Received;
    var (t, reply) := R.CompleteAccept(w, s, k, receiptId);
    if reply == R.Done {
      var check := s.checks[k];
      S.CompleteFacts(w, s, check.transaction, check.inputs, receiptId);
      ReceivedReceipt(w, s, check.transaction, check.inputs, receiptId, check.stage.signals);
      assert ReceiptsOf(t).Keys == ReceiptsOf(s)[check.transaction := receiptId].Keys;
    }
  }

  lemma ReceivedReceipt(w: R.World, s: R.State, x: string, i: R.Inputs, receiptId: string, signals: seq<string>)
    requires R.CompleteError(w, s, x, i, receiptId).None?
    ensures x in s.transfers && s.transfers[x].authorization.Some?
    ensures var u := R.Received(s.transfers[x], receiptId, i, signals); u.receipt.Some? && u.receipt.value.id == receiptId
  {
    hide R.RootAccepted, R.ContextCurrent;
  }

  // ----- the joint runs -----

  /** The queue takes what the second phase answers: it accepts exactly when the rail did, and then keeps the same receipts. */
  lemma GateIsTheRail(w: R.World, s: R.State, q: Q.State, k: nat, receiptId: string)
    requires q.receipts == ReceiptsOf(s) && k < |s.checks|
    ensures var (t, reply) := R.CompleteAccept(w, s, k, receiptId); var (r, answer) := Q.GateStep(q, s.checks[k].transaction, GateAnswer(reply, receiptId));
      && answer == GateAnswer(reply, receiptId) && (answer.Accepts? <==> reply == R.Done)
      && r.receipts == ReceiptsOf(t) && r.jobs == q.jobs && r.claims == q.claims
  {
    CompleteReceipts(w, s, k, receiptId);
    hide R.CompleteAccept;
  }

  lemma OfflineReceipts(q: Q.State, a: Q.Action)
    requires Offline(a)
    ensures Q.Step(q, a).0.receipts == q.receipts
  {
    hide Q.FirstDue, Q.Expire, Q.Holds;
  }

  lemma PresentReceipts(q: Q.State, claim: nat, gate: Q.Gate)
    requires Q.Usable(q, claim) && q.claims[claim].external.Some?
    ensures Q.Step(q, Q.PresentProof(claim, gate)).0.receipts == Q.GateStep(q, q.jobs[q.claims[claim].job].transaction, gate).0.receipts
  {
  }

  lemma StepKeeps(c: R.Config, s: State, m: Move)
    requires Joined(c, s)
    ensures Joined(c, Step(c, s, m))
  {
    hide S.Settlement, Q.Inv, R.Step, Q.Step, R.CompleteAccept, ReceiptsOf;
    match m
    case OnRail(e) =>
      S.SettlementKeeps(c, s.rail, e);
      if e.action.DoCompleteAccept? {
        RailAccepts(c, s, e);
      } else {
        OtherReceipts(c, s.rail, e);
      }
    case Present(claim, w, check, receiptId) =>
      if MayPresent(s, claim, check) {
        WorkerPresents(c, s, claim, w, check, receiptId);
      }
    case OnQueue(a) =>
      if Offline(a) {
        Q.StepKeeps(s.queue, a);
        OfflineReceipts(s.queue, a);
      }
  }

  lemma RailAccepts(c: R.Config, s: State, e: R.Event)
    requires Joined(c, s) && e.action.DoCompleteAccept?
    requires S.Settlement(c, R.Step(c, s.rail, e).0)
    ensures Joined(c, Step(c, s, OnRail(e)))
  {
    hide S.Settlement, Q.Inv, R.CompleteAccept, ReceiptsOf;
    var k, id := e.action.check, e.action.receiptId;
    CompleteReceipts(e.world, s.rail, k, id);
    if R.CompleteAccept(e.world, s.rail, k, id).1 == R.Done {
      GateIsTheRail(e.world, s.rail, s.queue, k, id);
      Q.StepKeeps(s.queue, Q.AcceptElsewhere(s.rail.checks[k].transaction, id));
    }
  }

  lemma WorkerPresents(c: R.Config, s: State, claim: nat, w: R.World, check: nat, receiptId: string)
    requires Joined(c, s) && MayPresent(s, claim, check)
    ensures Joined(c, Step(c, s, Present(claim, w, check, receiptId)))
  {
    hide S.Settlement, Q.Inv, R.CompleteAccept, ReceiptsOf, Q.Step, Q.GateStep;
    var gate := GateAnswer(R.CompleteAccept(w, s.rail, check, receiptId).1, receiptId);
    S.CompleteAcceptKeeps(c, w, s.rail, check, receiptId);
    GateIsTheRail(w, s.rail, s.queue, check, receiptId);
    Q.StepKeeps(s.queue, Q.PresentProof(claim, gate));
    PresentReceipts(s.queue, claim, gate);
  }

  lemma {:induction false} RunKeeps(c: R.Config, moves: seq<Move>)
    ensures Joined(c, Run(c, moves))
  {
    hide Joined, Step;
    if moves == [] {
      InitialJoined(c);
    } else {
      RunKeeps(c, moves[..|moves| - 1]);
      StepKeeps(c, Run(c, moves[..|moves| - 1]), moves[|moves| - 1]);
    }
  }

  lemma InitialJoined(c: R.Config)
    ensures Joined(c, INITIAL)
  {
    S.InitialSettlement(c);
    Q.InitialInv();
    assert ReceiptsOf(R.INITIAL) == map[];
  }

  /**
   In every joint run, whoever obtained the acceptance and however workers crash or lag:
   a verified job's receipt is the rail's own for its transaction, whose proof was
   accepted with exactly the authorized signals, and no two jobs share one.
   */
  lemma VerifiedJobsHoldRailReceipts(c: R.Config, moves: seq<Move>, n: nat, m: nat)
    requires n < |Run(c, moves).queue.jobs| && m < |Run(c, moves).queue.jobs| && Run(c, moves).queue.jobs[n].state == Q.VERIFIED
    ensures var s := Run(c, moves); var j := s.queue.jobs[n];
      && j.transaction in s.rail.transfers
      && var t := s.rail.transfers[j.transaction];
        && t.receipt.Some? && j.receipt == Some(t.receipt.value.id) && t.phase != R.PROOF_PENDING
        && t.authorization.Some? && t.authorization.value.verified && t.receipt.value.signals == t.authorization.value.inputs.Signals()
        && (n != m ==> s.queue.jobs[m].receipt != j.receipt)
  {
    RunKeeps(c, moves);
    var s := Run(c, moves);
    hide Run;
    VerifiedReceipt(s.queue, n, m);
    RailReceipt(c, s.rail, s.queue.jobs[n].transaction);
  }

  lemma VerifiedReceipt(q: Q.State, n: nat, m: nat)
    requires Q.Inv(q) && n < |q.jobs| && m < |q.jobs| && q.jobs[n].state == Q.VERIFIED
    ensures var j := q.jobs[n];
      j.receipt.Some? && j.transaction in q.receipts && q.receipts[j.transaction] == j.receipt.value && (n != m ==> q.jobs[m].receipt != j.receipt)
  {
    assert Q.JobGood(q.jobs[n], q.receipts) && Q.JobGood(q.jobs[m], q.receipts);
  }

  lemma RailReceipt(c: R.Config, s: R.State, x: string)
    requires S.Settlement(c, s) && x in ReceiptsOf(s)
    ensures x in s.transfers
    ensures var t := s.transfers[x];
      && t.receipt.Some? && ReceiptsOf(s)[x] == t.receipt.value.id && t.phase != R.PROOF_PENDING
      && t.authorization.Some? && t.authorization.value.verified && t.receipt.value.signals == t.authorization.value.inputs.Signals()
  {
    hide S.SpentGood, S.OutputsGood, S.ReceiptsDistinct, S.ChecksGood;
    assert S.TransferGood(s.transfers[x]);
  }
}
