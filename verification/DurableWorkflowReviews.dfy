/** Reviewing exceptions in the durable workflow: exactly which proposals and decisions are taken, and how a case stands after each. */
module DurableWorkflowReviews {
  import opened Common
  import opened Ledger
  import opened DurableWorkflow
  import opened DurableWorkflowSafety
  import D = DurableWorkflowDecisions
  import R = DurableWorkflowRetries

  /** In reachable states a case stands for a transaction on record, whose state is the one its status asks for. */
  lemma CaseKnown(s: State, id: string)
    requires Inv(s)
    ensures id in s.cases ==>
      var c := s.cases[id];
      && c.transaction in s.intents
      && (c.status == OPEN ==> s.intents[c.transaction].state == REQUIRES_REVIEW)
      && (c.status == PENDING ==> s.intents[c.transaction].state == PENDING_APPROVAL && c.rounds != [])
  {
    hide Books, IntentGood, CaseId;
    if id in s.cases {
      assert CaseGood(s, id);
    }
  }

  /** A round opens exactly on an open case, with a replacement if and only if it is a retry; refused, it changes nothing. */
  lemma ProposalIff(w: World, s: State, id: string, maker: string, retry: bool, replacement: string)
    requires Inv(s)
    ensures var (t, reply) := Propose(s, id, maker, retry, replacement);
      && (reply == Accepted <==> id in s.cases && s.cases[id].status == OPEN && (retry <==> replacement != ""))
      && (reply == Accepted ==> id in t.cases && D.Proposes(Event(w, DoPropose(id, maker, retry, replacement)), id, s.cases[id], t.cases[id]))
      && (reply != Accepted ==> reply.Failed? && t == s)
  {
    hide Inv;
    CaseKnown(s, id);
  }

  /** The case waits for someone other than the maker of its last round. */
  predicate MayApprove(s: State, id: string, checker: string) {
    && id in s.cases && s.cases[id].status == PENDING && s.cases[id].rounds != []
    && checker != s.cases[id].rounds[|s.cases[id].rounds| - 1].maker
  }

  /** The reply tells how the case stands: accepted, or a retry that was blocked and why. */
  predicate Tells(reply: Reply, retry: bool, approve: bool, status: CaseStatus) {
    if retry && approve then (reply == Accepted && status == RESOLVED_RETRIED) || (reply.RetryBlocked? && status == OPEN) else reply == Accepted
  }

  /**
   A decision nobody may take changes nothing. One that may be taken is recorded in the
   case as given and answered with acceptance, or for a retry whose replacement could not
   settle with the reason it was blocked, and then the case is open again.
   */
  lemma DecisionIff(w: World, s: State, id: string, checker: string, approve: bool)
    requires Inv(s)
    ensures var (t, reply) := Approve(w, s, id, checker, approve);
      && (!MayApprove(s, id, checker) ==> reply.Failed? && t == s)
      && (MayApprove(s, id, checker) ==>
        && id in t.cases && D.Decides(Event(w, DoApprove(id, checker, approve)), id, s.cases[id], t.cases[id])
        && Tells(reply, s.cases[id].rounds[|s.cases[id].rounds| - 1].retry, approve, t.cases[id].status))
  {
    hide Inv;
    CaseKnown(s, id);
    if MayApprove(s, id, checker) {
      Taken(w, s, id, checker, approve);
    }
    hide Retry, Close;
  }

  lemma Taken(w: World, s: State, id: string, checker: string, approve: bool)
    requires MayApprove(s, id, checker)
    requires s.cases[id].transaction in s.intents && s.intents[s.cases[id].transaction].state == PENDING_APPROVAL
    ensures var (t, reply) := Approve(w, s, id, checker, approve);
      && id in t.cases && D.Decides(Event(w, DoApprove(id, checker, approve)), id, s.cases[id], t.cases[id])
      && Tells(reply, s.cases[id].rounds[|s.cases[id].rounds| - 1].retry, approve, t.cases[id].status)
  {
    hide Settle, RetryKey, D.Signed, Checked;
    var c := s.cases[id];
    D.CheckedIsSigned(c, checker);
    var round := c.rounds[|c.rounds| - 1];
    if approve && round.retry {
      SettleLeaves(w, s, RetryKey(id, round.replacement), Renamed(s.intents[c.transaction].request, round.replacement), c.transaction);
    }
  }

  lemma SettleLeaves(w: World, s: State, key: string, r: Request, x: string)
    requires x in s.intents
    ensures Settle(w, s, key, r, false).0.intents[x] == s.intents[x]
  {
    hide Priced, LedgerBatch, RegisterBatch, BatchError, AccountsOf;
    if Priced(w, s, r).Ok? {
      R.ProductPriced(w, s, r);
    }
  }
}
