/** Reviewing exceptions in the in-memory engine: exactly which proposals and decisions are taken, and how a case stands after each. */
module ControlPlaneReviews {
  import opened Common
  import opened ControlPlane
  import opened ControlPlaneSafety
  import R = ControlPlaneRecords

  /** A proposal is taken exactly for an open case, from a named maker, with a replacement if it is a retry; refused, it changes nothing. */
  lemma ProposalIff(w: World, s: State, id: string, maker: string, retry: bool, replacement: string)
    requires Inv(s)
    ensures var (t, reply) := Propose(w, s, id, maker, retry, replacement);
      && (reply == Accepted <==> id in s.cases && s.cases[id].status == OPEN && maker != "" && (retry ==> replacement != ""))
      && (reply == Accepted ==> id in t.cases && R.Proposes(Event(w, DoPropose(id, maker, retry, replacement)), id, s.cases[id], t.cases[id]))
      && (reply != Accepted ==> reply.Failed? && t == s)
  {
    CaseKnown(s, id);
    hide Inv, Mark;
  }

  /** The case waits for someone other than its maker. */
  predicate MayApprove(s: State, id: string, checker: string) {
    && id in s.cases && s.cases[id].status == PENDING && s.cases[id].proposal.Some?
    && checker != "" && checker != s.cases[id].proposal.value.maker
  }

  /**
   A decision nobody may take changes nothing. One that may be taken cancels the case as
   proposed; a retry is accepted exactly when the case ends as retried, and otherwise
   reports why its replacement failed, with the case open again.
   */
  lemma DecisionIff(w: World, s: State, id: string, checker: string)
    requires Inv(s)
    ensures var (t, reply) := Approve(w, s, id, checker);
      && (!MayApprove(s, id, checker) ==> reply.Failed? && t == s)
      && (MayApprove(s, id, checker) ==>
        && id in t.cases && R.Decides(Event(w, DoApprove(id, checker)), id, s.cases[id], t.cases[id])
        && (reply == Accepted <==> t.cases[id].status != OPEN) && (reply != Accepted ==> reply.Failed?))
  {
    CaseKnown(s, id);
    hide Inv, Approve, R.Decides;
    if MayApprove(s, id, checker) {
      Taken(w, s, id, checker);
    } else {
      Untaken(w, s, id, checker);
    }
  }

  lemma Untaken(w: World, s: State, id: string, checker: string)
    requires id in s.cases && s.cases[id].status == PENDING ==> s.cases[id].proposal.Some?
    requires !MayApprove(s, id, checker)
    ensures Approve(w, s, id, checker).1.Failed? && Approve(w, s, id, checker).0 == s
  {
    hide Decide;
  }

  lemma Taken(w: World, s: State, id: string, checker: string)
    requires MayApprove(s, id, checker) && s.cases[id].transaction in s.transactions
    ensures var (t, reply) := Approve(w, s, id, checker);
      && id in t.cases && R.Decides(Event(w, DoApprove(id, checker)), id, s.cases[id], t.cases[id])
      && (reply == Accepted <==> t.cases[id].status != OPEN) && (reply != Accepted ==> reply.Failed?)
  {
    hide Mark, Execute, RetryKey, Renamed, Resolve;
    var c, p := s.cases[id], s.cases[id].proposal.value;
    var y := c.transaction;
    var approved := s.(transactions := s.transactions[y := Mark(s.transactions[y], s.transactions[y].state, ReviewApproved, w.now)]);
    var t := Execute(w, approved, RetryKey(id, p.replacement), Renamed(c.retry, p.replacement)).0;
    Resolves(approved, id, CANCELLED, Cancelled, c.(status := RESOLVED_CANCELLED, checker := Some(checker)), w.now);
    Resolves(approved, id, REQUIRES_REVIEW, RetryBlocked, c.(status := OPEN, proposal := None), w.now);
    Resolves(t, id, REPLACED, Replaced, c.(status := RESOLVED_RETRIED, replacement := Some(p.replacement), checker := Some(checker)), w.now);
  }

  lemma Resolves(s: State, id: string, state: TxState, stage: Stage, c: Case, now: int)
    requires c.transaction in s.transactions
    ensures id in Resolve(s, id, state, stage, c, now).cases && Resolve(s, id, state, stage, c, now).cases[id] == c
  {
  }

  lemma CaseKnown(s: State, id: string)
    requires Inv(s)
    ensures id in s.cases ==> s.cases[id].transaction in s.transactions && (s.cases[id].status == PENDING ==> s.cases[id].proposal.Some?)
  {
    hide Money, Units, Holdings, Books, RetryKey, Carries;
    if id in s.cases {
      assert CaseGood(s, id);
    }
  }
}
