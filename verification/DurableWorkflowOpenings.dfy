/** Opening balances of the durable workflow: bootstrapping again never brings an owner's cash in twice. */
module DurableWorkflowOpenings {
  import opened Common
  import opened Ledger
  import opened DurableWorkflow
  import opened DurableWorkflowSafety
  import opened DurableWorkflowRetries
  import opened DurableWorkflowLawful

  /** The ledger only grows, and a product keeps its currency. */
  ghost predicate Grows(s: State, t: State) {
    && s.ledger <= t.ledger
    && forall p :: p in s.products ==> p in t.products && t.products[p].currency == s.products[p].currency
  }

  lemma SettleGrows(w: World, s: State, key: string, r: Request, registerFailure: bool)
    ensures Grows(s, Settle(w, s, key, r, registerFailure).0)
  {
    hide Priced, LedgerBatch, RegisterBatch, BatchError, AccountsOf, CaseId;
    if Priced(w, s, r).Ok? {
      ProductPriced(w, s, r);
    }
  }

  lemma ApproveGrows(w: World, s: State, id: string, checker: string, approve: bool)
    ensures Grows(s, Approve(w, s, id, checker, approve).0)
  {
    hide Settle, RetryKey, Transition;
    if id in s.cases && s.cases[id].transaction in s.intents && s.cases[id].rounds != [] {
      var c := s.cases[id];
      SettleGrows(w, s, RetryKey(id, c.rounds[|c.rounds| - 1].replacement), Renamed(s.intents[c.transaction].request, c.rounds[|c.rounds| - 1].replacement), false);
    }
  }

  lemma OpeningGrows(s: State, product: string, owner: string, amount: int)
    ensures Grows(s, Opening(s, product, owner, amount).0)
  {
    hide BatchError, AccountsOf;
  }

  lemma ProposeGrows(s: State, id: string, maker: string, retry: bool, replacement: string)
    ensures Grows(s, Propose(s, id, maker, retry, replacement).0)
  {
    hide Transition;
  }

  lemma StepGrows(s: State, e: Event)
    ensures Grows(s, Step(s, e).0)
  {
    hide Settle, Approve, Propose, Opening;
    match e.action
    case DoSettle(key, r, registerFailure) => SettleGrows(e.world, s, key, r, registerFailure);
    case DoApprove(id, checker, approve) => ApproveGrows(e.world, s, id, checker, approve);
    case DoPropose(id, maker, retry, replacement) => ProposeGrows(s, id, maker, retry, replacement);
    case Open(product, owner, amount) => OpeningGrows(s, product, owner, amount);
    case _ =>
  }

  lemma {:induction false} RunGrows(events: seq<Event>, i: nat)
    requires i <= |events|
    ensures Grows(Run(events[..i]), Run(events))
  {
    if i == |events| {
      assert events[..i] == events;
    } else {
      var front := events[..|events| - 1];
      RunGrows(front, i);
      assert front[..i] == events[..i];
      StepGrows(Run(front), events[|events| - 1]);
      hide Step;
    }
  }

  /** The bootstrap event for this owner and product. */
  predicate OpensFor(e: Event, product: string, owner: string) {
    e.action.Open? && e.action.id == product && e.action.owner == owner
  }

  /**
   In every run, once an event has brought an owner's opening cash into a product's books,
   every later opening for that owner and product leaves every table as it was, whatever
   amount it names.
   */
  lemma OpensOnce(events: seq<Event>, i: nat, j: nat, product: string, owner: string)
    requires i < j < |events| && OpensFor(events[i], product, owner) && OpensFor(events[j], product, owner)
    requires Run(events[..i + 1]).ledger != Run(events[..i]).ledger
    ensures Run(events[..j + 1]) == Run(events[..j])
  {
    var s, t, u := Run(events[..i]), Run(events[..i + 1]), Run(events[..j]);
    RunLastAt(events, i);
    RunLastAt(events, j);
    RunGrows(events[..j], i + 1);
    assert events[..j][..i + 1] == events[..i + 1];
    hide Run, BatchError, AccountsOf;
    assert product in s.products;
    var k := |s.ledger|;
    assert t.ledger[k].id == "opening:" + product + ":" + owner + ":" + s.products[product].currency;
    assert u.ledger[k].id == t.ledger[k].id;
  }

  lemma RunLastAt(events: seq<Event>, i: nat)
    requires i < |events|
    ensures Run(events[..i + 1]) == Step(Run(events[..i]), events[i]).0
  {
    assert events[..i + 1][..i] == events[..i];
    hide Step;
  }
}
