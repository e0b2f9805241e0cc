/**
 The workflow service over its tables. Inside a transaction rows are written one by one;
 an error part-way leaves them half-written until the transaction, or the savepoint
 around a retry, is rolled back.
 */
module DurableWorkflowService {
  import opened Common
  import opened Ledger
  import opened DurableWorkflow
  import opened DurableWorkflowSafety

  // ----- rows written so far -----

  /** A new transaction's key and row, walked along a path of the table and without a receipt. */
  function Started(s: State, key: string, r: Request, path: seq<TxState>): State
    requires path != []
  {
    s.(keys := s.keys[key := r.id], intents := s.intents[r.id := Intent(key, r, path[|path| - 1], path, None)])
  }

  /** A settlement is booked while its transaction is REGISTER_PENDING, a review decided while it is CASH_RESERVED. */
  function UnfinishedPath(registerFailure: bool): (path: seq<TxState>)
    ensures path != []
  {
    if registerFailure then REVIEW_PATH[..3] else SETTLED_PATH[..4]
  }

  /** The tables when the writes of a settlement stop, whether it succeeded or not. */
  function WrittenSettlement(w: World, s: State, key: string, r: Request, nav: int): State
    requires r.product in s.products
  {
    var t := Started(s, key, r, UnfinishedPath(false));
    match Append(s.ledger, s.accounts, LedgerBatch(r, s.products[r.product], nav), "UNKNOWN_LEDGER_ACCOUNT")
    case Err(_) => t
    case Ok(ledger) =>
      match Append(s.register, s.registerAccounts, RegisterBatch(r), "UNKNOWN_REGISTER_ACCOUNT")
      case Err(_) => t.(ledger := ledger)
      case Ok(register) =>
        var booked := t.(ledger := ledger, register := register);
        if !w.cashProvider then booked
        else booked.(intents := s.intents[r.id := Intent(key, r, SETTLED, SETTLED_PATH, Some(Receipt(r.id, SETTLED, RestrictedExit(s, r))))])
  }

  function WrittenReview(w: World, s: State, key: string, r: Request): State {
    var t := Started(s, key, r, UnfinishedPath(true));
    if !w.cashProvider then t
    else
      t.(intents := s.intents[r.id := Intent(key, r, REQUIRES_REVIEW, REVIEW_PATH, Some(Receipt(r.id, REQUIRES_REVIEW, false)))],
         cases := s.cases[CaseId(r.id) := Case(r.id, OPEN, [], None)])
  }

  /** The tables a settlement leaves inside its transaction, before anything is rolled back. */
  function Written(w: World, s: State, key: string, r: Request, registerFailure: bool): State {
    if (key in s.keys && s.keys[key] in s.intents) || Priced(w, s, r).Err? || r.id in s.intents then s
    else if registerFailure then WrittenReview(w, s, key, r)
    else
      ProductKnown(w, s, r);
      WrittenSettlement(w, s, key, r, Priced(w, s, r).value)
  }

  /** Only a settlement that succeeds leaves inside its transaction what it is supposed to commit. */
  lemma WrittenIsSettled(w: World, s: State, key: string, r: Request, registerFailure: bool)
    ensures Settle(w, s, key, r, registerFailure).1.Receipted? ==> Written(w, s, key, r, registerFailure) == Settle(w, s, key, r, registerFailure).0
  {
    hide Priced, Append, LedgerBatch, RegisterBatch, RestrictedExit;
  }

  /** A settlement that got as far as its row and then failed. */
  predicate Abandoned(w: World, s: State, key: string, r: Request, registerFailure: bool) {
    && key !in s.keys && r.id !in s.intents && Priced(w, s, r).Ok?
    && Settle(w, s, key, r, registerFailure).1.Failed?
  }

  /**
   The rollback is needed after every failure past the first row, whichever kind it is.
   The row it leaves is in the middle of its path with no receipt and no case, so nothing
   could ever resolve it; the key is taken, so the same request would be answered as in
   flight in every world; the workflow invariant is broken; and once a batch is posted,
   so are the books.
   */
  lemma RollbackIsNeeded(w: World, s: State, key: string, r: Request, registerFailure: bool, again: World)
    requires Inv(s) && Abandoned(w, s, key, r, registerFailure)
    ensures var t := Written(w, s, key, r, registerFailure);
      && r.id in t.intents && t.intents[r.id] == Intent(key, r, if registerFailure then CASH_RESERVED else REGISTER_PENDING, UnfinishedPath(registerFailure), None)
      && CaseId(r.id) !in t.cases && !Inv(t)
      && (t.ledger != s.ledger ==> !Books(t))
      && Settle(again, t, key, r, registerFailure) == (t, Failed("IDEMPOTENCY_IN_FLIGHT"))
  {
    var t := Written(w, s, key, r, registerFailure);
    AbandonedRow(w, s, key, r, registerFailure);
    NoCaseYet(s, r.id);
    hide Written, Settle, Priced;
    UnresolvableBreaks(t, r.id);
    if t.ledger != s.ledger {
      BookedTooEarly(t, r.id, |s.ledger|);
    }
    InFlight(again, t, key, r, registerFailure);
  }

  /** The row an abandoned settlement has written, and at most one ledger batch, which is its own. */
  ghost predicate LeftBehind(s: State, t: State, key: string, r: Request, path: seq<TxState>)
    requires path != []
  {
    && t.keys == s.keys[key := r.id] && t.intents == s.intents[r.id := Intent(key, r, path[|path| - 1], path, None)] && t.cases == s.cases
    && (t.ledger == s.ledger || (|t.ledger| == |s.ledger| + 1 && t.ledger[|s.ledger|].transaction == Some(r.id)))
  }

  lemma SettlementLeftBehind(w: World, s: State, key: string, r: Request, nav: int)
    requires r.product in s.products && Post(w, s, key, r, nav).1.Failed?
    ensures LeftBehind(s, WrittenSettlement(w, s, key, r, nav), key, r, UnfinishedPath(false))
  {
    hide BatchError, AccountsOf, CashEntries, UnitEntries, RestrictedExit, UnfinishedPath;
  }

  lemma ReviewLeftBehind(w: World, s: State, key: string, r: Request)
    requires Review(w, s, key, r).1.Failed?
    ensures LeftBehind(s, WrittenReview(w, s, key, r), key, r, UnfinishedPath(true))
  {
    hide UnfinishedPath;
  }

  lemma AbandonedRow(w: World, s: State, key: string, r: Request, registerFailure: bool)
    requires Abandoned(w, s, key, r, registerFailure)
    ensures LeftBehind(s, Written(w, s, key, r, registerFailure), key, r, UnfinishedPath(registerFailure))
  {
    hide Priced, Post, Review, WrittenSettlement, WrittenReview, LeftBehind, UnfinishedPath;
    ProductKnown(w, s, r);
    if registerFailure {
      ReviewLeftBehind(w, s, key, r);
    } else {
      SettlementLeftBehind(w, s, key, r, Priced(w, s, r).value);
    }
  }

  lemma NoCaseYet(s: State, x: string)
    requires Inv(s) && x !in s.intents
    ensures CaseId(x) !in s.cases
  {
    hide Books, IntentGood, CaseGood;
    CasesElsewhere(s, x);
  }

  /** An unsettled transaction without a case contradicts the workflow. */
  lemma UnresolvableBreaks(t: State, x: string)
    requires x in t.intents && t.intents[x].state != SETTLED && CaseId(x) !in t.cases
    ensures !Inv(t)
  {
    hide Books, LegalHistory, CaseId;
    assert !IntentGood(t, x);
  }

  /** A batch of an unsettled transaction contradicts the books. */
  lemma BookedTooEarly(t: State, x: string, i: nat)
    requires i < |t.ledger| && t.ledger[i].transaction == Some(x) && x in t.intents && t.intents[x].state != SETTLED
    ensures !Books(t)
  {
    hide Sound, Mirrored;
  }

  lemma InFlight(w: World, t: State, key: string, r: Request, registerFailure: bool)
    requires key in t.keys && t.keys[key] in t.intents && t.intents[t.keys[key]].request == r && t.intents[t.keys[key]].receipt.None?
    ensures Settle(w, t, key, r, registerFailure) == (t, Failed("IDEMPOTENCY_IN_FLIGHT"))
  {
    hide Priced, Post, Review;
  }

  class WorkflowStore {
    var products: map<string, Product>
    var credentials: map<string, Credential>
    var navs: seq<Nav>
    var accounts: set<Account>
    var registerAccounts: set<Account>
    var ledger: seq<Batch>
    var register: seq<Batch>
    var intents: map<string, Intent>
    var keys: map<string, string>
    var cases: map<string, Case>

    function View(): State
      reads this
    {
      State(products, credentials, navs, accounts, registerAccounts, ledger, register, intents, keys, cases)
    }

    ghost predicate Valid()
      reads this
    {
      Inv(View())
    }

    constructor ()
      ensures Valid() && View() == INITIAL
    {
      products, credentials, navs, accounts, registerAccounts := map[], map[], [], {}, {};
      ledger, register, intents, keys, cases := [], [], map[], map[], map[];
      new;
      InitialInv();
    }

    /** `transitionTransaction`: moves the row and records the state, if the table allows it. */
    method TransitionTransaction(x: string, to: TxState) returns (ok: bool)
      requires x in intents
      modifies this`intents
      ensures ok == MayFollow(old(intents)[x].state, to)
      ensures intents == if ok then old(intents)[x := Transition(old(intents)[x], to).value] else old(intents)
    {
      var row := intents[x];
      if !MayFollow(row.state, to) {
        return false;
      }
      intents := intents[x := row.(state := to, history := row.history + [to])];
      return true;
    }

    /** Checks a batch, then adds it. */
    static method AppendBatch(batches: seq<Batch>, accounts: set<Account>, b: Batch, unknown: string) returns (r: Result<seq<Batch>>)
      ensures r == Append(batches, accounts, b, unknown)
      ensures r.Ok? <==> Balanced(b.entries) && forall i :: 0 <= i < |b.entries| ==> b.entries[i].account in accounts
      ensures r.Ok? ==> r.value == batches + [b]
    {
      hide BatchError;
      var error := AssertBalancedEntries(b.entries);
      if error.Some? {
        return Err(error.value);
      }
      for i := 0 to |b.entries|
        invariant forall k :: 0 <= k < i ==> b.entries[k].account in accounts
      {
        if b.entries[i].account !in accounts {
          assert b.entries[i].account in AccountsOf(b.entries);
          return Err(unknown);
        }
      }
      return Ok(batches + [b]);
    }

    /** Walks a new transaction through a path of states. */
    method Walk(x: string, path: seq<TxState>)
      requires x in intents && path != [] && intents[x].state == path[0] && intents[x].history == [path[0]]
      requires forall k :: 0 < k < |path| ==> MayFollow(path[k - 1], path[k])
      modifies this`intents
      ensures intents == old(intents)[x := old(intents)[x].(state := path[|path| - 1], history := path)]
    {
      var first := intents[x];
      assert path[..1] == [path[0]] && first == first.(state := path[0], history := path[..1]);
      for k := 1 to |path|
        invariant intents == old(intents)[x := first.(state := path[k - 1], history := path[..k])]
      {
        var ok := TransitionTransaction(x, path[k]);
        assert ok && path[..k + 1] == path[..k] + [path[k]];
      }
      assert path[..|path|] == path;
    }

    /** `createTransactionIntent` for a fresh key and identifier. */
    method CreateIntent(key: string, r: Request)
      modifies this`intents, this`keys
      ensures keys == old(keys)[key := r.id] && intents == old(intents)[r.id := Intent(key, r, REQUESTED, [REQUESTED], None)]
    {
      keys := keys[key := r.id];
      intents := intents[r.id := Intent(key, r, REQUESTED, [REQUESTED], None)];
    }

    /** Creates a transaction and walks it along a path of the table. */
    method StartTransaction(key: string, r: Request, path: seq<TxState>)
      requires path != [] && path[0] == REQUESTED && forall k :: 0 < k < |path| ==> MayFollow(path[k - 1], path[k])
      modifies this`intents, this`keys
      ensures View() == Started(old(View()), key, r, path)
    {
      CreateIntent(key, r);
      Walk(r.id, path);
    }

    /** The last step of a transaction's path, and `storeReceipt`. */
    method Conclude(x: string, to: TxState, receipt: Receipt)
      requires x in intents && MayFollow(intents[x].state, to)
      modifies this`intents
      ensures intents == old(intents)[x := old(intents)[x].(state := to, history := old(intents)[x].history + [to], receipt := Some(receipt))]
    {
      var ok := TransitionTransaction(x, to);
      assert ok;
      intents := intents[x := intents[x].(receipt := Some(receipt))];
    }

    /** A register failure: the cash is reserved, then released, and the transaction goes to review with its case. */
    method WriteReview(w: World, key: string, r: Request) returns (reply: Reply)
      modifies this`intents, this`keys, this`cases
      ensures reply == Review(w, old(View()), key, r).1 && View() == WrittenReview(w, old(View()), key, r)
    {
      StartTransaction(key, r, UnfinishedPath(true));
      if !w.cashProvider {
        return Failed("MISSING_ROLE");
      }
      var receipt := Receipt(r.id, REQUIRES_REVIEW, false);
      Conclude(r.id, REQUIRES_REVIEW, receipt);
      assert UnfinishedPath(true) + [REQUIRES_REVIEW] == REVIEW_PATH;
      cases := cases[CaseId(r.id) := Case(r.id, OPEN, [], None)];
      return Receipted(receipt);
    }

    /** One balanced batch in the ledger, then the unit movement alone in the register. */
    method BookEntries(r: Request, nav: int) returns (error: Option<string>)
      requires r.product in products
      modifies this`ledger, this`register
      ensures var l := Append(old(ledger), accounts, LedgerBatch(r, products[r.product], nav), "UNKNOWN_LEDGER_ACCOUNT");
        var g := Append(old(register), registerAccounts, RegisterBatch(r), "UNKNOWN_REGISTER_ACCOUNT");
        if l.Err? then error == Some(l.code) && ledger == old(ledger) && register == old(register)
        else if g.Err? then error == Some(g.code) && ledger == l.value && register == old(register)
        else error == None && ledger == l.value && register == g.value
    {
      hide Append, LedgerBatch, RegisterBatch;
      var posted := AppendBatch(ledger, accounts, LedgerBatch(r, products[r.product], nav), "UNKNOWN_LEDGER_ACCOUNT");
      if posted.Err? {
        return Some(posted.code);
      }
      ledger := posted.value;
      var registered := AppendBatch(register, registerAccounts, RegisterBatch(r), "UNKNOWN_REGISTER_ACCOUNT");
      if registered.Err? {
        return Some(registered.code);
      }
      register := registered.value;
      return None;
    }

    /** Both batches are posted and the role checked before the transaction is settled and has its receipt. */
    method WriteSettlement(w: World, key: string, r: Request, nav: int) returns (reply: Reply)
      requires r.product in products
      modifies this`intents, this`keys, this`ledger, this`register
      ensures reply == Post(w, old(View()), key, r, nav).1 && View() == WrittenSettlement(w, old(View()), key, r, nav)
    {
      hide Append, LedgerBatch, RegisterBatch, RestrictedExit;
      var receipt := Receipt(r.id, SETTLED, RestrictedExit(View(), r));
      StartTransaction(key, r, UnfinishedPath(false));
      var error := BookEntries(r, nav);
      if error.Some? {
        return Failed(error.value);
      }
      if !w.cashProvider {
        return Failed("MISSING_ROLE");
      }
      Conclude(r.id, SETTLED, receipt);
      assert UnfinishedPath(false) + [SETTLED] == SETTLED_PATH;
      return Receipted(receipt);
    }

    /** Writes a settlement row by row; on an error the writes so far are left for the caller to roll back. */
    method SettleInTransaction(w: World, key: string, r: Request, registerFailure: bool) returns (reply: Reply)
      modifies this`intents, this`keys, this`ledger, this`register, this`cases
      ensures reply == Settle(w, old(View()), key, r, registerFailure).1
      ensures View() == Written(w, old(View()), key, r, registerFailure)
    {
      hide Priced, Post, Review, WrittenSettlement, WrittenReview;
      if key in keys && keys[key] in intents {
        if intents[keys[key]].request != r {
          return Failed("IDEMPOTENCY_CONFLICT");
        }
        if intents[keys[key]].receipt.None? {
          return Failed("IDEMPOTENCY_IN_FLIGHT");
        }
        return Receipted(intents[keys[key]].receipt.value);
      }
      var nav := Priced(w, View(), r);
      if nav.Err? {
        return Failed(nav.code);
      }
      if r.id in intents {
        return Failed("23505");
      }
      ProductKnown(w, View(), r);
      if registerFailure {
        reply := WriteReview(w, key, r);
      } else {
        reply := WriteSettlement(w, key, r, nav.value);
      }
    }

    /** A whole settlement transaction: committed, or rolled back to what it found. */
    method SettleRequest(w: World, key: string, r: Request, registerFailure: bool) returns (reply: Reply)
      requires Valid()
      modifies this
      ensures Valid() && (View(), reply) == Settle(w, old(View()), key, r, registerFailure)
    {
      hide Inv, Settle;
      SettleKeeps(w, View(), key, r, registerFailure);
      reply := SettleOrRollback(w, key, r, registerFailure);
    }

    method SettleOrRollback(w: World, key: string, r: Request, registerFailure: bool) returns (reply: Reply)
      modifies this`intents, this`keys, this`ledger, this`register, this`cases
      ensures (View(), reply) == Settle(w, old(View()), key, r, registerFailure)
    {
      hide Settle, Written;
      WrittenIsSettled(w, View(), key, r, registerFailure);
      var savepoint := (intents, keys, ledger, register, cases);
      reply := SettleInTransaction(w, key, r, registerFailure);
      if !reply.Receipted? {
        SettleFails(w, old(View()), key, r, registerFailure);
        intents, keys, ledger, register, cases := savepoint.0, savepoint.1, savepoint.2, savepoint.3, savepoint.4;
      }
    }

    method ProposeExceptionResolution(id: string, maker: string, retry: bool, replacement: string) returns (reply: Reply)
      requires Valid()
      modifies this
      ensures Valid() && (View(), reply) == Propose(old(View()), id, maker, retry, replacement)
    {
      hide Inv, Transition;
      ProposeKeeps(View(), id, maker, retry, replacement);
      if retry == (replacement == "") {
        return Failed("INVALID_APPROVAL_PAYLOAD");
      }
      if id !in cases || cases[id].status != OPEN || cases[id].transaction !in intents {
        return Failed("INVALID_EXCEPTION_STATE");
      }
      var c := cases[id];
      ghost var before := View();
      MoveFails(before.intents[c.transaction], PENDING_APPROVAL);
      var ok := TransitionTransaction(c.transaction, PENDING_APPROVAL);
      if !ok {
        return Failed("INVALID_STATE_TRANSITION");
      }
      cases := cases[id := c.(status := PENDING, rounds := c.rounds + [Round(maker, retry, replacement, None)])];
      return Accepted;
    }

    /** Moves the original transaction and closes or reopens its case. */
    method CloseCase(id: string, c: Case, to: TxState, status: CaseStatus, replacement: Option<string>) returns (reply: Reply)
      requires c.transaction in intents
      modifies this`intents, this`cases
      ensures (View(), reply) == Close(old(View()), id, c, to, status, replacement)
    {
      hide Transition;
      MoveFails(intents[c.transaction], to);
      var ok := TransitionTransaction(c.transaction, to);
      if !ok {
        return Failed("INVALID_STATE_TRANSITION");
      }
      cases := cases[id := c.(status := status, replacement := replacement)];
      return Accepted;
    }

    method ApproveExceptionResolution(w: World, id: string, checker: string, approve: bool) returns (reply: Reply)
      requires Valid()
      modifies this
      ensures Valid() && (View(), reply) == Approve(w, old(View()), id, checker, approve)
    {
      hide Inv, Close, Settle, RetryKey;
      ApproveKeeps(w, View(), id, checker, approve);
      if id !in cases || cases[id].status != PENDING || cases[id].rounds == [] || cases[id].transaction !in intents {
        return Failed("INVALID_EXCEPTION_STATE");
      }
      var c := cases[id];
      var round := c.rounds[|c.rounds| - 1];
      if round.maker == checker {
        return Failed("MAKER_CHECKER_CONFLICT");
      }
      c := c.(rounds := c.rounds[|c.rounds| - 1 := round.(checker := Some(checker))]);
      if !approve {
        reply := CloseCase(id, c, REQUIRES_REVIEW, OPEN, None);
      } else if !round.retry {
        reply := CloseCase(id, c, CANCELLED, RESOLVED_CANCELLED, None);
      } else {
        reply := RetryReplacement(w, id, c, round.replacement);
      }
    }

    /** Settles the replacement inside the approval's own transaction; its failure undoes only the attempt. */
    method RetryReplacement(w: World, id: string, c: Case, replacement: string) returns (reply: Reply)
      requires c.transaction in intents
      modifies this
      ensures (View(), reply) == Retry(w, old(View()), id, c, replacement)
    {
      hide Close, Settle, RetryKey;
      var request := Renamed(intents[c.transaction].request, replacement);
      var attempt := SettleOrRollback(w, RetryKey(id, replacement), request, false);
      if attempt.Failed? {
        reply := CloseCase(id, c, REQUIRES_REVIEW, OPEN, None);
        return if reply == Accepted then RetryBlocked(attempt.code) else reply;
      }
      reply := CloseCase(id, c, REPLACED, RESOLVED_RETRIED, Some(replacement));
    }
  }

  lemma SettleFails(w: World, s: State, key: string, r: Request, registerFailure: bool)
    ensures !Settle(w, s, key, r, registerFailure).1.Receipted? ==> Settle(w, s, key, r, registerFailure).0 == s
  {
    hide Priced, Post, Review;
  }

  lemma ProductKnown(w: World, s: State, r: Request)
    ensures Priced(w, s, r).Ok? ==> r.product in s.products
  {
    hide KindError;
  }

  lemma MoveFails(i: Intent, to: TxState)
    ensures Transition(i, to).Ok? <==> MayFollow(i.state, to)
    ensures Transition(i, to).Err? ==> Transition(i, to) == Err("INVALID_STATE_TRANSITION")
  {
  }
}
