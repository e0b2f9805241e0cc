/**
 Institution callbacks: receipts per stream, buffering by sequence, the drain loop with
 its authority re-check, and the incidents opened on the way. Signatures, key and role
 tables, the clock and transaction lookups enter as a World that may differ at every step.
 */
module CallbackStream {
  import opened Common

  datatype Channel = REGISTER | CASH | CUSTODY

  datatype Outcome = CONFIRMED | REJECTED | PERMANENT_FAILURE

  datatype Stream = Stream(institution: string, product: string, channel: Channel)

  /** An envelope without its signature. */
  datatype Envelope = Envelope(id: string, stream: Stream, sequence: nat, keyId: string, occurredAt: int,
    subject: string, outcome: Outcome, asset: string, currency: string, amount: nat, fee: nat)

  type Hash = Envelope -> string

  /** The primary key of a receipt's place: stream and sequence. */
  datatype Slot = Slot(stream: Stream, sequence: nat)

  /** What the tables say about the transaction an envelope names. */
  datatype Facts = Facts(transaction: Option<(string, string)>, currency: string, committed: bool, unitsMatch: bool, cashMatch: bool, feeMatch: bool)

  /**
   `invalid` is the error of the envelope check, `authority` the reason a source may not act
   now, `rules` the error of the check repeated with the business rules after authentication.
   */
  datatype World = World(
    tenant: string, invalid: Envelope -> Option<string>, signed: Envelope -> bool,
    authority: Envelope -> Option<string>, rules: Envelope -> Option<string>, facts: Envelope -> Facts)

  datatype Reconciliation = NotApplicable | FullyMatched | Mismatch(reason: string)

  datatype Incident = BlockedStream(reason: string) | External(critical: bool, reason: string)

  /** `next` holds stream positions, one when absent; `effects` lists applications in order. */
  datatype State = State(
    receipts: map<Slot, Envelope>, ids: map<string, Slot>, applied: set<Slot>, next: map<Stream, nat>,
    effects: seq<Envelope>, confirmations: map<string, Reconciliation>, incidents: map<string, Incident>)

  datatype Reply =
    | Refused(code: string)
    | Duplicate(applied: bool)
    | Buffered(expected: nat)
    | Applied(drained: nat, blocked: Option<string>)

  const INITIAL: State := State(map[], map[], {}, map[], [], map[], map[])

  function Next(s: State, stream: Stream): nat {
    if stream in s.next then s.next[stream] else 1
  }

  function SlotOf(e: Envelope): Slot {
    Slot(e.stream, e.sequence)
  }

  /** How an applied callback compares with the transaction it names. */
  function Reconcile(w: World, e: Envelope): Reconciliation {
    var f := w.facts(e);
    if e.stream.channel == CUSTODY then NotApplicable
    else if f.transaction.None? then Mismatch("UNKNOWN_TRANSACTION")
    else if f.transaction.value != (w.tenant, e.stream.product) then Mismatch("TRANSACTION_CONTEXT_MISMATCH")
    else if e.stream.channel == CASH && e.currency != f.currency then Mismatch("CURRENCY_MISMATCH")
    else if e.stream.channel == REGISTER && e.asset != "UNIT:" + e.stream.product then Mismatch("ASSET_MISMATCH")
    else if !f.committed then Mismatch("MISSING_ECONOMIC_COMMITMENT")
    else if e.stream.channel == REGISTER && !f.unitsMatch then Mismatch("UNITS_COMMITMENT_MISMATCH")
    else if e.stream.channel == CASH && !(f.cashMatch && f.feeMatch) then Mismatch("CASH_COMMITMENT_MISMATCH")
    else FullyMatched
  }

  function OutcomeText(o: Outcome): string {
    match o case CONFIRMED => "CONFIRMED" case REJECTED => "REJECTED" case PERMANENT_FAILURE => "PERMANENT_FAILURE"
  }

  function ChannelText(c: Channel): string {
    match c case REGISTER => "REGISTER" case CASH => "CASH" case CUSTODY => "CUSTODY"
  }

  predicate NeedsIncident(r: Reconciliation, o: Outcome) {
    r.Mismatch? || o != CONFIRMED
  }

  /** Applies the receipt at the stream's position: effect, confirmation and, when needed, an incident. */
  function Apply(s: State, w: World, e: Envelope): State {
    var r := Reconcile(w, e);
    var reason := if r.Mismatch? then r.reason else "EXTERNAL_" + ChannelText(e.stream.channel) + "_" + OutcomeText(e.outcome);
    s.(applied := s.applied + {SlotOf(e)}, next := s.next[e.stream := Next(s, e.stream) + 1], effects := s.effects + [e],
       confirmations := s.confirmations[e.id := r],
       incidents := if NeedsIncident(r, e.outcome) then s.incidents[e.id := External(e.outcome == PERMANENT_FAILURE, reason)] else s.incidents)
  }

  function OpenBlocked(s: State, e: Envelope, reason: string): State {
    if e.id in s.incidents then s else s.(incidents := s.incidents[e.id := BlockedStream("BUFFERED_CALLBACK_" + reason)])
  }

  /** Applies buffered receipts from the stream's position on, re-checking authority before each. */
  function Drain(s: State, w: World, stream: Stream): (State, nat, Option<string>)
    decreases |s.receipts.Keys - s.applied|
  {
    var slot := Slot(stream, Next(s, stream));
    if slot !in s.receipts || slot in s.applied then (s, 0, None)
    else
      var e := s.receipts[slot];
      match w.authority(e)
      case Some(reason) => (OpenBlocked(s, e, reason), 0, Some(reason))
      case None =>
        if SlotOf(e) != slot then (s, 0, None)
        else
          FewerWaiting(s.receipts.Keys, s.applied, slot);
          var (t, drained, blocked) := Drain(Apply(s, w, e), w, stream);
          (t, drained + 1, blocked)
  }

  lemma FewerWaiting(all: set<Slot>, done: set<Slot>, x: Slot)
    requires x in all && x !in done
    ensures |all - (done + {x})| < |all - done|
  {
    assert all - done == all - (done + {x}) + {x};
  }

  function Received(hash: Hash, s: State, w: World, e: Envelope): (State, Reply) {
    if w.invalid(e).Some? then (s, Refused(w.invalid(e).value))
    else if e.sequence == 0 then (s, Refused("INVALID_CALLBACK_SEQUENCE"))
    else if w.authority(e).Some? || !w.signed(e) then (s, Refused("CALLBACK_AUTHENTICATION_FAILED"))
    else if w.rules(e).Some? then (s, Refused(w.rules(e).value))
    else if e.id in s.ids then
      var earlier := s.ids[e.id];
      if earlier in s.receipts && hash(s.receipts[earlier]) == hash(e) then (s, Duplicate(earlier in s.applied))
      else (s, Refused("CALLBACK_ID_CONFLICT"))
    else if e.sequence < Next(s, e.stream) || SlotOf(e) in s.receipts then (s, Refused("CALLBACK_SEQUENCE_CONFLICT"))
    else Admitted(s, w, e)
  }

  predicate Accepts(w: World, e: Envelope) {
    w.invalid(e).None? && w.signed(e) && w.authority(e).None? && w.rules(e).None?
  }

  /** A new receipt: buffered, or applied with whatever follows it. */
  function Admitted(s: State, w: World, e: Envelope): (State, Reply) {
    var t := Registered(s, e);
    if e.sequence != Next(s, e.stream) then (t, Buffered(Next(s, e.stream)))
    else
      var (u, drained, blocked) := Drain(Apply(t, w, e), w, e.stream);
      (u, Applied(drained, blocked))
  }

  datatype Delivery = Delivery(world: World, envelope: Envelope)

  function RunFrom(hash: Hash, s: State, deliveries: seq<Delivery>): State {
    if deliveries == [] then s
    else
      var last := deliveries[|deliveries| - 1];
      Received(hash, RunFrom(hash, s, deliveries[..|deliveries| - 1]), last.world, last.envelope).0
  }

  // ----- what every delivery keeps -----

  function EffectsOf(effects: seq<Envelope>, stream: Stream): seq<Envelope> {
    if effects == [] then []
    else
      var last := effects[|effects| - 1];
      EffectsOf(effects[..|effects| - 1], stream) + if last.stream == stream then [last] else []
  }

  lemma EffectsOfMore(effects: seq<Envelope>, e: Envelope, stream: Stream)
    ensures EffectsOf(effects + [e], stream) == if e.stream == stream then EffectsOf(effects, stream) + [e] else EffectsOf(effects, stream)
  {
    assert (effects + [e])[..|effects|] == effects;
  }

  /** Receipts sit in their own slot, and identifiers and slots name each other. */
  ghost predicate Indexed(s: State) {
    && (forall slot :: slot in s.receipts ==>
      slot.sequence > 0 && SlotOf(s.receipts[slot]) == slot && s.receipts[slot].id in s.ids && s.ids[s.receipts[slot].id] == slot)
    && (forall id :: id in s.ids ==> s.ids[id] in s.receipts && s.receipts[s.ids[id]].id == id)
  }

  /** Exactly the receipts below a stream's position are applied, and none is missing there. */
  ghost predicate AppliedBelow(s: State) {
    && s.applied <= s.receipts.Keys
    && (forall st :: st in s.next ==> s.next[st] > 0)
    && (forall st, k: nat :: Slot(st, k) in s.applied <==> 0 < k < Next(s, st))
  }

  /** Element i is the stream's receipt with sequence i + 1. */
  ghost predicate Follows(log: seq<Envelope>, receipts: map<Slot, Envelope>, st: Stream) {
    forall k: nat :: 0 < k <= |log| ==> Slot(st, k) in receipts && log[k - 1] == receipts[Slot(st, k)]
  }

  /** A stream's effects are its receipts below the position, in order, once each. */
  ghost predicate Logged(s: State) {
    forall st :: |EffectsOf(s.effects, st)| == Next(s, st) - 1 && Follows(EffectsOf(s.effects, st), s.receipts, st)
  }

  /** Incidents belong to applied callbacks that need one, or to the receipt that blocks its stream. */
  ghost predicate Watched(s: State) {
    && (forall id :: id in s.confirmations <==> id in s.ids && s.ids[id] in s.applied)
    && (forall id :: id in s.incidents ==>
      && id in s.ids
      && if s.incidents[id].External? then s.ids[id] in s.applied else s.ids[id].sequence == Next(s, s.ids[id].stream))
    && (forall id :: id in s.confirmations ==>
      && id in s.ids && s.ids[id] in s.receipts
      && (id in s.incidents <==> NeedsIncident(s.confirmations[id], s.receipts[s.ids[id]].outcome)))
  }

  ghost predicate Core(s: State) {
    Indexed(s) && AppliedBelow(s) && Logged(s) && Watched(s)
  }

  /** A receipt waiting at the stream's position has blocked it, and an incident says so. */
  ghost predicate Settled(s: State, st: Stream) {
    var slot := Slot(st, Next(s, st));
    slot in s.receipts ==> s.receipts[slot].id in s.incidents && s.incidents[s.receipts[slot].id].BlockedStream?
  }

  ghost predicate Inv(s: State) {
    Core(s) && forall st :: Settled(s, st)
  }

  /** What a delivery to one stream leaves alone. */
  ghost predicate OthersSame(s: State, t: State, stream: Stream) {
    forall st :: st != stream ==>
      Next(t, st) == Next(s, st) && EffectsOf(t.effects, st) == EffectsOf(s.effects, st) && (Settled(s, st) ==> Settled(t, st))
  }

  /** The receipt at the stream's position, not yet applied and without an incident. */
  ghost predicate Due(s: State, e: Envelope) {
    SlotOf(e) in s.receipts && s.receipts[SlotOf(e)] == e && e.sequence == Next(s, e.stream) && e.id !in s.incidents
  }

  lemma ApplyBelow(s: State, w: World, e: Envelope)
    requires AppliedBelow(s) && SlotOf(e) in s.receipts && e.sequence == Next(s, e.stream)
    ensures AppliedBelow(Apply(s, w, e))
  {
    hide Reconcile;
    var t := Apply(s, w, e);
    forall st ensures Next(t, st) == Next(s, st) + if st == e.stream then 1 else 0 {
    }
    forall st, k: nat ensures Slot(st, k) in t.applied <==> 0 < k < Next(t, st) {
      assert Slot(st, k) == SlotOf(e) <==> st == e.stream && k == Next(s, st);
    }
  }

  lemma ApplyLogged(s: State, w: World, e: Envelope)
    requires Logged(s) && SlotOf(e) in s.receipts && s.receipts[SlotOf(e)] == e && e.sequence == Next(s, e.stream)
    ensures Logged(Apply(s, w, e))
    ensures forall st :: st != e.stream ==> EffectsOf(Apply(s, w, e).effects, st) == EffectsOf(s.effects, st)
  {
    ApplyEffects(s, w, e);
    ApplyPosition(s, w, e);
    ApplySame(s, w, e);
    var t := Apply(s, w, e);
    hide Apply, Follows, EffectsOf, Next;
    forall st ensures |EffectsOf(t.effects, st)| == Next(t, st) - 1 && Follows(EffectsOf(t.effects, st), t.receipts, st) {
      EffectsOfMore(s.effects, e, st);
      assert |EffectsOf(s.effects, st)| == Next(s, st) - 1 && Follows(EffectsOf(s.effects, st), s.receipts, st);
      if st == e.stream {
        FollowsMore(EffectsOf(s.effects, st), s.receipts, st, e);
      }
    }
    forall st | st != e.stream ensures EffectsOf(t.effects, st) == EffectsOf(s.effects, st) {
      EffectsOfMore(s.effects, e, st);
    }
  }

  lemma ApplyPosition(s: State, w: World, e: Envelope)
    ensures forall st :: Next(Apply(s, w, e), st) == Next(s, st) + if st == e.stream then 1 else 0
  {
    hide Reconcile, NeedsIncident, ChannelText, OutcomeText;
  }

  lemma FollowsMore(log: seq<Envelope>, receipts: map<Slot, Envelope>, st: Stream, e: Envelope)
    requires Follows(log, receipts, st) && e.stream == st && e.sequence == |log| + 1
    requires SlotOf(e) in receipts && receipts[SlotOf(e)] == e
    ensures Follows(log + [e], receipts, st)
  {
    assert SlotOf(e) == Slot(st, |log| + 1);
  }

  lemma ApplyWatched(s: State, w: World, e: Envelope)
    requires Indexed(s) && Watched(s) && Due(s, e)
    ensures Watched(Apply(s, w, e))
  {
    hide Reconcile, NeedsIncident;
    var t := Apply(s, w, e);
    assert e.id in s.ids && s.ids[e.id] == SlotOf(e);
    assert s.receipts[SlotOf(e)] == e;
    forall id | id in t.incidents
      ensures id in s.ids
      ensures if t.incidents[id].External? then s.ids[id] in t.applied else s.ids[id].sequence == Next(t, s.ids[id].stream)
    {
      if id != e.id {
        assert id in s.incidents;
        if s.incidents[id].BlockedStream? && s.ids[id].stream == e.stream {
          assert false;
        }
      }
    }
  }

  /** After the due receipt is applied, the next one has no incident yet. */
  lemma NextIsClear(s: State, w: World, e: Envelope)
    requires Indexed(s) && AppliedBelow(s) && Watched(s) && Due(s, e)
    ensures var slot := Slot(e.stream, e.sequence + 1); slot in s.receipts ==> s.receipts[slot].id !in Apply(s, w, e).incidents
  {
    hide Reconcile, NeedsIncident;
    var slot := Slot(e.stream, e.sequence + 1);
    if slot in s.receipts {
      var x := s.receipts[slot];
      assert s.ids[x.id] == slot && slot !in s.applied;
      assert SlotOf(e) != slot && s.ids[e.id] == SlotOf(e);
    }
  }

  lemma ApplyOthers(s: State, w: World, e: Envelope)
    requires Indexed(s) && Due(s, e)
    requires forall st :: st != e.stream ==> EffectsOf(Apply(s, w, e).effects, st) == EffectsOf(s.effects, st)
    ensures OthersSame(s, Apply(s, w, e), e.stream)
  {
    hide Reconcile, NeedsIncident, EffectsOf;
    var t := Apply(s, w, e);
    forall st | st != e.stream && Settled(s, st) ensures Settled(t, st) {
      var slot := Slot(st, Next(s, st));
      if slot in s.receipts {
        assert s.ids[s.receipts[slot].id] == slot && s.ids[e.id] == SlotOf(e);
      }
    }
  }

  lemma ApplyKeeps(s: State, w: World, e: Envelope)
    requires Core(s) && Due(s, e)
    ensures var t := Apply(s, w, e);
      && Core(t) && Next(t, e.stream) == Next(s, e.stream) + 1 && OthersSame(s, t, e.stream)
      && (Slot(e.stream, Next(t, e.stream)) in t.receipts ==> t.receipts[Slot(e.stream, Next(t, e.stream))].id !in t.incidents)
  {
    ApplyBelow(s, w, e);
    ApplyLogged(s, w, e);
    ApplyWatched(s, w, e);
    NextIsClear(s, w, e);
    ApplyOthers(s, w, e);
    SameIndex(s, Apply(s, w, e));
    hide Reconcile, NeedsIncident, EffectsOf, Indexed, AppliedBelow, Logged, Watched, OthersSame;
  }

  lemma SameIndex(s: State, t: State)
    requires Indexed(s) && t.receipts == s.receipts && t.ids == s.ids
    ensures Indexed(t)
  {
  }

  /** The drain leaves a stream at a gap or blocked, and touches no receipt and no other stream. */
  lemma {:induction false} DrainKeeps(s: State, w: World, stream: Stream)
    requires Core(s)
    requires var slot := Slot(stream, Next(s, stream)); slot in s.receipts ==> s.receipts[slot].id !in s.incidents
    ensures var (t, drained, blocked) := Drain(s, w, stream);
      && Core(t) && Settled(t, stream) && OthersSame(s, t, stream)
      && t.receipts == s.receipts && t.ids == s.ids && Next(t, stream) == Next(s, stream) + drained
      && (blocked.None? <==> Slot(stream, Next(t, stream)) !in t.receipts)
    decreases |s.receipts.Keys - s.applied|
  {
    hide EffectsOf, Core, Apply, OthersSame;
    var slot := Slot(stream, Next(s, stream));
    AtPosition(s, stream);
    SameOthers(s, s, s, stream);
    if slot in s.receipts {
      var e := s.receipts[slot];
      if w.authority(e).None? {
        FewerWaiting(s.receipts.Keys, s.applied, slot);
        ApplyKeeps(s, w, e);
        ApplySame(s, w, e);
        DrainKeeps(Apply(s, w, e), w, stream);
        SameOthers(s, Apply(s, w, e), Drain(Apply(s, w, e), w, stream).0, stream);
      } else {
        BlockKeeps(s, e, w.authority(e).value);
      }
    }
  }

  lemma AtPosition(s: State, stream: Stream)
    requires Core(s)
    ensures var slot := Slot(stream, Next(s, stream));
      slot !in s.applied && (slot in s.receipts ==> SlotOf(s.receipts[slot]) == slot)
  {
    hide Logged, Watched, EffectsOf;
  }

  lemma SameOthers(s: State, t: State, u: State, stream: Stream)
    ensures OthersSame(s, s, stream)
    ensures OthersSame(s, t, stream) && OthersSame(t, u, stream) ==> OthersSame(s, u, stream)
  {
    hide EffectsOf, Settled, Next;
  }

  lemma BlockKeeps(s: State, e: Envelope, reason: string)
    requires Core(s) && Due(s, e)
    ensures var t := OpenBlocked(s, e, reason);
      Core(t) && Settled(t, e.stream) && OthersSame(s, t, e.stream)
  {
    hide EffectsOf, Indexed, Watched, AppliedBelow, Logged;
    var t := OpenBlocked(s, e, reason);
    AtPosition(s, e.stream);
    BlockWatched(s, e, reason);
    SameIndex(s, t);
    SamePositions(s, t);
  }

  lemma SamePositions(s: State, t: State)
    requires t.(incidents := s.incidents) == s
    ensures AppliedBelow(s) ==> AppliedBelow(t)
    ensures Logged(s) ==> Logged(t)
  {
  }

  lemma BlockWatched(s: State, e: Envelope, reason: string)
    requires Indexed(s) && Watched(s) && Due(s, e) && SlotOf(e) !in s.applied
    ensures Watched(OpenBlocked(s, e, reason))
  {
    hide NeedsIncident;
    assert s.ids[e.id] == SlotOf(e);
  }

  function Registered(s: State, e: Envelope): State {
    s.(receipts := s.receipts[SlotOf(e) := e], ids := s.ids[e.id := SlotOf(e)], next := s.next[e.stream := Next(s, e.stream)])
  }

  /** An envelope whose identifier and slot are free, at or beyond its stream's position. */
  ghost predicate Vacant(s: State, e: Envelope) {
    e.sequence > 0 && e.id !in s.ids && SlotOf(e) !in s.receipts && e.sequence >= Next(s, e.stream)
  }

  lemma RegisterIndexed(s: State, e: Envelope)
    requires Indexed(s) && Vacant(s, e)
    ensures Indexed(Registered(s, e))
  {
  }

  lemma RegisterRest(s: State, e: Envelope)
    requires Core(s) && Vacant(s, e)
    ensures var t := Registered(s, e); AppliedBelow(t) && Logged(t)
  {
    hide EffectsOf, Watched, Indexed;
    var t := Registered(s, e);
    forall st ensures Next(t, st) == Next(s, st) {
    }
    assert AppliedBelow(t);
    hide AppliedBelow, Next;
    assert Logged(t);
  }

  lemma RegisterWatched(s: State, e: Envelope)
    requires Core(s) && Vacant(s, e)
    ensures Watched(Registered(s, e))
    ensures e.id !in s.incidents && SlotOf(e) !in s.applied
  {
    hide EffectsOf, Logged, NeedsIncident;
    var t := Registered(s, e);
    forall st ensures Next(t, st) == Next(s, st) {
    }
    assert SlotOf(e) !in s.applied;
    forall id | id in s.ids ensures t.ids[id] == s.ids[id] && s.ids[id] in s.receipts && s.ids[id] != SlotOf(e) {
    }
    hide AppliedBelow, Next, Indexed;
    WatchedMore(s, t, e);
  }

  lemma WatchedMore(s: State, t: State, e: Envelope)
    requires Watched(s) && e.id !in s.ids && SlotOf(e) !in s.applied
    requires forall st :: Next(t, st) == Next(s, st)
    requires forall id :: id in s.ids ==> s.ids[id] in s.receipts && s.ids[id] != SlotOf(e)
    requires t.receipts == s.receipts[SlotOf(e) := e] && t.ids == s.ids[e.id := SlotOf(e)]
    requires t.applied == s.applied && t.confirmations == s.confirmations && t.incidents == s.incidents
    ensures Watched(t)
  {
    hide NeedsIncident, Next;
  }

  lemma RegisteredNext(s: State, e: Envelope)
    ensures forall st :: Next(Registered(s, e), st) == Next(s, st)
  {
  }

  /** Streams settled before stay settled, except the one whose turn it is. */
  lemma RegisteredSettled(s: State, e: Envelope, st: Stream)
    requires Settled(s, st) && Vacant(s, e) && Indexed(s) && (st != e.stream || e.sequence != Next(s, e.stream))
    ensures Settled(Registered(s, e), st)
  {
    RegisteredNext(s, e);
    hide Next;
  }

  lemma AddCore(s: State, e: Envelope)
    requires Core(s) && Vacant(s, e)
    ensures var t := Registered(s, e); Core(t) && e.id !in t.incidents && (e.sequence == Next(s, e.stream) ==> Due(t, e))
  {
    RegisterIndexed(s, e);
    RegisterRest(s, e);
    RegisterWatched(s, e);
    RegisteredNext(s, e);
    hide Indexed, AppliedBelow, Logged, Watched, Vacant, Next;
  }

  lemma AddSettled(s: State, e: Envelope)
    requires Inv(s) && Vacant(s, e)
    ensures OthersSame(s, Registered(s, e), e.stream)
    ensures forall st :: st != e.stream || e.sequence != Next(s, e.stream) ==> Settled(Registered(s, e), st)
  {
    RegisteredNext(s, e);
    hide Settled, Vacant, Next, EffectsOf, Indexed, AppliedBelow, Logged, Watched;
    forall st | st != e.stream || e.sequence != Next(s, e.stream) ensures Settled(Registered(s, e), st) {
      assert Settled(s, st);
      RegisteredSettled(s, e, st);
    }
    assert Registered(s, e).effects == s.effects;
  }

  lemma AddReceipt(s: State, e: Envelope)
    requires Inv(s) && Vacant(s, e)
    ensures var t := Registered(s, e);
      && Core(t) && e.id !in t.incidents && OthersSame(s, t, e.stream)
      && Next(t, e.stream) == Next(s, e.stream)
      && (e.sequence == Next(s, e.stream) ==> Due(t, e))
      && (e.sequence != Next(s, e.stream) ==> Inv(t))
  {
    hide Core, Settled, Vacant, OthersSame, Registered, Due, Next;
    AddCore(s, e);
    AddSettled(s, e);
    RegisteredNext(s, e);
  }

  lemma ReceiveKeeps(hash: Hash, s: State, w: World, e: Envelope)
    requires Inv(s)
    ensures var t := Received(hash, s, w, e).0;
      && Inv(t) && OthersSame(s, t, e.stream)
      && (forall slot :: slot in s.receipts ==> slot in t.receipts && t.receipts[slot] == s.receipts[slot])
  {
    hide Drain, Apply, EffectsOf, Core, Settled;
    var (t, reply) := Received(hash, s, w, e);
    SameOthers(s, s, s, e.stream);
    if !reply.Refused? && !reply.Duplicate? {
      AddReceipt(s, e);
      var u := Registered(s, e);
      if e.sequence == Next(s, e.stream) {
        ApplyKeeps(u, w, e);
        ApplySame(u, w, e);
        var v := Apply(u, w, e);
        DrainKeeps(v, w, e.stream);
        SameOthers(s, u, v, e.stream);
        SameOthers(s, v, t, e.stream);
        hide Next;
        forall st ensures Settled(t, st) {
          assert Settled(s, st);
        }
      }
    }
  }

  lemma ApplySame(s: State, w: World, e: Envelope)
    ensures Apply(s, w, e).receipts == s.receipts && Apply(s, w, e).ids == s.ids && Apply(s, w, e).applied == s.applied + {SlotOf(e)}
  {
  }

  lemma {:induction false} RunKeeps(hash: Hash, s: State, deliveries: seq<Delivery>)
    requires Inv(s)
    ensures Inv(RunFrom(hash, s, deliveries))
  {
    hide Inv, Received;
    if deliveries != [] {
      var front, last := deliveries[..|deliveries| - 1], deliveries[|deliveries| - 1];
      RunKeeps(hash, s, front);
      ReceiveKeeps(hash, RunFrom(hash, s, front), last.world, last.envelope);
    }
  }

  lemma InitialInv()
    ensures Inv(INITIAL)
  {
  }

  // ----- the theorems -----

  /** In every reachable state: contiguous prefixes in order, each once; incidents exactly where they are due. */
  lemma StreamsAreOrdered(hash: Hash, deliveries: seq<Delivery>, st: Stream)
    ensures var s := RunFrom(hash, INITIAL, deliveries);
      var log := EffectsOf(s.effects, st);
      && (forall i :: 0 <= i < |log| ==> log[i].stream == st && log[i].sequence == i + 1)
      && |log| + 1 == Next(s, st)
      && (forall id :: id in s.ids ==>
        && s.ids[id] in s.receipts
        && (s.ids[id] in s.applied ==>
          && id in s.confirmations
          && (id in s.incidents <==> NeedsIncident(s.confirmations[id], s.receipts[s.ids[id]].outcome)))
        && (s.ids[id] !in s.applied && id in s.incidents ==> s.ids[id].sequence == Next(s, s.ids[id].stream)))
  {
    InitialInv();
    RunKeeps(hash, INITIAL, deliveries);
    hide RunFrom, EffectsOf;
    var s := RunFrom(hash, INITIAL, deliveries);
    var log := EffectsOf(s.effects, st);
    assert Core(s);
    assert |log| == Next(s, st) - 1 && Follows(log, s.receipts, st);
    forall i | 0 <= i < |log| ensures log[i].stream == st && log[i].sequence == i + 1 {
      assert log[i + 1 - 1] == s.receipts[Slot(st, i + 1)];
      assert SlotOf(log[i]) == Slot(st, i + 1);
    }
  }

  /** A stream whose next receipt is waiting stays where it is, whatever is delivered and whoever regains authority. */
  lemma {:induction false} BlockedForever(hash: Hash, s: State, deliveries: seq<Delivery>, st: Stream)
    requires Inv(s) && Slot(st, Next(s, st)) in s.receipts
    ensures var t := RunFrom(hash, s, deliveries);
      && Next(t, st) == Next(s, st) && EffectsOf(t.effects, st) == EffectsOf(s.effects, st)
      && Slot(st, Next(s, st)) in t.receipts && Slot(st, Next(s, st)) !in t.applied
  {
    hide EffectsOf, Received;
    if deliveries == [] {
      assert Core(s);
    } else {
      var front, last := deliveries[..|deliveries| - 1], deliveries[|deliveries| - 1];
      BlockedForever(hash, s, front, st);
      RunKeeps(hash, s, front);
      StaysBlocked(hash, RunFrom(hash, s, front), last.world, last.envelope, st);
    }
  }

  lemma StaysBlocked(hash: Hash, s: State, w: World, e: Envelope, st: Stream)
    requires Inv(s) && Slot(st, Next(s, st)) in s.receipts
    ensures var t := Received(hash, s, w, e).0;
      && Next(t, st) == Next(s, st) && EffectsOf(t.effects, st) == EffectsOf(s.effects, st)
      && Slot(st, Next(s, st)) in t.receipts && Slot(st, Next(s, st)) !in t.applied
  {
    hide EffectsOf, Drain, Apply, Core, Settled;
    ReceiveKeeps(hash, s, w, e);
    var t := Received(hash, s, w, e).0;
    AtPosition(s, st);
    AtPosition(t, st);
  }

  /** Later effects extend earlier ones by effects authorised in the given world. */
  ghost predicate Grown(w: World, before: seq<Envelope>, after: seq<Envelope>) {
    && |before| <= |after| && after[..|before|] == before
    && forall i :: |before| <= i < |after| ==> w.authority(after[i]).None?
  }

  lemma GrownMore(w: World, before: seq<Envelope>, e: Envelope, after: seq<Envelope>)
    requires Grown(w, before + [e], after) && w.authority(e).None?
    ensures Grown(w, before, after)
  {
    assert after[..|before|] == after[..|before| + 1][..|before|];
    assert after[|before|] == after[..|before| + 1][|before|];
  }

  lemma GrownSame(w: World, effects: seq<Envelope>)
    ensures Grown(w, effects, effects)
  {
    assert effects[..|effects|] == effects;
  }

  lemma ApplyEffects(s: State, w: World, e: Envelope)
    ensures Apply(s, w, e).effects == s.effects + [e]
  {
  }

  /** Every effect a delivery adds was authorised in that delivery's world. */
  lemma {:induction false} DrainAuthorised(s: State, w: World, stream: Stream)
    ensures Grown(w, s.effects, Drain(s, w, stream).0.effects)
    decreases |s.receipts.Keys - s.applied|
  {
    hide Apply, Grown, SlotOf;
    GrownSame(w, s.effects);
    var slot := Slot(stream, Next(s, stream));
    if slot in s.receipts && slot !in s.applied {
      var e := s.receipts[slot];
      if w.authority(e).None? && SlotOf(e) == slot {
        FewerWaiting(s.receipts.Keys, s.applied, slot);
        ApplySame(s, w, e);
        ApplyEffects(s, w, e);
        DrainAuthorised(Apply(s, w, e), w, stream);
        GrownMore(w, s.effects, e, Drain(Apply(s, w, e), w, stream).0.effects);
      }
    }
  }

  /** A buffered callback whose authority is gone is not applied by this delivery, and the position does not pass it. */
  lemma LostAuthorityStops(hash: Hash, s: State, w: World, e: Envelope, slot: Slot)
    requires Inv(s) && slot in s.receipts && slot !in s.applied && w.authority(s.receipts[slot]).Some?
    ensures var t := Received(hash, s, w, e).0;
      slot in t.receipts && slot !in t.applied && Next(t, slot.stream) <= slot.sequence
  {
    hide EffectsOf, Drain, Apply;
    var t := Received(hash, s, w, e).0;
    ReceiveKeeps(hash, s, w, e);
    ReceiveAuthorised(hash, s, w, e);
    if slot in t.applied {
      assert slot == Slot(slot.stream, slot.sequence);
      assert 0 < slot.sequence < Next(t, slot.stream);
      AppliedIsNew(s, t, slot);
      assert false;
    }
    assert slot == Slot(slot.stream, slot.sequence);
  }

  lemma ReceiveAuthorised(hash: Hash, s: State, w: World, e: Envelope)
    ensures Grown(w, s.effects, Received(hash, s, w, e).0.effects)
  {
    hide Drain, Apply, Grown;
    GrownSame(w, s.effects);
    if Received(hash, s, w, e).1.Applied? {
      var u := Registered(s, e);
      ApplyEffects(u, w, e);
      DrainAuthorised(Apply(u, w, e), w, e.stream);
      GrownMore(w, s.effects, e, Drain(Apply(u, w, e), w, e.stream).0.effects);
    }
  }

  /** A receipt applied between two states is among the effects added between them. */
  lemma AppliedIsNew(s: State, t: State, slot: Slot)
    requires Core(s) && Core(t) && slot in t.applied && slot !in s.applied && slot in s.receipts
    requires t.receipts[slot] == s.receipts[slot]
    requires |s.effects| <= |t.effects| && t.effects[..|s.effects|] == s.effects
    ensures exists i :: |s.effects| <= i < |t.effects| && t.effects[i] == s.receipts[slot]
  {
    hide EffectsOf, Watched, Indexed;
    assert slot == Slot(slot.stream, slot.sequence);
    var st, k, n := slot.stream, slot.sequence, |s.effects|;
    EffectsSplit(t.effects, n, st);
    var log, before, added := EffectsOf(t.effects, st), EffectsOf(s.effects, st), EffectsOf(t.effects[n..], st);
    assert |before| < k <= |log|;
    hide AppliedBelow;
    assert log[k - 1] == t.receipts[slot];
    hide Logged;
    var p := k - 1 - |before|;
    assert added[p] == log[k - 1];
    EffectsMember(t.effects[n..], st, p);
    var i :| 0 <= i < |t.effects[n..]| && t.effects[n..][i] == added[p];
    assert t.effects[n + i] == s.receipts[slot];
  }

  lemma {:induction false} EffectsSplit(effects: seq<Envelope>, n: nat, st: Stream)
    requires n <= |effects|
    ensures EffectsOf(effects, st) == EffectsOf(effects[..n], st) + EffectsOf(effects[n..], st)
    decreases |effects|
  {
    if n < |effects| {
      var front := effects[..|effects| - 1];
      EffectsSplit(front, n, st);
      assert front[..n] == effects[..n] && effects[n..][..|effects[n..]| - 1] == front[n..];
    } else {
      assert effects[..n] == effects;
    }
  }

  lemma {:induction false} EffectsMember(effects: seq<Envelope>, st: Stream, k: nat)
    requires k < |EffectsOf(effects, st)|
    ensures EffectsOf(effects, st)[k] in effects
  {
    if effects != [] {
      var front := effects[..|effects| - 1];
      assert effects == front + [effects[|effects| - 1]];
      if k < |EffectsOf(front, st)| {
        EffectsMember(front, st, k);
      }
    }
  }

  /**
   A buffered callback whose authority is gone whenever anything is delivered is never
   applied, and the stream ends at it at the latest; if it ends there, neither the
   callback nor the stream ever moves again, even when authority returns.
   */
  lemma LostAuthorityIsFinal(hash: Hash, s: State, lost: seq<Delivery>, later: seq<Delivery>, slot: Slot)
    requires Inv(s) && slot in s.receipts && slot !in s.applied
    requires forall i :: 0 <= i < |lost| ==> lost[i].world.authority(s.receipts[slot]).Some?
    ensures var t := RunFrom(hash, s, lost);
      && slot !in t.applied && Next(t, slot.stream) <= slot.sequence
      && (Next(t, slot.stream) == slot.sequence ==>
        var u := RunFrom(hash, t, later);
        slot !in u.applied && Next(u, slot.stream) == slot.sequence && EffectsOf(u.effects, slot.stream) == EffectsOf(t.effects, slot.stream))
  {
    hide EffectsOf, RunFrom, Inv;
    NeverApplied(hash, s, lost, slot);
    var t := RunFrom(hash, s, lost);
    RunKeeps(hash, s, lost);
    assert slot == Slot(slot.stream, slot.sequence);
    if Next(t, slot.stream) == slot.sequence {
      BlockedForever(hash, t, later, slot.stream);
    }
  }

  lemma {:induction false} NeverApplied(hash: Hash, s: State, lost: seq<Delivery>, slot: Slot)
    requires Inv(s) && slot in s.receipts && slot !in s.applied
    requires forall i :: 0 <= i < |lost| ==> lost[i].world.authority(s.receipts[slot]).Some?
    ensures var t := RunFrom(hash, s, lost);
      slot in t.receipts && t.receipts[slot] == s.receipts[slot] && slot !in t.applied && Next(t, slot.stream) <= slot.sequence
  {
    hide Inv, Received;
    if lost == [] {
      WaitingIsAhead(s, slot);
    } else {
      var front, last := lost[..|lost| - 1], lost[|lost| - 1];
      NeverApplied(hash, s, front, slot);
      RunKeeps(hash, s, front);
      LostAuthorityStops(hash, RunFrom(hash, s, front), last.world, last.envelope, slot);
      ReceiveKeeps(hash, RunFrom(hash, s, front), last.world, last.envelope);
    }
  }

  lemma WaitingIsAhead(s: State, slot: Slot)
    requires Inv(s) && slot in s.receipts && slot !in s.applied
    ensures Next(s, slot.stream) <= slot.sequence
  {
    hide EffectsOf, Logged, Watched;
    assert slot == Slot(slot.stream, slot.sequence);
  }

  /** An acceptable new callback at its stream's position moves the stream exactly when no receipt waits there. */
  lemma DeliveryMovesIff(hash: Hash, s: State, w: World, e: Envelope)
    requires Inv(s) && Accepts(w, e) && e.id !in s.ids && e.sequence == Next(s, e.stream)
    ensures Next(Received(hash, s, w, e).0, e.stream) > Next(s, e.stream) <==> Slot(e.stream, Next(s, e.stream)) !in s.receipts
  {
    hide EffectsOf, Drain, Apply, Core, Settled;
    if Slot(e.stream, Next(s, e.stream)) in s.receipts {
      StaysBlocked(hash, s, w, e, e.stream);
    } else {
      PositionPositive(s, e.stream);
      AddReceipt(s, e);
      ApplyKeeps(Registered(s, e), w, e);
      DrainKeeps(Apply(Registered(s, e), w, e), w, e.stream);
    }
  }

  lemma PositionPositive(s: State, stream: Stream)
    requires Core(s)
    ensures Next(s, stream) > 0
  {
    hide EffectsOf, Indexed, Logged, Watched;
  }

  /** The second callback arrives early; when the first one lets it through, its authority is gone. */
  function LosingDeliveries(before: World, after: World, first: Envelope, second: Envelope): seq<Delivery> {
    [Delivery(before, second), Delivery(after, first)]
  }

  /** Such a stream is blocked at its second position with an incident, and stays so in every later run. */
  lemma EarlyCallbackBlocks(hash: Hash, before: World, after: World, first: Envelope, second: Envelope, later: seq<Delivery>)
    requires Accepts(before, second) && Accepts(after, first) && after.authority(second).Some?
    requires first.stream == second.stream && first.sequence == 1 && second.sequence == 2 && first.id != second.id
    ensures var s := RunFrom(hash, INITIAL, LosingDeliveries(before, after, first, second));
      && Next(s, first.stream) == 2 && s.receipts.Keys == {SlotOf(first), SlotOf(second)} && s.applied == {SlotOf(first)}
      && second.id in s.incidents && s.incidents[second.id].BlockedStream?
      && var t := RunFrom(hash, s, later); Next(t, first.stream) == 2 && SlotOf(second) !in t.applied && EffectsOf(t.effects, first.stream) == [first]
  {
    var es := LosingDeliveries(before, after, first, second);
    var s := RunFrom(hash, INITIAL, es);
    EarlyRun(hash, before, after, first, second);
    InitialInv();
    RunKeeps(hash, INITIAL, es);
    hide Inv, RunFrom, LosingDeliveries;
    assert EffectsOf(s.effects, first.stream) == [first] by {
      EffectsOfMore([], first, first.stream);
      assert [] + [first] == [first];
    }
    hide EffectsOf;
    BlockedForever(hash, s, later, first.stream);
  }

  lemma EarlyRun(hash: Hash, before: World, after: World, first: Envelope, second: Envelope)
    requires Accepts(before, second) && Accepts(after, first) && after.authority(second).Some?
    requires first.stream == second.stream && first.sequence == 1 && second.sequence == 2 && first.id != second.id
    ensures var s := RunFrom(hash, INITIAL, LosingDeliveries(before, after, first, second));
      && Next(s, first.stream) == 2 && s.receipts.Keys == {SlotOf(first), SlotOf(second)} && s.applied == {SlotOf(first)}
      && second.id in s.incidents && s.incidents[second.id].BlockedStream? && s.effects == [first]
  {
    var es := LosingDeliveries(before, after, first, second);
    assert es[..1] == [es[0]] && es[..1][..0] == [];
    var one := Received(hash, INITIAL, before, second).0;
    assert one == Registered(INITIAL, second);
    assert RunFrom(hash, INITIAL, es[..1]) == one;
    hide Reconcile, NeedsIncident;
    assert RunFrom(hash, INITIAL, es) == Received(hash, one, after, first).0;
  }

  // ----- what a confirmation says -----

  /** What one delivery adds: applications authorised and reconciled in its world; earlier confirmations stay. */
  ghost predicate Confirms(w: World, s: State, t: State) {
    && s.applied <= t.applied && t.receipts.Keys >= t.applied
    && (forall slot :: slot in s.receipts ==> slot in t.receipts && t.receipts[slot] == s.receipts[slot])
    && (forall id :: id in s.confirmations ==> id in t.confirmations && t.confirmations[id] == s.confirmations[id])
    && (forall slot :: slot in t.applied && slot !in s.applied ==> ReconciledIn(w, t, slot))
  }

  /** The receipt was authorised in this world, and its confirmation compares it with this world's facts. */
  predicate ReconciledIn(w: World, s: State, slot: Slot) {
    && slot in s.receipts && w.authority(s.receipts[slot]).None?
    && s.receipts[slot].id in s.confirmations && s.confirmations[s.receipts[slot].id] == Reconcile(w, s.receipts[slot])
  }

  lemma ConfirmsChain(w: World, s: State, t: State, u: State)
    requires Confirms(w, s, t) && Confirms(w, t, u)
    ensures Confirms(w, s, u)
  {
    hide Reconcile;
  }

  lemma ConfirmsNothing(w: World, s: State, t: State)
    requires t.applied == s.applied && t.confirmations == s.confirmations && t.receipts.Keys >= t.applied
    requires forall slot :: slot in s.receipts ==> slot in t.receipts && t.receipts[slot] == s.receipts[slot]
    ensures Confirms(w, s, t)
  {
  }

  lemma ApplyConfirms(s: State, w: World, e: Envelope)
    requires Core(s) && Due(s, e) && w.authority(e).None?
    ensures Confirms(w, s, Apply(s, w, e))
  {
    hide Reconcile, NeedsIncident, EffectsOf, Logged;
    assert s.ids[e.id] == SlotOf(e) && SlotOf(e) !in s.applied && e.id !in s.confirmations;
  }

  lemma {:induction false} DrainConfirms(s: State, w: World, stream: Stream)
    requires Core(s) && Clear(s, stream)
    ensures Confirms(w, s, Drain(s, w, stream).0)
    decreases |s.receipts.Keys - s.applied|
  {
    hide Core, Apply, Drain, Confirms, Clear;
    DrainTurn(s, w, stream);
    var slot := Slot(stream, Next(s, stream));
    AppliedReceived(s);
    if slot in s.receipts && slot !in s.applied {
      var e := s.receipts[slot];
      if w.authority(e).None? {
        FewerWaiting(s.receipts.Keys, s.applied, slot);
        ApplySame(s, w, e);
        ClearIsDue(s, stream);
        ApplyConfirms(s, w, e);
        DrainConfirms(Apply(s, w, e), w, stream);
        ConfirmsChain(w, s, Apply(s, w, e), Drain(s, w, stream).0);
      } else {
        ConfirmsNothing(w, s, OpenBlocked(s, e, w.authority(e).value));
      }
    } else {
      ConfirmsNothing(w, s, s);
    }
  }

  lemma AppliedReceived(s: State)
    requires Core(s)
    ensures s.applied <= s.receipts.Keys
  {
    hide EffectsOf, Indexed, Logged, Watched;
  }

  lemma ClearIsDue(s: State, stream: Stream)
    requires Core(s) && Clear(s, stream) && Slot(stream, Next(s, stream)) in s.receipts
    ensures Due(s, s.receipts[Slot(stream, Next(s, stream))])
  {
    hide EffectsOf, AppliedBelow, Logged, Watched;
  }

  lemma ReceiveConfirms(hash: Hash, s: State, w: World, e: Envelope)
    requires Inv(s)
    ensures Confirms(w, s, Received(hash, s, w, e).0)
  {
    hide Drain, Apply, Core, Settled, Confirms, OthersSame;
    var (t, reply) := Received(hash, s, w, e);
    AppliedReceived(s);
    ConfirmsNothing(w, s, s);
    if !reply.Refused? && !reply.Duplicate? {
      AddReceipt(s, e);
      var u := Registered(s, e);
      ConfirmsNothing(w, s, u);
      if e.sequence == Next(s, e.stream) {
        ApplyKeeps(u, w, e);
        ApplyConfirms(u, w, e);
        ConfirmsChain(w, s, u, Apply(u, w, e));
        DrainConfirms(Apply(u, w, e), w, e.stream);
        ConfirmsChain(w, s, Apply(u, w, e), t);
      }
    }
  }

  /** The delivery at position i applies the receipt, authorised and reconciled in that delivery's world. */
  ghost predicate AppliedBy(hash: Hash, deliveries: seq<Delivery>, i: nat, slot: Slot) {
    && i < |deliveries|
    && slot !in RunFrom(hash, INITIAL, deliveries[..i]).applied && slot in RunFrom(hash, INITIAL, deliveries[..i + 1]).applied
    && ReconciledIn(deliveries[i].world, RunFrom(hash, INITIAL, deliveries), slot)
  }

  /** The economic comparison, read directly: the transaction is this tenant's and product's, and every committed amount agrees. */
  predicate Agrees(w: World, e: Envelope) {
    var f := w.facts(e);
    && f.transaction == Some((w.tenant, e.stream.product)) && f.committed
    && match e.stream.channel
       case REGISTER => e.asset == "UNIT:" + e.stream.product && f.unitsMatch
       case CASH => e.currency == f.currency && f.cashMatch && f.feeMatch
       case CUSTODY => false
  }

  /**
   In every run, each applied callback was authorised in the world of the one delivery
   that applied it, however long it had been buffered, and is free of an incident exactly
   when it confirmed and, unless it is a custody statement, agreed with its transaction
   as that world showed it.
   */
  lemma ConfirmedByItsDelivery(hash: Hash, deliveries: seq<Delivery>, slot: Slot)
    requires slot in RunFrom(hash, INITIAL, deliveries).applied
    ensures exists i: nat :: AppliedBy(hash, deliveries, i, slot) && CleanWhen(hash, deliveries, i, slot)
  {
    hide RunFrom, Inv, AppliedBy, CleanWhen;
    AppliedBySome(hash, deliveries, slot);
    var i: nat :| AppliedBy(hash, deliveries, i, slot);
    InitialInv();
    RunKeeps(hash, INITIAL, deliveries);
    AppliedIsClean(hash, deliveries, i, slot);
  }

  /** The applied callback is free of an incident exactly when it agreed in the world of the delivery at i. */
  ghost predicate CleanWhen(hash: Hash, deliveries: seq<Delivery>, i: nat, slot: Slot) {
    var s := RunFrom(hash, INITIAL, deliveries);
    i < |deliveries| && slot in s.receipts &&
    (s.receipts[slot].id !in s.incidents <==>
      s.receipts[slot].outcome == CONFIRMED && (slot.stream.channel == CUSTODY || Agrees(deliveries[i].world, s.receipts[slot])))
  }

  lemma AppliedIsClean(hash: Hash, deliveries: seq<Delivery>, i: nat, slot: Slot)
    requires AppliedBy(hash, deliveries, i, slot) && Inv(RunFrom(hash, INITIAL, deliveries))
    ensures CleanWhen(hash, deliveries, i, slot)
  {
    hide RunFrom, EffectsOf, Logged, AppliedBelow;
    var s := RunFrom(hash, INITIAL, deliveries);
    assert SlotOf(s.receipts[slot]) == slot && s.ids[s.receipts[slot].id] == slot;
    hide Indexed;
  }

  lemma {:induction false} AppliedBySome(hash: Hash, deliveries: seq<Delivery>, slot: Slot)
    requires slot in RunFrom(hash, INITIAL, deliveries).applied
    ensures exists i: nat :: AppliedBy(hash, deliveries, i, slot)
  {
    hide Inv, Received, Confirms, ReconciledIn;
    var m := |deliveries| - 1;
    var front, last := deliveries[..m], deliveries[m];
    var s := RunFrom(hash, INITIAL, front);
    InitialInv();
    RunKeeps(hash, INITIAL, front);
    ReceiveConfirms(hash, s, last.world, last.envelope);
    assert deliveries[..m + 1] == deliveries;
    if slot in s.applied {
      AppliedBySome(hash, front, slot);
      var i: nat :| AppliedBy(hash, front, i, slot);
      assert front[..i] == deliveries[..i] && front[..i + 1] == deliveries[..i + 1];
      ReconciledStays(last.world, deliveries[i].world, s, RunFrom(hash, INITIAL, deliveries), slot);
      assert AppliedBy(hash, deliveries, i, slot);
    } else {
      NewlyReconciled(last.world, s, RunFrom(hash, INITIAL, deliveries), slot);
      assert AppliedBy(hash, deliveries, m, slot);
    }
  }

  lemma ReconciledStays(w: World, v: World, s: State, t: State, slot: Slot)
    requires Confirms(w, s, t) && ReconciledIn(v, s, slot)
    ensures ReconciledIn(v, t, slot)
  {
    hide Reconcile;
  }

  lemma NewlyReconciled(w: World, s: State, t: State, slot: Slot)
    requires Confirms(w, s, t) && slot in t.applied && slot !in s.applied
    ensures ReconciledIn(w, t, slot)
  {
    hide Reconcile;
  }

  // ----- confluence -----

  /** Every envelope is acceptable when it is delivered and its source keeps its authority throughout; identifiers and slots tell envelopes apart. */
  ghost predicate Honest(deliveries: seq<Delivery>) {
    && (forall i :: 0 <= i < |deliveries| ==> Accepts(deliveries[i].world, deliveries[i].envelope))
    && (forall i, j :: 0 <= i < |deliveries| && 0 <= j < |deliveries| ==> deliveries[i].world.authority(deliveries[j].envelope).None?)
    && (forall i :: 0 <= i < |deliveries| ==> deliveries[i].envelope.sequence > 0)
    && (forall i, j :: 0 <= i < |deliveries| && 0 <= j < |deliveries| ==>
      (deliveries[i].envelope.id == deliveries[j].envelope.id || SlotOf(deliveries[i].envelope) == SlotOf(deliveries[j].envelope)) ==>
      deliveries[i].envelope == deliveries[j].envelope)
  }

  /** The envelopes delivered. */
  ghost function Envelopes(deliveries: seq<Delivery>): set<Envelope> {
    set i | 0 <= i < |deliveries| :: deliveries[i].envelope
  }

  ghost predicate Unblocked(s: State) {
    forall id :: id in s.incidents ==> s.incidents[id].External?
  }

  /** Receipts are exactly the envelopes of a set. */
  ghost predicate Holds(s: State, es: set<Envelope>) {
    && (forall e :: e in es ==> SlotOf(e) in s.receipts && s.receipts[SlotOf(e)] == e)
    && (forall slot :: slot in s.receipts ==> s.receipts[slot] in es)
  }

  lemma {:induction false} DrainUnblocked(s: State, w: World, stream: Stream)
    requires Unblocked(s) && forall slot :: slot in s.receipts ==> w.authority(s.receipts[slot]).None?
    ensures Unblocked(Drain(s, w, stream).0)
    decreases |s.receipts.Keys - s.applied|
  {
    var slot := Slot(stream, Next(s, stream));
    if slot in s.receipts && slot !in s.applied && SlotOf(s.receipts[slot]) == slot {
      FewerWaiting(s.receipts.Keys, s.applied, slot);
      DrainUnblocked(Apply(s, w, s.receipts[slot]), w, stream);
    }
  }

  /** An acceptable envelope that is new has a free place. */
  lemma HonestVacant(s: State, e: Envelope, es: set<Envelope>)
    requires Core(s) && Holds(s, es) && e.sequence > 0
    requires forall x :: x in es && (x.id == e.id || SlotOf(x) == SlotOf(e)) ==> x == e
    ensures e.id !in s.ids ==> Vacant(s, e)
    ensures e.id in s.ids ==> s.ids[e.id] in s.receipts && s.receipts[s.ids[e.id]] == e
  {
    hide Logged, Watched, EffectsOf;
    if e.id !in s.ids {
      assert SlotOf(e) !in s.receipts;
      assert SlotOf(e) in s.applied <==> e.sequence < Next(s, e.stream);
    } else {
      assert s.receipts[s.ids[e.id]] in es;
    }
  }

  lemma HonestStep(hash: Hash, s: State, w: World, e: Envelope, es: set<Envelope>)
    requires Inv(s) && Unblocked(s) && Holds(s, es) && e.sequence > 0
    requires Accepts(w, e) && forall x :: x in es + {e} ==> w.authority(x).None?
    requires forall x :: x in es && (x.id == e.id || SlotOf(x) == SlotOf(e)) ==> x == e
    ensures var (t, reply) := Received(hash, s, w, e);
      Inv(t) && Unblocked(t) && Holds(t, es + {e}) && !reply.Refused?
  {
    hide EffectsOf, Drain, Core, Apply, Settled, Next;
    ReceiveKeeps(hash, s, w, e);
    HonestVacant(s, e, es);
    if e.id !in s.ids {
      var u := Registered(s, e);
      AddReceipt(s, e);
      assert Holds(u, es + {e});
      if e.sequence == Next(s, e.stream) {
        HonestDrain(u, w, e, es + {e});
      }
    }
  }

  lemma HonestDrain(u: State, w: World, e: Envelope, es: set<Envelope>)
    requires Core(u) && Due(u, e) && Unblocked(u) && Holds(u, es) && forall x :: x in es ==> w.authority(x).None?
    ensures var t := Drain(Apply(u, w, e), w, e.stream).0; Unblocked(t) && Holds(t, es)
  {
    hide EffectsOf, Drain, Core, Apply, Settled, Next;
    ApplyKeeps(u, w, e);
    ApplySame(u, w, e);
    ApplyUnblocked(u, w, e);
    DrainUnblocked(Apply(u, w, e), w, e.stream);
    DrainKeeps(Apply(u, w, e), w, e.stream);
  }

  lemma ApplyUnblocked(s: State, w: World, e: Envelope)
    requires Unblocked(s)
    ensures Unblocked(Apply(s, w, e))
  {
  }

  /** The last of a list of honest deliveries, seen from those before it. */
  lemma HonestLast(deliveries: seq<Delivery>)
    requires Honest(deliveries) && deliveries != []
    ensures var front, last := deliveries[..|deliveries| - 1], deliveries[|deliveries| - 1];
      && Honest(front) && Envelopes(deliveries) == Envelopes(front) + {last.envelope} && last.envelope.sequence > 0
      && Accepts(last.world, last.envelope) && (forall x :: x in Envelopes(deliveries) ==> last.world.authority(x).None?)
      && (forall x :: x in Envelopes(front) && (x.id == last.envelope.id || SlotOf(x) == SlotOf(last.envelope)) ==> x == last.envelope)
  {
    hide Accepts;
    var n := |deliveries| - 1;
    var front, last := deliveries[..n], deliveries[n];
    forall x ensures x in Envelopes(deliveries) <==> x in Envelopes(front) || x == last.envelope {
      if x in Envelopes(deliveries) {
        var i :| 0 <= i < |deliveries| && deliveries[i].envelope == x;
        assert i < n ==> front[i].envelope == x;
      }
      if x in Envelopes(front) {
        var i :| 0 <= i < |front| && front[i].envelope == x;
        assert deliveries[i].envelope == x;
      }
      assert deliveries[n].envelope == last.envelope;
    }
  }

  lemma {:induction false} HonestRun(hash: Hash, deliveries: seq<Delivery>)
    requires Honest(deliveries)
    ensures var s := RunFrom(hash, INITIAL, deliveries); Inv(s) && Unblocked(s) && Holds(s, Envelopes(deliveries))
  {
    hide Inv, Received, Accepts, Honest, Envelopes;
    if deliveries == [] {
      InitialInv();
      assert Envelopes([]) == {} by {
        NothingDelivered();
      }
    } else {
      var front, last := deliveries[..|deliveries| - 1], deliveries[|deliveries| - 1];
      HonestLast(deliveries);
      HonestRun(hash, front);
      hide Unblocked, Holds;
      HonestStep(hash, RunFrom(hash, INITIAL, front), last.world, last.envelope, Envelopes(front));
    }
  }

  lemma NothingDelivered()
    ensures Envelopes([]) == {}
  {
  }

  /** The longest contiguous run of sequences from one on, in order. */
  ghost predicate LongestRun(es: set<Envelope>, st: Stream, log: seq<Envelope>) {
    && (forall i :: 0 <= i < |log| ==> log[i] in es && log[i].stream == st && log[i].sequence == i + 1)
    && (forall e :: e in es && e.stream == st ==> e.sequence != |log| + 1)
  }

  /**
   While authority is unchanged, any order of delivery with any duplicates applies
   exactly the longest contiguous run of each stream, in order and once each, and
   leaves the rest buffered.
   */
  lemma AppliesLongestRun(hash: Hash, deliveries: seq<Delivery>, st: Stream)
    requires Honest(deliveries)
    ensures var s := RunFrom(hash, INITIAL, deliveries);
      && Holds(s, Envelopes(deliveries)) && LongestRun(Envelopes(deliveries), st, EffectsOf(s.effects, st))
      && Next(s, st) == |EffectsOf(s.effects, st)| + 1
      && forall k: nat :: Slot(st, k) in s.applied <==> 0 < k <= |EffectsOf(s.effects, st)|
  {
    hide RunFrom, Envelopes, Inv, LongestRun;
    HonestRun(hash, deliveries);
    PositionIsLongest(RunFrom(hash, INITIAL, deliveries), Envelopes(deliveries), st);
  }

  lemma PositionIsLongest(s: State, es: set<Envelope>, st: Stream)
    requires Inv(s) && Unblocked(s) && Holds(s, es)
    ensures LongestRun(es, st, EffectsOf(s.effects, st)) && Next(s, st) == |EffectsOf(s.effects, st)| + 1
    ensures forall k: nat :: Slot(st, k) in s.applied <==> 0 < k <= |EffectsOf(s.effects, st)|
  {
    hide EffectsOf, Watched;
    var log := EffectsOf(s.effects, st);
    assert Core(s) && Settled(s, st);
    assert |log| == Next(s, st) - 1 && Follows(log, s.receipts, st);
    forall i | 0 <= i < |log| ensures log[i] in es && log[i].stream == st && log[i].sequence == i + 1 {
      assert log[i + 1 - 1] == s.receipts[Slot(st, i + 1)];
      assert SlotOf(log[i]) == Slot(st, i + 1);
    }
    forall e | e in es && e.stream == st ensures e.sequence != |log| + 1 {
      assert SlotOf(e) == Slot(st, e.sequence);
    }
  }

  lemma RunMember(es: set<Envelope>, st: Stream, log: seq<Envelope>, i: nat)
    requires LongestRun(es, st, log)
    ensures i < |log| ==> log[i] in es && log[i].stream == st && log[i].sequence == i + 1
  {
  }

  lemma {:induction false} LongestRunUnique(es: set<Envelope>, st: Stream, a: seq<Envelope>, b: seq<Envelope>)
    requires LongestRun(es, st, a) && LongestRun(es, st, b)
    requires forall x, y :: x in es && y in es && SlotOf(x) == SlotOf(y) ==> x == y
    ensures a == b
  {
    RunMember(es, st, a, |b|);
    RunMember(es, st, b, |a|);
    assert |a| == |b|;
    forall i | 0 <= i < |a| ensures a[i] == b[i] {
      assert SlotOf(a[i]) == SlotOf(b[i]);
    }
  }

  /** Two deliveries of the same envelopes, in any orders and worlds that accept them, end in the same streams. */
  lemma Confluence(hash: Hash, first: seq<Delivery>, second: seq<Delivery>)
    requires Honest(first) && Honest(second) && Envelopes(first) == Envelopes(second)
    ensures var s, t := RunFrom(hash, INITIAL, first), RunFrom(hash, INITIAL, second);
      && s.receipts == t.receipts && s.applied == t.applied && s.ids == t.ids
      && forall st :: Next(s, st) == Next(t, st) && EffectsOf(s.effects, st) == EffectsOf(t.effects, st)
  {
    hide RunFrom, EffectsOf, LongestRun, Accepts;
    var es := Envelopes(first);
    var s, t := RunFrom(hash, INITIAL, first), RunFrom(hash, INITIAL, second);
    HonestRun(hash, first);
    HonestRun(hash, second);
    SlotsTellApart(first);
    SameReceipts(s, t, es);
    forall st ensures Next(s, st) == Next(t, st) && EffectsOf(s.effects, st) == EffectsOf(t.effects, st) {
      AppliesLongestRun(hash, first, st);
      AppliesLongestRun(hash, second, st);
      LongestRunUnique(es, st, EffectsOf(s.effects, st), EffectsOf(t.effects, st));
    }
    forall slot ensures slot in s.applied <==> slot in t.applied {
      assert slot == Slot(slot.stream, slot.sequence);
      assert Next(s, slot.stream) == Next(t, slot.stream);
      assert AppliedBelow(s) && AppliedBelow(t);
    }
  }

  lemma SlotsTellApart(deliveries: seq<Delivery>)
    requires Honest(deliveries)
    ensures forall x, y :: x in Envelopes(deliveries) && y in Envelopes(deliveries) && SlotOf(x) == SlotOf(y) ==> x == y
  {
    forall x, y | x in Envelopes(deliveries) && y in Envelopes(deliveries) && SlotOf(x) == SlotOf(y) ensures x == y {
      var i :| 0 <= i < |deliveries| && deliveries[i].envelope == x;
      var j :| 0 <= j < |deliveries| && deliveries[j].envelope == y;
    }
  }

  lemma SameReceipts(s: State, t: State, es: set<Envelope>)
    requires Holds(s, es) && Holds(t, es) && Indexed(s) && Indexed(t)
    ensures s.receipts == t.receipts && s.ids == t.ids
  {
    forall slot ensures slot in s.receipts <==> slot in t.receipts {
    }
    forall slot | slot in s.receipts ensures s.receipts[slot] == t.receipts[slot] {
    }
    assert s.receipts == t.receipts;
    forall id ensures id in s.ids <==> id in t.ids {
    }
  }

  // ----- the service -----

  class InstitutionCallbackService {
    const hash: Hash
    var receipts: map<Slot, Envelope>
    var ids: map<string, Slot>
    var applied: set<Slot>
    var next: map<Stream, nat>
    var effects: seq<Envelope>
    var confirmations: map<string, Reconciliation>
    var incidents: map<string, Incident>

    function View(): State
      reads this
    {
      State(receipts, ids, applied, next, effects, confirmations, incidents)
    }

    constructor (hash: Hash)
      ensures View() == INITIAL && Inv(View()) && this.hash == hash
    {
      this.hash := hash;
      receipts, ids, applied, next, effects, confirmations, incidents := map[], map[], {}, map[], [], map[], map[];
      new;
      InitialInv();
    }

    /** Writes one application, its effect, its confirmation and a needed incident. */
    method ApplyOne(w: World, e: Envelope)
      modifies this`applied, this`effects, this`confirmations, this`incidents
      ensures View() == Apply(old(View()), w, e).(next := next)
    {
      applied := applied + {SlotOf(e)};
      effects := effects + [e];
      var r := Reconcile(w, e);
      confirmations := confirmations[e.id := r];
      if r.Mismatch? || e.outcome != CONFIRMED {
        var reason := if r.Mismatch? then r.reason else "EXTERNAL_" + ChannelText(e.stream.channel) + "_" + OutcomeText(e.outcome);
        incidents := incidents[e.id := External(e.outcome == PERMANENT_FAILURE, reason)];
      }
    }

    /** Records, once per callback, that a buffered receipt may no longer be applied. */
    method OpenBlockedStreamIncident(e: Envelope, reason: string)
      modifies this`incidents
      ensures View() == OpenBlocked(old(View()), e, reason)
    {
      if e.id !in incidents {
        incidents := incidents[e.id := BlockedStream("BUFFERED_CALLBACK_" + reason)];
      }
    }

    method Receive(w: World, e: Envelope) returns (reply: Reply)
      requires Inv(View())
      modifies this
      ensures Inv(View()) && (View(), reply) == Received(hash, old(View()), w, e)
    {
      ReceiveKeeps(hash, View(), w, e);
      IdsPointToReceipts(View());
      hide Inv, Admitted, OthersSame, Core;
      if w.invalid(e).Some? {
        return Refused(w.invalid(e).value);
      }
      if e.sequence == 0 {
        return Refused("INVALID_CALLBACK_SEQUENCE");
      }
      if w.authority(e).Some? || !w.signed(e) {
        return Refused("CALLBACK_AUTHENTICATION_FAILED");
      }
      if w.rules(e).Some? {
        return Refused(w.rules(e).value);
      }
      if e.id in ids {
        if hash(receipts[ids[e.id]]) != hash(e) {
          return Refused("CALLBACK_ID_CONFLICT");
        }
        return Duplicate(ids[e.id] in applied);
      }
      var expected := Next(View(), e.stream);
      if e.sequence < expected || SlotOf(e) in receipts {
        return Refused("CALLBACK_SEQUENCE_CONFLICT");
      }
      reply := Admit(w, e);
    }

    /** Stores a new receipt and applies it when its turn has come. */
    method Admit(w: World, e: Envelope) returns (reply: Reply)
      requires Inv(View()) && Vacant(View(), e)
      modifies this
      ensures (View(), reply) == Admitted(old(View()), w, e)
    {
      hide Inv, Apply, Drain, OthersSame, Core;
      AddReceipt(View(), e);
      var expected := Next(View(), e.stream);
      receipts, ids, next := receipts[SlotOf(e) := e], ids[e.id := SlotOf(e)], next[e.stream := expected];
      assert View() == Registered(old(View()), e);
      if e.sequence != expected {
        return Buffered(expected);
      }
      var drained, blocked := ApplyAndDrain(w, e);
      return Applied(drained, blocked);
    }

    /** Applies the expected receipt, then buffered ones for as long as they follow and stay authorised. */
    method ApplyAndDrain(w: World, e: Envelope) returns (drained: nat, blocked: Option<string>)
      requires Core(View()) && Due(View(), e)
      modifies this
      ensures (View(), drained, blocked) == Drain(Apply(old(View()), w, e), w, e.stream)
    {
      hide EffectsOf, Core, Apply, Drain, OthersSame, Settled;
      ApplyKeeps(View(), w, e);
      ApplyBeside(View(), View(), w, e);
      ghost var cur := Apply(View(), w, e);
      ghost var whole := Drain(cur, w, e.stream);
      ApplyOne(w, e);
      var nextSequence: nat := e.sequence + 1;
      drained, blocked := 0, None;
      var more := true;
      while more
        invariant View().(next := cur.next) == cur && cur.next == next[e.stream := nextSequence]
        invariant more ==> Core(cur) && Clear(cur, e.stream) && blocked == None
        invariant more ==> whole == var (t, rest, stop) := Drain(cur, w, e.stream); (t, drained + rest, stop)
        invariant !more ==> whole == (cur, drained, blocked)
        decreases more, |receipts.Keys - applied|
      {
        hide Clear;
        ghost var before := cur;
        more, blocked := DrainNext(w, e.stream, nextSequence, cur);
        cur := View().(next := next[e.stream := if more then nextSequence + 1 else nextSequence]);
        if more {
          nextSequence, drained := nextSequence + 1, drained + 1;
        }
      }
      next := next[e.stream := nextSequence];
    }

    /** One turn of the drain; `cur` is the state with the position the loop has reached. */
    method DrainNext(w: World, stream: Stream, position: nat, ghost cur: State) returns (more: bool, blocked: Option<string>)
      requires View().(next := cur.next) == cur && cur.next == next[stream := position]
      requires Core(cur) && Clear(cur, stream)
      modifies this`applied, this`effects, this`confirmations, this`incidents
      ensures more ==>
        && blocked == None && |receipts.Keys - applied| < |old(receipts.Keys - applied)|
        && var u := View().(next := next[stream := position + 1]);
          && Core(u) && Clear(u, stream)
          && Drain(cur, w, stream) == var (t, rest, stop) := Drain(u, w, stream); (t, rest + 1, stop)
      ensures !more ==> Drain(cur, w, stream) == (View().(next := cur.next), 0, blocked)
    {
      hide EffectsOf, Core, Apply, Drain, Clear;
      DrainTurn(cur, w, stream);
      var slot := Slot(stream, position);
      if slot !in receipts || slot in applied {
        return false, None;
      }
      var buffered := receipts[slot];
      blocked := w.authority(buffered);
      if blocked.Some? {
        OpenBlockedStreamIncident(buffered, blocked.value);
        return false, blocked;
      }
      FewerWaiting(receipts.Keys, applied, slot);
      ghost var before := View();
      ApplyOne(w, buffered);
      AppliedView(cur, before, View(), w, buffered, position);
      return true, None;
    }
  }

  /** The receipt at a stream's position, if there is one, has no incident yet. */
  ghost predicate Clear(s: State, stream: Stream) {
    var slot := Slot(stream, Next(s, stream));
    slot in s.receipts ==> s.receipts[slot].id !in s.incidents
  }

  lemma IdsPointToReceipts(s: State)
    requires Inv(s)
    ensures forall id :: id in s.ids ==> s.ids[id] in s.receipts
  {
    hide EffectsOf;
  }

  /** One turn of the drain. */
  lemma DrainTurn(s: State, w: World, stream: Stream)
    requires Core(s) && Clear(s, stream)
    ensures var slot := Slot(stream, Next(s, stream));
      if slot !in s.receipts || slot in s.applied then Drain(s, w, stream) == (s, 0, None)
      else
        var e := s.receipts[slot];
        SlotOf(e) == slot &&
        if w.authority(e).Some? then Drain(s, w, stream) == (OpenBlocked(s, e, w.authority(e).value), 0, w.authority(e))
        else
          && Core(Apply(s, w, e)) && Clear(Apply(s, w, e), stream)
          && Drain(s, w, stream) == var (t, more, stop) := Drain(Apply(s, w, e), w, stream); (t, more + 1, stop)
  {
    hide Core, Apply, OthersSame;
    AtPosition(s, stream);
    var slot := Slot(stream, Next(s, stream));
    if slot in s.receipts && w.authority(s.receipts[slot]).None? {
      ApplyKeeps(s, w, s.receipts[slot]);
    }
  }

  /** The written tables with the next position are the state after the application. */
  lemma AppliedView(cur: State, before: State, after: State, w: World, e: Envelope, position: nat)
    requires before.(next := cur.next) == cur && cur.next == before.next[e.stream := position]
    requires after == Apply(before, w, e).(next := before.next)
    ensures after.(next := after.next[e.stream := position + 1]) == Apply(cur, w, e)
    ensures after.applied == before.applied + {SlotOf(e)} && after.receipts == before.receipts && after.next == before.next
  {
    ApplyBeside(cur, before, w, e);
    hide Apply;
    assert before.next[e.stream := position][e.stream := position + 1] == before.next[e.stream := position + 1];
  }

  /** Applying writes the position and, independently of it, every other table. */
  lemma ApplyBeside(s: State, t: State, w: World, e: Envelope)
    requires s == t.(next := s.next)
    ensures Apply(s, w, e).next == s.next[e.stream := Next(s, e.stream) + 1]
    ensures Apply(t, w, e).(next := t.next) == Apply(s, w, e).(next := t.next)
    ensures Apply(s, w, e).applied == s.applied + {SlotOf(e)} && Apply(s, w, e).receipts == s.receipts
  {
    hide Reconcile, NeedsIncident;
  }
}
