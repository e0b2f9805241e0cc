/** What the tables of the callback service go back to: the one delivery that entered each receipt, and the world behind each incident. */
module CallbackRecords {
  import opened Common
  import opened CallbackStream

  // ----- receipts -----

  lemma {:induction false} DrainReceipts(s: State, w: World, stream: Stream)
    ensures Drain(s, w, stream).0.receipts == s.receipts && Drain(s, w, stream).0.ids == s.ids
    decreases |s.receipts.Keys - s.applied|
  {
    hide Apply;
    var slot := Slot(stream, Next(s, stream));
    if slot in s.receipts && slot !in s.applied && w.authority(s.receipts[slot]).None? && SlotOf(s.receipts[slot]) == slot {
      FewerWaiting(s.receipts.Keys, s.applied, slot);
      ApplySame(s, w, s.receipts[slot]);
      DrainReceipts(Apply(s, w, s.receipts[slot]), w, stream);
    }
  }

  /** The envelope is well-formed, its source may act, it is signed, and it keeps the business rules, all in this world. */
  predicate Genuine(w: World, e: Envelope) {
    w.invalid(e) == None && w.authority(e) == None && w.signed(e) && w.rules(e) == None
  }

  /** The place of an envelope is new: its identifier and slot are free and its stream has not passed it. */
  predicate Fresh(s: State, e: Envelope) {
    e.sequence > 0 && e.id !in s.ids && Slot(e.stream, e.sequence) !in s.receipts && Next(s, e.stream) <= e.sequence
  }

  /** A delivery enters exactly a genuine envelope in a new place, as it is. */
  lemma DeliveryEnters(hash: Hash, s: State, w: World, e: Envelope)
    ensures var t := Received(hash, s, w, e).0;
      if Genuine(w, e) && Fresh(s, e) then
        t.receipts == s.receipts[Slot(e.stream, e.sequence) := e] && t.ids == s.ids[e.id := Slot(e.stream, e.sequence)]
      else t == s
  {
    hide Apply, Drain;
    var u := Registered(s, e);
    ApplySame(u, w, e);
    DrainReceipts(Apply(u, w, e), w, e.stream);
  }

  /** The delivery at position i entered the receipt. */
  ghost predicate EnteredAt(hash: Hash, deliveries: seq<Delivery>, i: nat, slot: Slot, e: Envelope) {
    && i < |deliveries| && deliveries[i].envelope == e && slot == Slot(e.stream, e.sequence)
    && Genuine(deliveries[i].world, e) && Fresh(RunFrom(hash, INITIAL, deliveries[..i]), e)
  }

  /**
   In every run each stored callback was entered once, by the delivery of that very
   envelope, and was well-formed, authorised, signed and within the rules in the world
   of that delivery. So nothing unsigned is ever stored, applied or moves a stream.
   */
  lemma {:induction false} EnteredGenuine(hash: Hash, deliveries: seq<Delivery>, slot: Slot)
    requires slot in RunFrom(hash, INITIAL, deliveries).receipts
    ensures exists i: nat :: EnteredAt(hash, deliveries, i, slot, RunFrom(hash, INITIAL, deliveries).receipts[slot])
  {
    hide Received, Genuine, Fresh;
    var m := |deliveries| - 1;
    var front, last := deliveries[..m], deliveries[m];
    var s, e := RunFrom(hash, INITIAL, front), RunFrom(hash, INITIAL, deliveries).receipts[slot];
    DeliveryEnters(hash, s, last.world, last.envelope);
    if slot in s.receipts && s.receipts[slot] == e {
      EnteredGenuine(hash, front, slot);
      var i: nat :| EnteredAt(hash, front, i, slot, e);
      assert front[..i] == deliveries[..i];
      assert EnteredAt(hash, deliveries, i, slot, e);
    } else {
      assert EnteredAt(hash, deliveries, m, slot, e);
    }
  }

  // ----- outcomes -----

  /** A delivery that is not genuine is refused and leaves every table as it was. */
  lemma ForgeryRefused(hash: Hash, s: State, w: World, e: Envelope)
    requires !Genuine(w, e)
    ensures Received(hash, s, w, e).0 == s && Received(hash, s, w, e).1.Refused?
    ensures w.invalid(e) == None && e.sequence > 0 && (w.authority(e) != None || !w.signed(e)) ==>
      Received(hash, s, w, e).1 == Refused("CALLBACK_AUTHENTICATION_FAILED")
  {
  }

  /**
   What a genuine delivery does. A known identifier is a duplicate of the same content or
   a conflict; a taken or passed place is a conflict; neither writes anything. A new one
   waits with the position it waits for, or is applied with those that followed it.
   */
  lemma GenuineOutcome(hash: Hash, s: State, w: World, e: Envelope)
    requires Inv(s) && Genuine(w, e) && e.sequence > 0
    ensures var (t, reply) := Received(hash, s, w, e);
      if e.id in s.ids then
        && s.ids[e.id] in s.receipts && t == s
        && reply == if hash(s.receipts[s.ids[e.id]]) == hash(e) then Duplicate(s.ids[e.id] in s.applied) else Refused("CALLBACK_ID_CONFLICT")
      else if !Fresh(s, e) then t == s && reply == Refused("CALLBACK_SEQUENCE_CONFLICT")
      else if e.sequence != Next(s, e.stream) then
        reply == Buffered(Next(s, e.stream)) && t.applied == s.applied && t.effects == s.effects && t.incidents == s.incidents
      else
        && reply.Applied? && Next(t, e.stream) == Next(s, e.stream) + 1 + reply.drained
        && (reply.blocked.None? <==> Slot(e.stream, Next(t, e.stream)) !in t.receipts)
        && (reply.blocked.Some? ==> reply.blocked == w.authority(t.receipts[Slot(e.stream, Next(t, e.stream))]))
  {
    IdsPointToReceipts(s);
    hide Drain, Apply, Core, Settled, OthersSame;
    if e.id !in s.ids && Fresh(s, e) && e.sequence == Next(s, e.stream) {
      var u := Registered(s, e);
      AddReceipt(s, e);
      ApplyKeeps(u, w, e);
      DrainKeeps(Apply(u, w, e), w, e.stream);
      DrainBlocked(Apply(u, w, e), w, e.stream);
    }
  }

  /** A blocked drain names the reason why the receipt it stopped at may not be applied. */
  lemma {:induction false} DrainBlocked(s: State, w: World, stream: Stream)
    requires Core(s) && Clear(s, stream)
    ensures var (t, drained, blocked) := Drain(s, w, stream);
      blocked.Some? ==> Slot(stream, Next(t, stream)) in t.receipts && blocked == w.authority(t.receipts[Slot(stream, Next(t, stream))])
    decreases |s.receipts.Keys - s.applied|
  {
    hide Core, Apply, Drain, Clear;
    DrainTurn(s, w, stream);
    var slot := Slot(stream, Next(s, stream));
    if slot in s.receipts && slot !in s.applied {
      var e := s.receipts[slot];
      if w.authority(e).None? {
        FewerWaiting(s.receipts.Keys, s.applied, slot);
        ApplySame(s, w, e);
        DrainBlocked(Apply(s, w, e), w, stream);
      }
    }
  }

  // ----- incidents -----

  /** The channel and outcome an incident without a mismatch names. */
  function Named(c: Channel, o: Outcome): string {
    var channel := match c case REGISTER => "EXTERNAL_REGISTER_" case CASH => "EXTERNAL_CASH_" case CUSTODY => "EXTERNAL_CUSTODY_";
    var outcome := match o case CONFIRMED => "CONFIRMED" case REJECTED => "REJECTED" case PERMANENT_FAILURE => "PERMANENT_FAILURE";
    channel + outcome
  }

  /**
   The incident tells why: an applied callback's mismatch or else its channel and outcome,
   critical exactly for a permanent failure, or the reason this world gives against the
   receipt that blocks.
   */
  predicate Tells(w: World, s: State, id: string) {
    && id in s.incidents && id in s.ids && s.ids[id] in s.receipts && s.receipts[s.ids[id]].id == id
    && var e := s.receipts[s.ids[id]];
      match s.incidents[id]
      case External(critical, reason) =>
        && id in s.confirmations && (critical <==> e.outcome == PERMANENT_FAILURE)
        && reason == (if s.confirmations[id].Mismatch? then s.confirmations[id].reason else Named(e.stream.channel, e.outcome))
      case BlockedStream(reason) => w.authority(e).Some? && reason == "BUFFERED_CALLBACK_" + w.authority(e).value
  }

  /** Incidents of t were there before, as they are, or tell this world's reason. */
  ghost predicate IncidentsFrom(w: World, s: State, t: State) {
    && (forall id :: id in s.incidents ==> id in t.incidents && t.incidents[id] == s.incidents[id])
    && (forall id :: id in t.incidents && id !in s.incidents ==> Tells(w, t, id))
  }

  /** What later steps of the same delivery, or any later delivery, leave of what an incident tells. */
  ghost predicate Keeps(s: State, t: State) {
    && (forall id :: id in s.incidents ==> id in t.incidents && t.incidents[id] == s.incidents[id])
    && (forall id :: id in s.ids ==> id in t.ids && t.ids[id] == s.ids[id])
    && (forall slot :: slot in s.receipts ==> slot in t.receipts && t.receipts[slot] == s.receipts[slot])
    && (forall id :: id in s.confirmations ==> id in t.confirmations && t.confirmations[id] == s.confirmations[id])
  }

  lemma TellsStill(w: World, s: State, t: State, id: string)
    requires Tells(w, s, id) && Keeps(s, t)
    ensures Tells(w, t, id)
  {
    hide Named;
  }

  lemma IncidentsChain(w: World, s: State, t: State, u: State)
    requires IncidentsFrom(w, s, t) && IncidentsFrom(w, t, u) && Keeps(t, u)
    ensures IncidentsFrom(w, s, u)
  {
    hide Tells;
    forall id | id in u.incidents && id !in s.incidents ensures Tells(w, u, id) {
      if id in t.incidents {
        TellsStill(w, t, u, id);
      }
    }
  }

  lemma KeepsChain(s: State, t: State, u: State)
    requires Keeps(s, t) && Keeps(t, u)
    ensures Keeps(s, u)
  {
  }

  lemma NothingTold(w: World, s: State, t: State)
    requires t.incidents == s.incidents
    ensures IncidentsFrom(w, s, t)
  {
  }

  lemma TextIsNamed(c: Channel, o: Outcome)
    ensures "EXTERNAL_" + ChannelText(c) + "_" + OutcomeText(o) == Named(c, o)
  {
    assert "EXTERNAL_" + "REGISTER" + "_" == "EXTERNAL_REGISTER_";
    assert "EXTERNAL_" + "CASH" + "_" == "EXTERNAL_CASH_";
    assert "EXTERNAL_" + "CUSTODY" + "_" == "EXTERNAL_CUSTODY_";
  }

  lemma ApplyIncidents(s: State, w: World, e: Envelope)
    requires Core(s) && Due(s, e)
    ensures IncidentsFrom(w, s, Apply(s, w, e)) && Keeps(s, Apply(s, w, e))
  {
    TextIsNamed(e.stream.channel, e.outcome);
    hide Reconcile, EffectsOf, Logged, ChannelText, OutcomeText, Named;
    assert s.ids[e.id] == SlotOf(e) && SlotOf(e) !in s.applied && e.id !in s.confirmations;
  }

  lemma BlockIncidents(s: State, w: World, e: Envelope)
    requires Core(s) && Due(s, e) && w.authority(e).Some?
    ensures var t := OpenBlocked(s, e, w.authority(e).value); IncidentsFrom(w, s, t) && Keeps(s, t)
  {
    hide EffectsOf, Logged, Watched, AppliedBelow;
    assert s.ids[e.id] == SlotOf(e);
  }

  lemma {:induction false} DrainIncidents(s: State, w: World, stream: Stream)
    requires Core(s) && Clear(s, stream)
    ensures IncidentsFrom(w, s, Drain(s, w, stream).0) && Keeps(s, Drain(s, w, stream).0)
    decreases |s.receipts.Keys - s.applied|
  {
    hide Core, Apply, Drain, IncidentsFrom, Clear;
    DrainTurn(s, w, stream);
    NothingTold(w, s, s);
    var slot := Slot(stream, Next(s, stream));
    if slot in s.receipts && slot !in s.applied {
      var e := s.receipts[slot];
      ClearIsDue(s, stream);
      hide Keeps;
      if w.authority(e).None? {
        FewerWaiting(s.receipts.Keys, s.applied, slot);
        ApplySame(s, w, e);
        ApplyIncidents(s, w, e);
        DrainIncidents(Apply(s, w, e), w, stream);
        IncidentsChain(w, s, Apply(s, w, e), Drain(s, w, stream).0);
        KeepsChain(s, Apply(s, w, e), Drain(s, w, stream).0);
      } else {
        BlockIncidents(s, w, e);
      }
    }
  }

  lemma RegisterIncidents(s: State, w: World, e: Envelope)
    requires e.id !in s.ids && SlotOf(e) !in s.receipts
    ensures IncidentsFrom(w, s, Registered(s, e)) && Keeps(s, Registered(s, e))
  {
  }

  lemma ReceiveIncidents(hash: Hash, s: State, w: World, e: Envelope)
    requires Inv(s)
    ensures IncidentsFrom(w, s, Received(hash, s, w, e).0) && Keeps(s, Received(hash, s, w, e).0)
  {
    hide Drain, Apply, Core, Settled, IncidentsFrom, OthersSame;
    var (t, reply) := Received(hash, s, w, e);
    NothingTold(w, s, s);
    if !reply.Refused? && !reply.Duplicate? {
      AddReceipt(s, e);
      var u := Registered(s, e);
      RegisterIncidents(s, w, e);
      hide Keeps;
      if e.sequence == Next(s, e.stream) {
        ApplyKeeps(u, w, e);
        ApplyIncidents(u, w, e);
        IncidentsChain(w, s, u, Apply(u, w, e));
        KeepsChain(s, u, Apply(u, w, e));
        DrainIncidents(Apply(u, w, e), w, e.stream);
        IncidentsChain(w, s, Apply(u, w, e), t);
        KeepsChain(s, Apply(u, w, e), t);
      }
    }
  }

  /** The delivery at position i opened the incident, which tells that delivery's reason. */
  ghost predicate OpenedAt(hash: Hash, deliveries: seq<Delivery>, i: nat, id: string) {
    && i < |deliveries| && id !in RunFrom(hash, INITIAL, deliveries[..i]).incidents
    && Tells(deliveries[i].world, RunFrom(hash, INITIAL, deliveries), id)
  }

  /** In every run each incident was opened by one delivery and tells what was wrong in that delivery's world, for good. */
  lemma {:induction false} IncidentsTellWhy(hash: Hash, deliveries: seq<Delivery>, id: string)
    requires id in RunFrom(hash, INITIAL, deliveries).incidents
    ensures exists i: nat :: OpenedAt(hash, deliveries, i, id)
  {
    hide Received, Inv, Tells;
    var m := |deliveries| - 1;
    var front, last := deliveries[..m], deliveries[m];
    var s := RunFrom(hash, INITIAL, front);
    InitialInv();
    RunKeeps(hash, INITIAL, front);
    ReceiveIncidents(hash, s, last.world, last.envelope);
    if id in s.incidents {
      IncidentsTellWhy(hash, front, id);
      var i: nat :| OpenedAt(hash, front, i, id);
      assert front[..i] == deliveries[..i];
      TellsStill(deliveries[i].world, s, RunFrom(hash, INITIAL, deliveries), id);
      assert OpenedAt(hash, deliveries, i, id);
    } else {
      assert OpenedAt(hash, deliveries, m, id);
    }
  }

  // ----- confirmations -----

  /** The comparison recorded for a callback, read off what the world shows: matched exactly when all agrees, otherwise naming a real difference. */
  predicate Compared(w: World, e: Envelope, c: Reconciliation) {
    var f := w.facts(e);
    && (c == NotApplicable <==> e.stream.channel == CUSTODY)
    && (c == FullyMatched <==> e.stream.channel != CUSTODY && Agrees(w, e))
    && (c.Mismatch? && f.transaction == None ==> c.reason == "UNKNOWN_TRANSACTION")
    && (c.Mismatch? && f.transaction.Some? && f.transaction.value != (w.tenant, e.stream.product) ==> c.reason == "TRANSACTION_CONTEXT_MISMATCH")
    && (c.Mismatch? && f.transaction == Some((w.tenant, e.stream.product)) ==> c.reason == Difference(f, e))
  }

  /** The first thing that differs, the asset or currency before the committed amounts. */
  function Difference(f: Facts, e: Envelope): string {
    match e.stream.channel
    case REGISTER =>
      if e.asset != "UNIT:" + e.stream.product then "ASSET_MISMATCH" else if !f.committed then "MISSING_ECONOMIC_COMMITMENT" else "UNITS_COMMITMENT_MISMATCH"
    case _ =>
      if e.currency != f.currency then "CURRENCY_MISMATCH" else if !f.committed then "MISSING_ECONOMIC_COMMITMENT" else "CASH_COMMITMENT_MISMATCH"
  }

  /** The delivery at position i applied the callback, and its record is what that delivery's world showed. */
  ghost predicate ComparedAt(hash: Hash, deliveries: seq<Delivery>, i: nat, slot: Slot) {
    var s := RunFrom(hash, INITIAL, deliveries);
    && i < |deliveries| && slot !in RunFrom(hash, INITIAL, deliveries[..i]).applied && slot in RunFrom(hash, INITIAL, deliveries[..i + 1]).applied
    && slot in s.receipts && s.receipts[slot].id in s.confirmations
    && Compared(deliveries[i].world, s.receipts[slot], s.confirmations[s.receipts[slot].id])
  }

  /**
   In every run each applied callback keeps the comparison made by the one delivery that
   applied it: matched exactly when the transaction was its tenant's and product's, its
   currency or asset was right and every committed amount opened, and otherwise the first
   difference by name.
   */
  lemma ConfirmationsTell(hash: Hash, deliveries: seq<Delivery>, slot: Slot)
    requires slot in RunFrom(hash, INITIAL, deliveries).applied
    ensures exists i: nat :: ComparedAt(hash, deliveries, i, slot)
  {
    AppliedBySome(hash, deliveries, slot);
    var i: nat :| AppliedBy(hash, deliveries, i, slot);
    hide RunFrom;
    var e := RunFrom(hash, INITIAL, deliveries).receipts[slot];
    assert Compared(deliveries[i].world, e, Reconcile(deliveries[i].world, e));
    assert ComparedAt(hash, deliveries, i, slot);
  }
}
