/** How evidence enters the history and why it stays: used by the engine's proofs only. */
module LifecycleEvidence {
  import opened Outcomes
  import opened Amounts
  import opened VenueRecords
  import opened LifecycleLog
  import opened LifecycleWorld
  import opened LifecyclePorts
  import opened EntrySettlement

  lemma SeenStays(plan: Plan, a: seq<Event>, b: seq<Event>)
    requires a <= b
    ensures EntrySeenGone(plan, a) ==> EntrySeenGone(plan, b)
    ensures forall id :: WasPrepared(a, id) ==> WasPrepared(b, id)
  {
  }

  lemma WindowStays(plan: Plan, a: seq<Event>, b: seq<Event>)
    requires a <= b
    ensures InWindow(plan, a) ==> InWindow(plan, b)
    ensures forall now :: Clocked(now) in a ==> Clocked(now) in b
  {
  }

  lemma HeldStays(plan: Plan, a: seq<Event>, b: seq<Event>, t: Trade)
    requires a <= b && HeldTooLong(plan, a, t)
    ensures HeldTooLong(plan, b, t)
  {
  }

  lemma StopArmedStays(plan: Plan, a: seq<Event>, b: seq<Event>)
    requires a <= b && StopArmed(plan, a)
    ensures StopArmed(plan, b)
  {
  }

  lemma ExitFillStays(plan: Plan, a: seq<Event>, b: seq<Event>, held: real)
    requires a <= b && ExitFillSeen(plan, a, held)
    ensures ExitFillSeen(plan, b, held)
  {
  }

  /** The account was read like this, and nothing since made the read stale. */
  ghost predicate StillCounts(log: seq<Event>, view: Snapshot) {
    exists i :: FreshFrom(log) <= i < |log| && log[i] == Observed(view)
  }

  /** A position that was read is a fill that was seen. */
  lemma ReadShowsFill(plan: Plan, log: seq<Event>, view: Snapshot, filled: real)
    requires StillCounts(log, view) && ShowsFill(plan, view, filled)
    ensures FillShown(plan, log, filled)
  {
    hide ShowsFill;
    var i :| FreshFrom(log) <= i < |log| && log[i] == Observed(view);
    assert log[i].Observed? && ShowsFill(plan, log[i].view, filled);
  }

  /** An entry record that was read is known. */
  lemma ReadShowsEntry(plan: Plan, log: seq<Event>, view: Snapshot, o: OrderRecord)
    requires StillCounts(log, view) && (o in view.orders || o in view.history)
    ensures EntryShown(plan, log, o)
  {
    var i :| FreshFrom(log) <= i < |log| && log[i] == Observed(view);
    assert log[i].Observed? && (o in log[i].view.orders || o in log[i].view.history);
  }

  /** What a known entry record says about the fill. */
  lemma EntryDecides(plan: Plan, log: seq<Event>, o: OrderRecord)
    requires EntryShown(plan, log, o) && ValidateEntry(plan, o).Done?
    ensures FillShown(plan, log, ValidateEntry(plan, o).value.filled)
    ensures ValidateEntry(plan, o).value.filled <= 0.0 && TerminalOrder(o.status) ==> UnfilledShown(plan, log)
  {
    hide EntryShown, ValidateEntry;
  }

  lemma EntryShownStays(a: World, b: World, o: OrderRecord)
    requires EntryShown(a.plan, a.log, o) && Calm(a, b)
    ensures EntryShown(b.plan, b.log, o)
  {
    if exists i :: 0 <= i < |a.log| && IsAnswer(a.log[i], o) {
      var i :| 0 <= i < |a.log| && IsAnswer(a.log[i], o);
      assert IsAnswer(b.log[i], o);
    } else if exists z :: FreshFrom(a.log) <= z < |a.log| && a.log[z].Observed?
                       && (o in a.log[z].view.orders || o in a.log[z].view.history) {
      var z :| FreshFrom(a.log) <= z < |a.log| && a.log[z].Observed?
            && (o in a.log[z].view.orders || o in a.log[z].view.history);
      assert b.log[z] == a.log[z];
    } else {
      var i, z :| 0 <= i < |a.log| && FreshFrom(a.log) <= z < |a.log| && ShowsNothing(a.plan, a.log[z])
               && IsOutcome(a.log[i], PlaceEntry) && a.log[i].payload.OrderPayload?
               && o == a.log[i].payload.order.(status := CANCELED);
      assert b.log[i] == a.log[i] && b.log[z] == a.log[z];
    }
  }

  /** The placement was answered with this record. */
  ghost predicate EntryAnswered(log: seq<Event>, o: OrderRecord) {
    exists i :: 0 <= i < |log| && IsAnswer(log[i], o)
  }

  lemma AnsweredStays(a: seq<Event>, b: seq<Event>, o: OrderRecord)
    requires EntryAnswered(a, o) && a <= b
    ensures EntryAnswered(b, o)
  {
    var i :| 0 <= i < |a| && IsAnswer(a[i], o);
    assert b[i] == a[i];
  }

  /** What the journal holds as the answer to the placement is on record. */
  lemma JournalAnswers(w: World)
    requires Inv(w) && PlaceEntry in w.effects && w.effects[PlaceEntry].payload.Some?
    ensures w.effects[PlaceEntry].payload.value.OrderPayload? ==>
              EntryAnswered(w.log, w.effects[PlaceEntry].payload.value.order)
    ensures w.effects[PlaceEntry].payload.value == AbsentAndFlat ==> UnfilledShown(w.plan, w.log)
  {
    var i := OutcomeIsLogged(w.log, PlaceEntry);
  }

  lemma AnswerIsShown(plan: Plan, log: seq<Event>, o: OrderRecord)
    requires EntryAnswered(log, o)
    ensures EntryShown(plan, log, o)
  {
  }

  /** A faulted await is neither a read nor a call. */
  lemma CountFaults()
    ensures forall log, call {:trigger log + [Faulted(call)]} ::
      Reads(log + [Faulted(call)]) == Reads(log) && Sends(log + [Faulted(call)]) == Sends(log)
  {
    forall log: seq<Event>, call {:trigger log + [Faulted(call)]}
      ensures Reads(log + [Faulted(call)]) == Reads(log) && Sends(log + [Faulted(call)]) == Sends(log)
    {
      CountAppend(log, Faulted(call));
    }
  }

  /** The response time of an answer read off the clock dates its fill. */
  lemma ReadingDates(plan: Plan, log: seq<Event>, stamps: seq<int>, fallback: int, observed: int)
    requires Clocked(observed) in log && ResponseTime(stamps, fallback, observed, plan.eligibleAt).Done?
    requires plan.eligibleAt - TIMESTAMP_SKEW <= fallback || fallback == observed
    ensures DateShown(plan, log, ResponseTime(stamps, fallback, observed, plan.eligibleAt).value)
    ensures
      plan.eligibleAt - TIMESTAMP_SKEW <= observed ==>
        plan.eligibleAt - TIMESTAMP_SKEW <= ResponseTime(stamps, fallback, observed, plan.eligibleAt).value <= observed
  {
    hide ResponseTime;
    var i :| 0 <= i < |log| && log[i] == Clocked(observed);
    if plan.eligibleAt - TIMESTAMP_SKEW <= observed {
      ResponseTimeBounds(stamps, fallback, observed, plan.eligibleAt);
    }
  }

  /** The position in this view, and the entry record behind it, can be taken as the trade's fill. */
  predicate FillReadable(plan: Plan, t: Trade, view: Snapshot) {
    && FillSource(plan, view).Done? && PositionForTrade(plan, view).Done?
    && t.filled - plan.Slack() <= PositionForTrade(plan, view).value
  }

  /** The last recorded outcome of the placement is what the journal holds. */
  lemma PlacementOutcome(w: World)
    requires Inv(w)
    ensures LastOutcome(w.log, PlaceEntry) == if PlaceEntry in w.effects then w.effects[PlaceEntry].payload else None
  {
  }

  /** The record that settled the entry is known. */
  lemma SettledIsShown(plan: Plan, log: seq<Event>, acknowledged: OrderRecord, o: OrderRecord)
    requires EntryAnswered(log, acknowledged) && |log| > 0 && log[|log| - 1].Observed?
    requires SettledBy(plan, log[|log| - 1].view, acknowledged, o)
    ensures EntryShown(plan, log, o)
  {
    hide PositionForTrade, FindOrder;
    var view := log[|log| - 1].view;
    assert StillCounts(log, view);
    if CoversPosition(plan, view, o) || UnfilledAndFlat(plan, view, o) {
      ReadShowsEntry(plan, log, view, o);
    } else {
      var i :| 0 <= i < |log| && IsAnswer(log[i], acknowledged);
      assert ShowsNothing(plan, log[|log| - 1]);
    }
  }

  /** A fresh account read becomes evidence. */
  lemma JustSeen(plan: Plan, log: seq<Event>, view: Snapshot, t: Trade)
    ensures FreshFrom(log + [Observed(view)]) == FreshFrom(log) && LastRead(log + [Observed(view)]) == Some(view)
    ensures StillCounts(log + [Observed(view)], view)
    ensures PositionQuantity(plan, view.positions) == Done(0.0) ==> ZeroSeen(plan, log + [Observed(view)])
    ensures FindOrder(view, plan.EntryId()) == Done(None) ==> EntrySeenGone(plan, log + [Observed(view)])
  {
  }

  lemma JustArmed(plan: Plan, log: seq<Event>, record: TpslRecord, e: Event)
    requires ValidTpsl(plan, StopLeg, record, true, false)
    requires e == Reconciled(Create(StopLeg), TpslPayload(record.id))
    ensures StopArmed(plan, log + [ReadBack(record)] + [e])
  {
    var longer := log + [ReadBack(record)] + [e];
    assert longer[|log|] == ReadBack(record) && longer[|log| + 1] == e;
  }

  /** With no listing of a born entry order, the entry order is closed for good. */
  lemma UnlistedMeansClosed(plan: Plan, view: Snapshot, truth: Truth)
    requires Faithful(plan, view, truth) && Born(truth.entry) && FindOrder(view, plan.EntryId()) == Done(None)
    ensures truth.entry == Closed
  {
  }

  /** A protective order that is known to the venue and absent from its listing, or listed as not
      live, is gone for good. */
  lemma NotLiveMeansGone(plan: Plan, view: Snapshot, truth: Truth, leg: Leg, id: TpslId)
    requires Faithful(plan, view, truth) && IsId(truth.Of(leg), id)
    requires FindTpslById(view, Some(id)).Done?
    requires var found := FindTpslById(view, Some(id)).value;
             if found.Some? then !LiveTpsl(found.value) else Indexed(truth.Of(leg))
    ensures truth.Of(leg) == Gone(id)
  {
  }

  /** Streamed events that report a recorded leg as fired are about a leg that is gone. */
  predicate EventsSettled(t: Trade, events: seq<TpslRecord>, truth: Truth) {
    && (t.stopId.Some? && (exists e :: e in events && TriggeredTpsl(e) && e.id == t.stopId) ==> truth.stop.Gone?)
    && (t.targetId.Some? && (exists e :: e in events && TriggeredTpsl(e) && e.id == t.targetId) ==> truth.target.Gone?)
  }

  /** An account read that lists a recorded leg as not live is about a leg that is gone. */
  predicate ListingSettled(t: Trade, rows: seq<TpslRecord>, truth: Truth) {
    && (t.stopId.Some? && (exists e :: e in rows && !LiveTpsl(e) && e.id == t.stopId) ==> truth.stop.Gone?)
    && (t.targetId.Some? && (exists e :: e in rows && !LiveTpsl(e) && e.id == t.targetId) ==> truth.target.Gone?)
  }

  lemma ReadSettles(w: World, view: Snapshot)
    requires Inv(w) && Faithful(w.plan, view, w.truth)
    ensures ListingSettled(w.trade, view.tpsl, w.truth)
  {
    LegFacts(w, StopLeg);
    LegFacts(w, TargetLeg);
  }

  lemma DrainSettles(w: World, events: seq<TpslRecord>)
    requires Inv(w) && EventsFaithful(events, w.truth)
    ensures EventsSettled(w.trade, events, w.truth)
  {
  }

  /** A fired protective order is gone for good. */
  lemma TriggerMeansGone(plan: Plan, view: Snapshot, events: seq<TpslRecord>, truth: Truth, t: Trade)
    requires ListingSettled(t, view.tpsl, truth) && EventsSettled(t, events, truth)
    requires ProvenTrigger(plan, view, events, t.stopId, t.targetId, t.filled).Done?
    requires ProvenTrigger(plan, view, events, t.stopId, t.targetId, t.filled).value.Some?
    ensures
      var leg := ProvenTrigger(plan, view, events, t.stopId, t.targetId, t.filled).value.value.leg;
      t.LegId(leg).Some? && truth.Of(leg).Gone?
  {
  }

  // ------------------------------------------------- facts from the invariant

  /** What the invariant says about one protective order. */
  lemma LegFacts(w: World, leg: Leg)
    requires Inv(w)
    ensures LegOk(w, leg)
  {
  }

  lemma CancelSettled(w: World, leg: Leg)
    requires Inv(w) && CancelLeg(leg) in w.effects && Settled(w.effects[CancelLeg(leg)].status)
    ensures Indexed(w.truth.Of(leg))
  {
    LegFacts(w, leg);
  }

  /** A recorded leg identity is the one the venue gave the order this trade created. */
  lemma IdFacts(w: World, leg: Leg)
    requires Inv(w)
    ensures w.trade.LegId(leg).Some? ==> IsId(w.truth.Of(leg), w.trade.LegId(leg).value) && Create(leg) in w.effects
  {
    LegFacts(w, leg);
  }

  lemma RowFacts(w: World)
    requires Inv(w)
    ensures w.plan.quantity > 0.0 && RowOk(w.plan, w.trade) && Row(w.log) == w.trade
    ensures w.trade.filled > 0.0 ==> Born(w.truth.entry)
    ensures w.trade.stopId.Some? ==> IsId(w.truth.stop, w.trade.stopId.value)
    ensures w.trade.targetId.Some? ==> IsId(w.truth.target, w.trade.targetId.value)
  {
  }

  /** The fill time of a transition is still on the row at any later point. */
  lemma FillTimeStays(before: seq<Event>, from: Trade, t: Trade, w: World)
    requires Inv(w) && before + [Moved(from, t)] <= w.log && t.firstFill.Some?
    ensures w.trade.firstFill == t.firstFill
  {
    assert w.log[|before|] == (before + [Moved(from, t)])[|before|];
    RowsOnlyAdvance(w.plan, w.log, |before|);
  }

  /** The fill was observed at `observed` and is dated inside the window that observation allows. */
  predicate FillDated(plan: Plan, t: Trade, observed: int) {
    plan.eligibleAt - TIMESTAMP_SKEW <= observed ==>
      t.firstFill.Some? && plan.eligibleAt - TIMESTAMP_SKEW <= t.firstFill.value <= observed
  }

  lemma CloseFacts(w: World, exit: ManualExit)
    requires Inv(w)
    ensures ClosePosition(exit) in w.effects ==>
      && w.truth.entry == Closed
      && w.effects[ClosePosition(exit)].request.CloseRequest?
      && EntrySeenGone(w.plan, w.log)
    ensures w.trade.state in {PROTECTING, ACTIVE} ==> ClosePosition(exit) !in w.effects
  {
    if ClosePosition(exit) in w.effects {
      JournalHasPrepared(w.effects, w.log, ClosePosition(exit));
      CloseOnlyAfterEntryGone(w.plan, w.log, exit);
    }
  }

  /** What the journal holds about a close is what its row says. */
  lemma ClosePayloadIsEvidence(w: World, exit: ManualExit, client: OrderId, quantity: real)
    requires Inv(w)
    ensures FillRecorded(w.log, exit, client, quantity) <==>
      && ClosePosition(exit) in w.effects
      && match w.effects[ClosePosition(exit)].payload
         case Some(OrderPayload(o)) => FilledInFull(o, client, quantity)
         case _ => false
  {
    hide FilledInFull;
    assert LastOutcome(w.log, ClosePosition(exit))
        == if ClosePosition(exit) in w.effects then w.effects[ClosePosition(exit)].payload else None;
  }

  /** What this account read decides about the close of the trade. */
  ghost predicate WonHere(w: World, view: Snapshot, exit: ManualExit)
    requires ClosePosition(exit) in w.effects
  {
    && w.trade.closeClient.Some? && w.effects[ClosePosition(exit)].request.CloseRequest?
    && var client, quantity := w.trade.closeClient.value, w.effects[ClosePosition(exit)].request.quantity;
       WonOn(w.plan, view, w.trade, FillRecorded(w.log, exit, client, quantity), client, quantity)
  }

  /** With the close in place and the position seen gone, the next account read decides. */
  lemma Judged(plan: Plan, log: seq<Event>, view: Snapshot, t: Trade, exit: ManualExit, quantity: real)
    requires ZeroSeen(plan, log) && t.closeClient.Some?
    requires WonOn(plan, view, t, FillRecorded(log, exit, t.closeClient.value, quantity), t.closeClient.value, quantity)
    ensures CloseWon(plan, log + [Observed(view)], t, exit, quantity)
  {
    hide WonOn, PositionQuantity;
    var longer := log + [Observed(view)];
    RowAppend(log, Observed(view));
    OutcomeAppend(log, Observed(view));
    var z :| FreshFrom(log) <= z < |log| && log[z].Observed? && PositionQuantity(plan, log[z].view.positions) == Done(0.0);
    assert longer[z] == log[z] && longer[|log|] == Observed(view);
  }

  /** What the venue's own progress keeps about one protective order. */
  lemma EvolvesKeeps(a: Truth, b: Truth, leg: Leg)
    requires Evolves(a, b)
    ensures Indexed(a.Of(leg)) ==> Indexed(b.Of(leg))
    ensures a.Of(leg).Gone? ==> b.Of(leg) == a.Of(leg)
    ensures a.Of(leg).NotSent? ==> b.Of(leg).NotSent?
    ensures forall id :: IsId(a.Of(leg), id) ==> IsId(b.Of(leg), id)
    ensures a.entry == Closed ==> b.entry == Closed
    ensures a.entry != InFlight ==> b.entry != InFlight
  {
  }

  /** Calls that create nothing leave the venue's truth as it was. */
  lemma CancelIssuesNothing(truth: Truth, id: EffectId)
    requires id == CancelEntry || id.CancelLeg? || id.ClosePosition?
    ensures Issued(truth, id) == truth
  {
  }

  /** Evidence survives any calm stretch of history. */
  lemma CalmKeepsEvidence(a: World, b: World)
    requires Calm(a, b)
    ensures a.plan == b.plan && a.trade == b.trade
    ensures EntrySeenGone(a.plan, a.log) ==> EntrySeenGone(b.plan, b.log)
    ensures ZeroSeen(a.plan, a.log) ==> ZeroSeen(b.plan, b.log)
  {
  }

  lemma ClosedStays(a: World, b: World)
    requires Advances(a, b) && a.truth.entry == Closed
    ensures b.truth.entry == Closed
  {
  }

  /** Journal rows stay, and so do their outcomes. */
  lemma OutcomeStays(a: World, b: World, id: EffectId)
    requires Advances(a, b) && id in a.effects
    ensures id in b.effects && (Settled(a.effects[id].status) ==> Settled(b.effects[id].status))
  {
  }

  lemma CalmSameClose(a: World, b: World, exit: ManualExit)
    requires Calm(a, b)
    ensures ClosePosition(exit) in a.effects <==> ClosePosition(exit) in b.effects
    ensures ClosePosition(exit) in a.effects ==> a.effects[ClosePosition(exit)] == b.effects[ClosePosition(exit)]
  {
  }

  lemma CalmSameCloses(a: World, b: World)
    requires Calm(a, b)
    ensures forall exit :: ClosePosition(exit) in a.effects <==> ClosePosition(exit) in b.effects
  {
  }

  lemma CalmKeepsClose(a: World, b: World, exit: ManualExit, quantity: real)
    requires Inv(a) && Inv(b) && Calm(a, b) && CloseWon(a.plan, a.log, a.trade, exit, quantity)
    ensures CloseWon(b.plan, b.log, b.trade, exit, quantity)
  {
    var client := a.trade.closeClient.value;
    ClosePayloadIsEvidence(a, exit, client, quantity);
    ClosePayloadIsEvidence(b, exit, client, quantity);
    assert FillRecorded(a.log, exit, client, quantity) == FillRecorded(b.log, exit, client, quantity);
    hide Inv, WonOn, FillRecorded, PositionQuantity;
    var z, s :| FreshFrom(a.log) <= z < s < |a.log| && a.log[z].Observed? && a.log[s].Observed?
             && PositionQuantity(a.plan, a.log[z].view.positions) == Done(0.0)
             && WonOn(a.plan, a.log[s].view, a.trade, FillRecorded(a.log, exit, client, quantity), client, quantity);
    assert b.log[z] == a.log[z] && b.log[s] == a.log[s];
  }

  lemma ClosePrepared(w: World, exit: ManualExit)
    requires Inv(w) && ClosePosition(exit) in w.effects
    ensures w.effects[ClosePosition(exit)].request.CloseRequest?
    ensures forall q :: Prepared(ClosePosition(exit), CloseRequest(q)) in w.log <==>
              q == w.effects[ClosePosition(exit)].request.quantity
  {
    CloseFacts(w, exit);
    JournalFacts(w, ClosePosition(exit));
  }

  /** FLAT after a manual close: with the close in place the position was seen gone, and then the close won. */
  lemma ClosedFlat(w: World, exit: ManualExit)
    requires Inv(w) && ManualExiting(w.trade.state) && exit == ExitOf(w.trade.state)
    requires ClosePosition(exit) in w.effects && w.effects[ClosePosition(exit)].request.CloseRequest?
    requires CloseWon(w.plan, w.log, w.trade, exit, w.effects[ClosePosition(exit)].request.quantity)
    ensures FlatProven(w.plan, w.log, w.trade) && w.truth.entry == Closed
  {
    CloseFacts(w, exit);
    JournalFacts(w, ClosePosition(exit));
    ClosePrepared(w, exit);
    assert ZeroSeen(w.plan, w.log);
    hide Inv, CloseWon, EntrySeenGone, ZeroSeen, WasPrepared;
  }

  /** FLAT after an emergency that found nothing left to close. */
  lemma UnclosedFlat(w: World)
    requires Inv(w) && w.trade.state == EXITING_EMERGENCY && w.trade.closeClient.Some?
    requires ZeroSeen(w.plan, w.log) && EntrySeenGone(w.plan, w.log)
    requires ClosePosition(EmergencyExit) !in w.effects
    ensures FlatProven(w.plan, w.log, w.trade)
  {
  }

  /** Leaving a manual exit for FLAT is a declared step that loses nothing. */
  lemma FlatKeepsRow(w: World)
    requires Inv(w) && ManualExiting(w.trade.state)
    ensures RowStep(w.plan, w.trade, w.trade.(state := FLAT)) && w.trade.closeClient.Some?
  {
    RowFacts(w);
  }

  /** What a timeout or emergency exit must have seen beyond the position and the entry gone: behind a close, that the
      close won; without one, nothing more, and only an emergency may end so. */
  ghost predicate ExitProven(w: World) {
    var exit := ExitOf(w.trade.state);
    if ClosePosition(exit) in w.effects then
      && w.effects[ClosePosition(exit)].request.CloseRequest?
      && CloseWon(w.plan, w.log, w.trade, exit, w.effects[ClosePosition(exit)].request.quantity)
    else w.trade.state == EXITING_EMERGENCY
  }

  lemma ExitProof(w: World)
    requires Inv(w) && ManualExiting(w.trade.state) && ZeroSeen(w.plan, w.log) && EntrySeenGone(w.plan, w.log)
    ensures FlatProven(w.plan, w.log, w.trade) <==> ExitProven(w)
  {
    var id := ClosePosition(ExitOf(w.trade.state));
    FlatKeepsRow(w);
    JournalFacts(w, id);
    if id in w.effects {
      ClosePrepared(w, ExitOf(w.trade.state));
      assert Prepared(id, CloseRequest(w.effects[id].request.quantity)) in w.log;
    }
    hide Inv, ZeroSeen, EntrySeenGone, CloseWon;
  }

  /** A timeout or emergency exit that saw the position and the entry gone, with no protection left that could fire,
      may go FLAT exactly when it also saw its close win, after the close and after the zero position; or, for an
      emergency, when it never prepared a close. Only behind a close is a fired stop or target looked for. */
  lemma TriggerCheckedBehindClose(w: World)
    requires Inv(w) && ManualExiting(w.trade.state) && w.truth.entry == Closed
    requires ZeroSeen(w.plan, w.log) && EntrySeenGone(w.plan, w.log)
    requires Harmless(w.truth.stop) && Harmless(w.truth.target)
    ensures MayMove(w, w.trade.(state := FLAT)) <==> ExitProven(w)
  {
    RowFacts(w);
    FlatKeepsRow(w);
    ExitProof(w);
    hide Inv, RowStep, ZeroSeen, EntrySeenGone, RowOk, FlatProven, Row, ExitProven;
  }

  /** Behind a close, no FLAT while every read that counts shows the position open, or a stop or target fired. */
  lemma ReadsDecideBehindClose(w: World)
    requires Inv(w) && ManualExiting(w.trade.state) && ClosePosition(ExitOf(w.trade.state)) in w.effects
    requires
      || (forall i :: FreshFrom(w.log) <= i < |w.log| && w.log[i].Observed? ==>
            PositionQuantity(w.plan, w.log[i].view.positions) != Done(0.0))
      || (forall i :: FreshFrom(w.log) <= i < |w.log| && w.log[i].Observed? ==>
            ProvenTrigger(w.plan, w.log[i].view, [], w.trade.stopId, w.trade.targetId, w.trade.filled) != Done(None))
    ensures !MayMove(w, w.trade.(state := FLAT))
  {
    hide PositionQuantity, ProvenTrigger, FillRecorded;
    if MayMove(w, w.trade.(state := FLAT)) {
      assert FlatProven(w.plan, w.log, w.trade);
      ExitProof(w);
    }
  }

  /** The recorded outcome of the placement says that the entry order is over. */
  predicate PlacementOver(w: World) {
    && PlaceEntry in w.effects && Settled(w.effects[PlaceEntry].status) && w.effects[PlaceEntry].payload.Some?
    && match w.effects[PlaceEntry].payload.value
       case OrderPayload(o) => OverAtVenue(o.status)
       case _ => true
  }

  /** A trade may go FLAT beside an entry order that is still open exactly when a stop or target ended it and the
      recorded answer to the placement did not already say that the order was over. */
  lemma FlatBesideOpenEntryExactly(w: World, after: Trade)
    requires Inv(w) && MayMove(w, after) && after.state == FLAT
    ensures
      var open := w.(truth := w.truth.(entry := Open));
      Inv(open) && MayMove(open, after) <==> TriggerExiting(w.trade.state) && !PlacementOver(w)
  {
    hide FlatProven, Legal, JournalOk;
    RowFacts(w);
    assert LegOk(w, StopLeg) && LegOk(w, TargetLeg);
  }

  /** The check after a close was sent: no position, and no open entry order. */
  function SeenFlat(plan: Plan, view: Snapshot): (r: Outcome<bool>)
    ensures !r.Crashed?
    ensures r == Done(true) ==>
      PositionQuantity(plan, view.positions) == Done(0.0) && FindOrder(view, plan.EntryId()) == Done(None)
  {
    var quantity :- PositionQuantity(plan, view.positions);
    if quantity > 0.0 then Done(false)
    else
      var entry :- FindOrder(view, plan.EntryId());
      Done(entry == None)
  }

  // ------------------------------------------------------ reading and acting

  /** `view` was read since the last transition, and what it shows is still true where that matters. */
  ghost predicate Sighted(w: World, view: Snapshot) {
    && StillCounts(w.log, view)
    && ListingSettled(w.trade, view.tpsl, w.truth)
    && (forall o :: o in view.orders && o.id == Some(w.plan.EntryId()) ==> EntryRecordFaithful(o, w.truth.entry))
    && (forall o :: o in view.history && o.id == Some(w.plan.EntryId()) ==> EntryRecordFaithful(o, w.truth.entry))
    && (forall p :: p in view.positions && OwnRow(w.plan, p) ==> Born(w.truth.entry))
  }

  lemma SightedCounts(w: World, view: Snapshot)
    requires Sighted(w, view)
    ensures StillCounts(w.log, view)
  {
  }

  lemma JustSighted(before: seq<Event>, w: World, view: Snapshot)
    requires Inv(w) && w.log == before + [Observed(view)] && Faithful(w.plan, view, w.truth)
    ensures Sighted(w, view)
  {
    RowAppend(before, Observed(view));
    assert w.log[|before|] == Observed(view);
    ReadSettles(w, view);
  }

  lemma SightedStays(a: World, b: World, view: Snapshot)
    requires Sighted(a, view) && Calm(a, b)
    ensures Sighted(b, view)
  {
  }

  lemma SettledStays(a: World, b: World, rows: seq<TpslRecord>)
    requires Quiet(a, b)
    ensures ListingSettled(a.trade, rows, a.truth) ==> ListingSettled(b.trade, rows, b.truth)
    ensures EventsSettled(a.trade, rows, a.truth) ==> EventsSettled(b.trade, rows, b.truth)
  {
  }

  /** What a sighted view proves. */
  lemma SightedFacts(w: World, view: Snapshot)
    requires Inv(w) && Sighted(w, view)
    ensures PositionForTrade(w.plan, view) == Done(0.0) ==> ZeroSeen(w.plan, w.log)
    ensures PositionForTrade(w.plan, view).Done? && PositionForTrade(w.plan, view).value > 0.0 ==> Born(w.truth.entry)
    ensures ExitFilled(w.plan, view, w.trade.filled) ==> ExitFillSeen(w.plan, w.log, w.trade.filled)
  {
    hide Inv, PositionForTrade, PositionQuantity, ExitFilled;
    var i :| FreshFrom(w.log) <= i < |w.log| && w.log[i] == Observed(view);
    if PositionForTrade(w.plan, view) == Done(0.0) {
      ZeroForTradeIsZero(w.plan, view);
    }
  }

  /** A trigger proven from a sighted view: everything the exit transition needs. */
  lemma TriggerFacts(w: World, view: Snapshot, events: seq<TpslRecord>)
    requires Inv(w) && Sighted(w, view) && EventsSettled(w.trade, events, w.truth)
    requires ProvenTrigger(w.plan, view, events, w.trade.stopId, w.trade.targetId, w.trade.filled).Done?
    requires ProvenTrigger(w.plan, view, events, w.trade.stopId, w.trade.targetId, w.trade.filled).value.Some?
    ensures
      var leg := ProvenTrigger(w.plan, view, events, w.trade.stopId, w.trade.targetId, w.trade.filled).value.value.leg;
      && w.trade.LegId(leg).Some? && w.truth.Of(leg).Gone?
      && ExitFillSeen(w.plan, w.log, w.trade.filled)
  {
    hide Inv, ProvenTrigger, ExitFilled, FreshFrom;
    TriggerMeansGone(w.plan, view, events, w.truth, w.trade);
    SightedFacts(w, view);
  }

  /** The leg a trigger exit belongs to. */
  function TriggerState(leg: Leg): TradeState {
    if leg == StopLeg then EXITING_STOP else EXITING_TARGET
  }

  // ------------------------------------------------------------- settlement

  /** A record that settles the entry is the entry's own and says nothing the venue will take back. */
  lemma SettledRecord(plan: Plan, view: Snapshot, truth: Truth, acknowledged: OrderRecord)
    requires Faithful(plan, view, truth) && SettledEntryProjection(plan, view).Done?
    requires SettledEntryProjection(plan, view).value.order.Some?
    ensures
      var o := SettledEntryProjection(plan, view).value.order.value;
      SettledBy(plan, view, acknowledged, o) && EntryRecordFaithful(o, truth.entry)
  {
    hide PositionForTrade, ValidateEntry, SettledEntryProjection;
    ProjectionMeaning(plan, view);
  }

  /** The acknowledged order is cancelled for good once nothing of it is left. */
  lemma CancelledForGood(plan: Plan, view: Snapshot, truth: Truth, acknowledged: OrderRecord)
    requires Faithful(plan, view, truth) && SettledEntryProjection(plan, view).Done?
    requires
      var s := SettledEntryProjection(plan, view).value;
      s.order == None && !s.fillSeen && FindOrder(view, plan.EntryId()) == Done(None)
    requires Born(truth.entry)
    ensures SettledBy(plan, view, acknowledged, acknowledged.(status := CANCELED))
    ensures EntryRecordFaithful(acknowledged.(status := CANCELED), truth.entry)
  {
    hide PositionForTrade, ValidateEntry, SettledEntryProjection;
    ProjectionMeaning(plan, view);
    UnlistedMeansClosed(plan, view, truth);
  }

  lemma ValidatedIsEntry(plan: Plan, o: OrderRecord)
    requires ValidateEntry(plan, o).Done?
    ensures o.id == Some(plan.EntryId())
  {
  }

  lemma ValidatedStatus(plan: Plan, o: OrderRecord)
    requires ValidateEntry(plan, o).Done?
    ensures ValidateEntry(plan, o).value.status == o.status
  {
  }

  /** A settled placement that carries an order record speaks about the entry. */
  lemma PlacementFacts(w: World)
    requires Inv(w) && PlaceEntry in w.effects && Settled(w.effects[PlaceEntry].status)
    ensures w.effects[PlaceEntry].payload.Some? && EntryPayloadOk(w.effects[PlaceEntry].payload.value, w.truth.entry)
  {
  }

  /** Without a placement row the entry was never sent. */
  lemma NothingSent(w: World)
    requires Inv(w)
    ensures PlaceEntry !in w.effects ==> w.truth.entry == Unsent
    ensures w.trade.state == RECEIVED ==> w.effects == map[]
  {
  }

  /** A position on the trade's instrument proves that its entry order reached the venue. */
  lemma ExposureMeansBorn(plan: Plan, view: Snapshot, truth: Truth)
    requires Faithful(plan, view, truth)
    requires PositionQuantity(plan, view.positions).Done? && PositionQuantity(plan, view.positions).value > 0.0
    ensures Born(truth.entry)
  {
  }

  /** Every record of the entry speaks about it; no record at all means it is not open. */
  lemma ListedRecordsAreOurs(plan: Plan, view: Snapshot, truth: Truth)
    requires Faithful(plan, view, truth)
    ensures forall o :: (o in view.orders || o in view.history) && o.id == Some(plan.EntryId()) ==>
              EntryRecordFaithful(o, truth.entry)
    ensures FindOrder(view, plan.EntryId()) == Done(None) ==> truth.entry != Open
  {
  }

  lemma AbsentMeansOver(w: World)
    requires Inv(w) && PlaceEntry in w.effects && w.effects[PlaceEntry].payload == Some(AbsentAndFlat)
    ensures w.truth.entry in {Unsent, Closed}
  {
  }

  lemma CancelledFacts(w: World)
    requires Inv(w)
    ensures w.trade.state == CANCELLED ==> w.truth.entry in {Unsent, Closed}
  {
  }

  lemma SameIdsSettled(a: World, b: World, events: seq<TpslRecord>)
    requires EventsSettled(a.trade, events, a.truth) && Evolves(a.truth, b.truth)
    requires b.trade.stopId == a.trade.stopId && b.trade.targetId == a.trade.targetId
    ensures EventsSettled(b.trade, events, b.truth)
  {
  }

  /** The account view lists the recorded order of this leg live, with the planned geometry. */
  ghost predicate LegShownLive(plan: Plan, t: Trade, view: Snapshot, leg: Leg) {
    exists record :: record in view.tpsl && record.id == t.LegId(leg) && LiveTpsl(record) && PlannedTpsl(plan, leg, record)
  }

  /** The view shows the trade's position open behind a live stop and a live target, with no entry order beside it. */
  predicate HoldsBehind(plan: Plan, t: Trade, view: Snapshot) {
    && FindOrder(view, plan.EntryId()) == Done(None) && FillReadable(plan, t, view)
    && PositionForTrade(plan, view).value > 0.0
    && ShownLive(plan, t, view, StopLeg) && ShownLive(plan, t, view, TargetLeg)
  }

  predicate ShownLive(plan: Plan, t: Trade, view: Snapshot, leg: Leg) {
    var found := FindTpslById(view, t.LegId(leg));
    found.Done? && found.value.Some? && ValidTpsl(plan, leg, found.value.value, true, false)
  }

  lemma NoEventsSettled(w: World)
    ensures EventsSettled(w.trade, [], w.truth)
  {
  }

  lemma SettledTogether(t: Trade, a: seq<TpslRecord>, b: seq<TpslRecord>, truth: Truth)
    requires EventsSettled(t, a, truth) && EventsSettled(t, b, truth)
    ensures EventsSettled(t, a + b, truth)
  {
  }

  lemma RecordStays(a: Truth, b: Truth, o: OrderRecord)
    requires Evolves(a, b) && EntryRecordFaithful(o, a.entry)
    ensures EntryRecordFaithful(o, b.entry) && Born(b.entry)
  {
  }

  // ------------------------------------------------------ protection cleanup

  /** The one identity among several sources; two different ones are a conflict. */
  function OnlyId(sources: seq<Option<TpslId>>): (r: Outcome<Option<TpslId>>)
    ensures !r.Crashed?
    ensures r == Done(None) ==> forall s :: s in sources ==> s == None
    ensures r.Done? && r.value.Some? ==> r.value in sources && forall s :: s in sources && s.Some? ==> s == r.value
  {
    if sources == [] then Done(None)
    else
      assert sources == [sources[0]] + sources[1..];
      var rest :- OnlyId(sources[1..]);
      assert rest.Some? ==> rest in sources[1..];
      if sources[0] == None then Done(rest)
      else if rest == None || rest == sources[0] then Done(sources[0])
      else Raised
  }

  /** The rows of one leg's effects are the same in both worlds. */
  predicate SameLegRows(a: World, b: World, leg: Leg) {
    && (Create(leg) in a.effects <==> Create(leg) in b.effects)
    && (Create(leg) in a.effects ==> a.effects[Create(leg)] == b.effects[Create(leg)])
  }

  /** The recorded outcome of a placement is what the account read shows: a record of the entry, or that there is
      neither record nor position. */
  ghost predicate PlacementShown(plan: Plan, view: Snapshot, payload: Option<Payload>) {
    match payload
    case Some(OrderPayload(o)) => o.id == Some(plan.EntryId()) && (o in view.orders || o in view.history)
    case Some(AbsentAndFlat) =>
      && FindOrder(view, plan.EntryId()) == Done(None) && FindHistorical(view, plan.EntryId()) == Done(None)
      && PositionQuantity(plan, view.positions) == Done(0.0)
    case _ => false
  }

  /** The account read shows what a cancellation or a close was for. */
  ghost predicate OutcomeShown(plan: Plan, view: Snapshot, id: EffectId, request: Request) {
    match id
    case CancelEntry => FindOrder(view, plan.EntryId()) == Done(None)
    case CancelLeg(_) =>
      request.CancelRequest? &&
      match FindTpslById(view, Some(request.tpsl)) {
        case Done(None) => true
        case Done(Some(t)) => !LiveTpsl(t) && t.status != UNKNOWN_TPSL
        case _ => false
      }
    case ClosePosition(_) => PositionQuantity(plan, view.positions) == Done(0.0)
    case _ => true
  }

  function Other(leg: Leg): Leg {
    if leg == StopLeg then TargetLeg else StopLeg
  }

  lemma ValidHasId(plan: Plan, leg: Leg, t: TpslRecord, requireLive: bool, requireParent: bool)
    requires ValidTpsl(plan, leg, t, requireLive, requireParent)
    ensures t.id.Some?
  {
  }

  function StoredResponseId(w: World, leg: Leg): Option<TpslId> {
    if Create(leg) in w.effects && w.effects[Create(leg)].payload.Some? && w.effects[Create(leg)].payload.value.TpslPayload?
    then w.effects[Create(leg)].payload.value.tpsl
    else None
  }

  function StoredExchangeId(w: World, leg: Leg): Option<TpslId> {
    if Create(leg) in w.effects then w.effects[Create(leg)].exchangeId else None
  }

  /** Whichever source names an identity, it is that of the order this trade created. */
  lemma SourcesAreOurs(seen: World, view: Snapshot, leg: Leg, geometry: Option<TpslRecord>)
    requires Inv(seen) && Faithful(seen.plan, view, seen.truth)
    requires FindTpsl(seen.plan, view, leg) == Done(geometry)
    ensures seen.trade.LegId(leg).Some? ==> IsId(seen.truth.Of(leg), seen.trade.LegId(leg).value)
    ensures StoredExchangeId(seen, leg).Some? ==> IsId(seen.truth.Of(leg), StoredExchangeId(seen, leg).value)
    ensures StoredResponseId(seen, leg).Some? ==> IsId(seen.truth.Of(leg), StoredResponseId(seen, leg).value)
    ensures geometry.Some? && geometry.value.id.Some? ==>
              IsId(seen.truth.Of(leg), geometry.value.id.value) && Indexed(seen.truth.Of(leg))
    ensures Create(leg) in seen.effects && seen.effects[Create(leg)].status == RECONCILED ==> Indexed(seen.truth.Of(leg))
    ensures Create(leg) !in seen.effects ==> seen.truth.Of(leg).NotSent?
    ensures Create(leg) in seen.effects ==> !BeforeFill(seen.trade.state)
  {
    LegFacts(seen, leg);
    if leg == StopLeg { assert seen.truth.Of(leg) == seen.truth.stop; }
    else { assert seen.truth.Of(leg) == seen.truth.target; }
  }
}
