/** One trade with everything around it: the durable row and effect journal, the venue's
    own truth about the trade's orders, and the history. `Inv` is what every step keeps. */
module LifecycleWorld {
  import opened Outcomes
  import opened Amounts
  import opened VenueRecords
  import opened LifecycleLog

  // ------------------------------------------------------------ venue truth

  /** The entry order at the venue. A call that was issued and not answered is `InFlight`. */
  datatype EntryTruth = Unsent | InFlight | Open | Closed

  /** A protective order at the venue: not requested, requested and unanswered, accepted but not
      yet in the listing, listed live, and finally no longer live. */
  datatype LegTruth = NotSent | Flying | Accepted(id: TpslId) | Listed(id: TpslId) | Gone(id: TpslId)

  datatype Truth = Truth(entry: EntryTruth, stop: LegTruth, target: LegTruth) {
    function Of(leg: Leg): LegTruth {
      if leg == StopLeg then stop else target
    }

    function With(leg: Leg, value: LegTruth): Truth {
      if leg == StopLeg then this.(stop := value) else this.(target := value)
    }
  }

  predicate Born(e: EntryTruth) {
    e in {Open, Closed}
  }

  predicate HasId(l: LegTruth) {
    l.Accepted? || l.Listed? || l.Gone?
  }

  predicate Indexed(l: LegTruth) {
    l.Listed? || l.Gone?
  }

  /** Not live, and never live later. */
  predicate Harmless(l: LegTruth) {
    l.NotSent? || l.Gone?
  }

  predicate IsId(l: LegTruth, id: TpslId) {
    HasId(l) && l.id == id
  }

  /** The venue on its own: what stopped being live never becomes live again. */
  predicate EntryEvolves(a: EntryTruth, b: EntryTruth) {
    a == b || (a == InFlight && Born(b)) || (a == Open && b == Closed)
  }

  predicate LegEvolves(a: LegTruth, b: LegTruth) {
    || a == b
    || (a.Flying? && HasId(b))
    || (a.Accepted? && Indexed(b) && b.id == a.id)
    || (a.Listed? && b == Gone(a.id))
  }

  predicate Evolves(a: Truth, b: Truth) {
    EntryEvolves(a.entry, b.entry) && LegEvolves(a.stop, b.stop) && LegEvolves(a.target, b.target)
  }

  /** `Evolves` together with the calls this engine issues. */
  predicate Ahead(a: Truth, b: Truth) {
    && (a.entry == Unsent || EntryEvolves(a.entry, b.entry))
    && (a.stop.NotSent? || LegEvolves(a.stop, b.stop))
    && (a.target.NotSent? || LegEvolves(a.target, b.target))
  }

  predicate OverAtVenue(status: OrderStatus) {
    TerminalOrder(status) || status == FILLED
  }

  /** An order record carrying the entry's identity speaks about the entry. */
  predicate EntryRecordFaithful(o: OrderRecord, truth: EntryTruth) {
    Born(truth) && (OverAtVenue(o.status) ==> truth == Closed)
  }

  predicate LegListingFaithful(plan: Plan, rows: seq<TpslRecord>, leg: Leg, truth: LegTruth) {
    && (truth.Listed? ==> exists t :: t in rows && t.id == Some(truth.id))
    && (forall t :: t in rows && HasId(truth) && t.id == Some(truth.id) ==>
          Indexed(truth) && (LiveTpsl(t) <==> truth.Listed?))
    && (forall t :: t in rows && t.leg == Some(leg) && t.parent == Some(plan.EntryId()) ==>
          Indexed(truth) && t.id == Some(truth.id))
  }

  /** The stated assumptions about a complete account read. */
  predicate Faithful(plan: Plan, view: Snapshot, truth: Truth) {
    && (truth.entry == Open ==> FindOrder(view, plan.EntryId()) != Done(None))
    && (forall o :: o in view.orders && o.id == Some(plan.EntryId()) ==> EntryRecordFaithful(o, truth.entry))
    && (forall o :: o in view.history && o.id == Some(plan.EntryId()) ==> EntryRecordFaithful(o, truth.entry))
    && (forall p :: p in view.positions && OwnRow(plan, p) ==> Born(truth.entry))
    && LegListingFaithful(plan, view.tpsl, StopLeg, truth.stop)
    && LegListingFaithful(plan, view.tpsl, TargetLeg, truth.target)
  }

  /** A streamed event that reports a fired protection is about one that is no longer live. */
  predicate EventsFaithful(events: seq<TpslRecord>, truth: Truth) {
    forall t, leg: Leg :: t in events && TriggeredTpsl(t) && HasId(truth.Of(leg)) && t.id == Some(truth.Of(leg).id) ==>
      truth.Of(leg).Gone?
  }

  // ------------------------------------------------------------------ world

  datatype EffectStatus = PREPARED | CONFIRMED | RECONCILED | FAILED

  datatype Effect = Effect(status: EffectStatus, request: Request, exchangeId: Option<TpslId>, payload: Option<Payload>)

  datatype World = World(
    plan: Plan,
    trade: Trade,
    effects: map<EffectId, Effect>,
    truth: Truth,
    log: seq<Event>)

  predicate Settled(status: EffectStatus) {
    status in {CONFIRMED, RECONCILED}
  }

  /** The journal rows and the history tell the same story. */
  ghost predicate JournalOk(effects: map<EffectId, Effect>, log: seq<Event>) {
    && (forall id :: id in effects ==> Prepared(id, effects[id].request) in log)
    && (forall id, request :: Prepared(id, request) in log ==> id in effects && effects[id].request == request)
    && (forall id :: Sent(id) in log ==> id in effects)
    && (forall id :: id in effects ==> (Settled(effects[id].status) <==> effects[id].payload.Some?))
    && (forall id :: id in effects && effects[id].status == CONFIRMED ==>
          Confirmed(id, effects[id].payload.value) in log)
    && (forall id :: id in effects && effects[id].status == RECONCILED ==>
          Reconciled(id, effects[id].payload.value) in log)
    && (forall id :: LastOutcome(log, id) == if id in effects then effects[id].payload else None)
  }

  ghost predicate HistoryOk(plan: Plan, log: seq<Event>, trade: Trade) {
    Legal(plan, log) && Row(log) == trade && RowOk(plan, trade)
  }

  predicate EntryPayloadOk(p: Payload, truth: EntryTruth) {
    match p
    case OrderPayload(o) => EntryRecordFaithful(o, truth)
    case AbsentAndFlat => truth in {Unsent, Closed}
    case _ => false
  }

  ghost predicate EntryOk(w: World) {
    && (PlaceEntry !in w.effects ==> w.truth.entry == Unsent)
    && (PlaceEntry in w.effects && Settled(w.effects[PlaceEntry].status) && w.effects[PlaceEntry].payload.Some? ==>
          EntryPayloadOk(w.effects[PlaceEntry].payload.value, w.truth.entry))
    && (w.trade.filled > 0.0 ==> Born(w.truth.entry))
    && (w.trade.state == CANCELLED ==> w.truth.entry in {Unsent, Closed})
    && (w.trade.state == RECEIVED ==> w.effects == map[])
  }

  ghost predicate LegOk(w: World, leg: Leg) {
    var truth := w.truth.Of(leg);
    && (!truth.NotSent? ==> Create(leg) in w.effects)
    && (w.trade.LegId(leg).Some? ==> IsId(truth, w.trade.LegId(leg).value))
    && (Create(leg) in w.effects ==>
          var e := w.effects[Create(leg)];
          && (e.exchangeId.Some? ==> IsId(truth, e.exchangeId.value))
          && (e.payload.Some? && e.payload.value.TpslPayload? && e.payload.value.tpsl.Some? ==>
                IsId(truth, e.payload.value.tpsl.value))
          && (e.status == RECONCILED ==> Indexed(truth)))
    && (CancelLeg(leg) in w.effects ==>
          && w.effects[CancelLeg(leg)].request.CancelRequest? && IsId(truth, w.effects[CancelLeg(leg)].request.tpsl)
          && (Settled(w.effects[CancelLeg(leg)].status) ==> Indexed(truth)))
    && (BeforeFill(w.trade.state) ==> Create(leg) !in w.effects && CancelLeg(leg) !in w.effects)
    && (w.trade.state == FLAT ==> Harmless(truth))
  }

  ghost predicate CloseOk(w: World) {
    && (forall exit :: ClosePosition(exit) in w.effects ==>
          && w.truth.entry == Closed && w.effects[ClosePosition(exit)].request.CloseRequest?
          && w.trade.state in {if exit == TimeoutExit then EXITING_TIMEOUT else EXITING_EMERGENCY, FLAT, FAILED_BLOCKED})
    && (w.trade.state == FLAT && ClosedManually(w.plan, w.trade) ==> w.truth.entry == Closed)
  }

  ghost predicate OrdersOk(w: World) {
    EntryOk(w) && LegOk(w, StopLeg) && LegOk(w, TargetLeg) && CloseOk(w)
  }

  /** What holds between any two awaits, and therefore at every crash. */
  ghost predicate Inv(w: World) {
    && w.plan.quantity > 0.0
    && HistoryOk(w.plan, w.log, w.trade)
    && JournalOk(w.effects, w.log)
    && OrdersOk(w)
  }

  function Initial(plan: Plan): World {
    World(plan, NewTrade, map[], Truth(Unsent, NotSent, NotSent), [])
  }

  lemma InitialInv(plan: Plan)
    requires plan.quantity > 0.0
    ensures Inv(Initial(plan))
  {
  }

  /** History only grows and the venue only moves forward. */
  ghost predicate Advances(a: World, b: World) {
    && a.plan == b.plan
    && a.log <= b.log
    && Ahead(a.truth, b.truth)
    && a.effects.Keys <= b.effects.Keys
    && OutcomesKept(a.effects, b.effects)
  }

  /** A recorded outcome may be recorded again, but never lost. */
  ghost predicate OutcomesKept(a: map<EffectId, Effect>, b: map<EffectId, Effect>) {
    forall id :: id in a && Settled(a[id].status) ==> id in b && Settled(b[id].status)
  }

  lemma AdvancesTransitive(a: World, b: World, c: World)
    requires Advances(a, b) && Advances(b, c)
    ensures Advances(a, c)
  {
  }

  /** No row transition between `a` and `b`. */
  ghost predicate Quiet(a: World, b: World) {
    Advances(a, b) && b.trade == a.trade
  }

  /** Quiet, the rows of the close effects are untouched, and what was read still counts. */
  ghost predicate Calm(a: World, b: World) {
    && Quiet(a, b) && FreshFrom(b.log) == FreshFrom(a.log)
    && forall exit ::
         && (ClosePosition(exit) in a.effects <==> ClosePosition(exit) in b.effects)
         && (ClosePosition(exit) in a.effects ==> a.effects[ClosePosition(exit)] == b.effects[ClosePosition(exit)])
  }

  lemma Reflexivity(w: World)
    ensures Advances(w, w) && Quiet(w, w) && Calm(w, w)
  {
  }

  lemma Transitivity()
    ensures forall a, b, c {:trigger Advances(a, b), Advances(b, c)} :: Advances(a, b) && Advances(b, c) ==> Advances(a, c)
    ensures forall a, b, c {:trigger Quiet(a, b), Quiet(b, c)} :: Quiet(a, b) && Quiet(b, c) ==> Quiet(a, c)
    ensures forall a, b, c {:trigger Calm(a, b), Calm(b, c)} :: Calm(a, b) && Calm(b, c) ==> Calm(a, c)
    ensures forall a, b {:trigger Calm(a, b)} :: Calm(a, b) ==> Quiet(a, b) && a.trade == b.trade
    ensures forall a, b {:trigger Quiet(a, b)} :: Quiet(a, b) ==> Advances(a, b) && a.trade == b.trade
    ensures forall a, b {:trigger Advances(a, b)} :: Advances(a, b) ==> a.plan == b.plan && a.log <= b.log
  {
  }

  lemma EvolvesTransitivity()
    ensures forall a, b, c {:trigger Evolves(a, b), Evolves(b, c)} :: Evolves(a, b) && Evolves(b, c) ==> Evolves(a, c)
    ensures forall a {:trigger Evolves(a, a)} :: Evolves(a, a)
  {
  }

  // ------------------------------------------------------------ preservation

  lemma HistoryAppend(plan: Plan, log: seq<Event>, trade: Trade, e: Event)
    requires HistoryOk(plan, log, trade) && StepOk(plan, log, e)
    ensures HistoryOk(plan, log + [e], if e.Moved? then e.after else trade)
  {
    LegalAppend(plan, log, e);
    RowAppend(log, e);
  }

  lemma JournalHasPrepared(effects: map<EffectId, Effect>, log: seq<Event>, id: EffectId)
    requires JournalOk(effects, log)
    ensures id in effects <==> WasPrepared(log, id)
  {
  }

  /** What the invariant says about one journal row. */
  lemma JournalFacts(w: World, id: EffectId)
    requires Inv(w)
    ensures id in w.effects ==> (Settled(w.effects[id].status) <==> w.effects[id].payload.Some?)
    ensures id !in w.effects ==> Sent(id) !in w.log
    ensures id in w.effects <==> WasPrepared(w.log, id)
  {
  }

  /** Appending anything but a preparation, a send or an outcome leaves the journal in step. */
  lemma JournalAppend(effects: map<EffectId, Effect>, log: seq<Event>, e: Event)
    requires JournalOk(effects, log) && !e.Prepared? && !e.Sent? && !e.Confirmed? && !e.Reconciled?
    ensures JournalOk(effects, log + [e])
  {
  }

  function Logged(w: World, e: Event): World {
    w.(log := w.log + [e])
  }

  lemma InvEvolve(w: World, truth: Truth)
    requires Inv(w) && Evolves(w.truth, truth)
    ensures Inv(w.(truth := truth))
  {
  }

  lemma InvObserve(w: World, e: Event)
    requires Inv(w) && (e.Observed? || e.ReadBack? || e.Began? || e.Clocked? || e.Faulted?)
    ensures Inv(Logged(w, e))
  {
    HistoryAppend(w.plan, w.log, w.trade, e);
    JournalAppend(w.effects, w.log, e);
  }

  function Inserted(w: World, id: EffectId, request: Request): World {
    Logged(w, Prepared(id, request)).(effects := w.effects[id := Effect(PREPARED, request, None, None)])
  }

  ghost predicate MayPrepare(w: World, id: EffectId, request: Request) {
    && id !in w.effects
    && w.trade.state != RECEIVED
    && (id.Create? ==> w.trade.state == PROTECTING)
    && (id.CancelLeg? ==>
          !BeforeFill(w.trade.state) && request.CancelRequest? && IsId(w.truth.Of(id.cancelled), request.tpsl))
    && (id.ClosePosition? ==>
          && request.CloseRequest? && request.quantity > 0.0 && Measured(w.plan, w.log, request.quantity)
          && w.truth.entry == Closed
          && w.trade.state == if id.exit == TimeoutExit then EXITING_TIMEOUT else EXITING_EMERGENCY)
  }

  lemma InvPrepare(w: World, id: EffectId, request: Request)
    requires Inv(w) && MayPrepare(w, id, request)
    ensures Inv(Inserted(w, id, request))
  {
    JournalHasPrepared(w.effects, w.log, id);
    HistoryAppend(w.plan, w.log, w.trade, Prepared(id, request));
    JournalInsert(w.effects, w.log, id, request);
    OrdersInserted(w, id, request);
  }

  lemma OrdersInserted(w: World, id: EffectId, request: Request)
    requires OrdersOk(w) && MayPrepare(w, id, request)
    ensures OrdersOk(Inserted(w, id, request))
  {
  }

  lemma JournalInsert(effects: map<EffectId, Effect>, log: seq<Event>, id: EffectId, request: Request)
    requires JournalOk(effects, log) && id !in effects
    ensures JournalOk(effects[id := Effect(PREPARED, request, None, None)], log + [Prepared(id, request)])
  {
  }

  /** The venue learns of a call the moment it is issued, whatever becomes of the answer. */
  function Issued(truth: Truth, id: EffectId): Truth {
    match id
    case PlaceEntry => if truth.entry == Unsent then truth.(entry := InFlight) else truth
    case Create(leg) => if truth.Of(leg).NotSent? then truth.With(leg, Flying) else truth
    case _ => truth
  }

  ghost predicate MaySend(w: World, id: EffectId) {
    && id in w.effects && w.effects[id].status == PREPARED
    && Sent(id) !in w.log
    && (id == PlaceEntry ==> w.trade.state == ENTRY_PENDING && InWindow(w.plan, w.log))
    && (id.Create? ==> w.trade.state == PROTECTING)
    && (id == Create(TargetLeg) ==> StopArmed(w.plan, w.log))
  }

  lemma InvSend(w: World, id: EffectId)
    requires Inv(w) && MaySend(w, id)
    ensures Inv(Logged(w, Sent(id)).(truth := Issued(w.truth, id)))
  {
    JournalHasPrepared(w.effects, w.log, id);
    HistoryAppend(w.plan, w.log, w.trade, Sent(id));
    JournalSend(w.effects, w.log, id);
    OrdersIssued(w, id);
  }

  lemma OrdersIssued(w: World, id: EffectId)
    requires OrdersOk(w) && MaySend(w, id)
    ensures OrdersOk(Logged(w, Sent(id)).(truth := Issued(w.truth, id)))
  {
  }

  lemma JournalSend(effects: map<EffectId, Effect>, log: seq<Event>, id: EffectId)
    requires JournalOk(effects, log) && id in effects
    ensures JournalOk(effects, log + [Sent(id)])
  {
  }

  /** What must be known before a journal row is given its outcome. */
  ghost predicate MayFinish(w: World, id: EffectId, status: EffectStatus, exchangeId: Option<TpslId>, payload: Payload) {
    && id in w.effects && Settled(status)
    && (status == CONFIRMED ==> Sent(id) in w.log)
    && match id
       case PlaceEntry => EntryPayloadOk(payload, w.truth.entry)
       case Create(leg) =>
         && payload.TpslPayload?
         && (exchangeId.Some? ==> IsId(w.truth.Of(leg), exchangeId.value))
         && (payload.tpsl.Some? ==> IsId(w.truth.Of(leg), payload.tpsl.value))
         && (status == RECONCILED ==> Indexed(w.truth.Of(leg)))
       case CancelLeg(leg) => Indexed(w.truth.Of(leg))
       case _ => true
  }

  function OutcomeEvent(id: EffectId, status: EffectStatus, payload: Payload): Event {
    if status == CONFIRMED then Confirmed(id, payload) else Reconciled(id, payload)
  }

  function Finished(w: World, id: EffectId, status: EffectStatus, exchangeId: Option<TpslId>, payload: Payload): World
    requires id in w.effects
  {
    Logged(w, OutcomeEvent(id, status, payload)).(
      effects := w.effects[id := Effect(status, w.effects[id].request, exchangeId, Some(payload))])
  }

  lemma InvFinish(w: World, id: EffectId, status: EffectStatus, exchangeId: Option<TpslId>, payload: Payload)
    requires Inv(w) && MayFinish(w, id, status, exchangeId, payload)
    ensures Inv(Finished(w, id, status, exchangeId, payload))
  {
    HistoryAppend(w.plan, w.log, w.trade, OutcomeEvent(id, status, payload));
    JournalFinish(w.effects, w.log, id, status, exchangeId, payload);
    OrdersFinished(w, id, status, exchangeId, payload);
  }

  lemma OrdersFinished(w: World, id: EffectId, status: EffectStatus, exchangeId: Option<TpslId>, payload: Payload)
    requires OrdersOk(w) && MayFinish(w, id, status, exchangeId, payload)
    ensures OrdersOk(Finished(w, id, status, exchangeId, payload))
  {
  }

  lemma JournalFinish(effects: map<EffectId, Effect>, log: seq<Event>, id: EffectId, status: EffectStatus,
                      exchangeId: Option<TpslId>, payload: Payload)
    requires JournalOk(effects, log) && id in effects && Settled(status)
    ensures JournalOk(effects[id := Effect(status, effects[id].request, exchangeId, Some(payload))],
                      log + [OutcomeEvent(id, status, payload)])
  {
    OutcomeAppend(log, OutcomeEvent(id, status, payload));
    hide LastOutcome;
  }

  ghost predicate MayMove(w: World, after: Trade) {
    && RowStep(w.plan, w.trade, after)
    && MoveShown(w.plan, w.log, w.trade, after)
    && (after.filled > 0.0 ==> Born(w.truth.entry))
    && (after.state == CANCELLED ==> w.truth.entry in {Unsent, Closed})
    && (after.stopId.Some? ==> IsId(w.truth.stop, after.stopId.value))
    && (after.targetId.Some? ==> IsId(w.truth.target, after.targetId.value))
    && (TriggerExiting(after.state) ==> ZeroSeen(w.plan, w.log) && ExitFillSeen(w.plan, w.log, w.trade.filled))
    && (after.state == FLAT ==>
          && FlatProven(w.plan, w.log, w.trade)
          && Harmless(w.truth.stop) && Harmless(w.truth.target)
          && (ManualExiting(w.trade.state) ==> w.truth.entry == Closed))
  }

  function MovedTo(w: World, after: Trade): World {
    Logged(w, Moved(w.trade, after)).(trade := after)
  }

  lemma InvMove(w: World, after: Trade)
    requires Inv(w) && MayMove(w, after)
    ensures Inv(MovedTo(w, after))
  {
    HistoryAppend(w.plan, w.log, w.trade, Moved(w.trade, after));
    JournalAppend(w.effects, w.log, Moved(w.trade, after));
    OrdersMoved(w, after);
  }

  lemma OrdersMoved(w: World, after: Trade)
    requires OrdersOk(w) && MayMove(w, after) && RowOk(w.plan, w.trade)
    ensures OrdersOk(MovedTo(w, after))
  {
  }

  function MarkedFailed(w: World, id: EffectId): World
    requires id in w.effects
  {
    w.(effects := w.effects[id := w.effects[id].(status := FAILED)])
  }

  lemma InvFail(w: World, id: EffectId)
    requires Inv(w) && id in w.effects && w.effects[id].status == PREPARED
    ensures Inv(MarkedFailed(w, id))
  {
    JournalFail(w.effects, w.log, id);
    OrdersFail(w, id);
  }

  lemma JournalFail(effects: map<EffectId, Effect>, log: seq<Event>, id: EffectId)
    requires JournalOk(effects, log) && id in effects && effects[id].status == PREPARED
    ensures JournalOk(effects[id := effects[id].(status := FAILED)], log)
  {
  }

  lemma OrdersFail(w: World, id: EffectId)
    requires OrdersOk(w) && id in w.effects && w.effects[id].status == PREPARED
    ensures OrdersOk(MarkedFailed(w, id))
  {
  }
}
