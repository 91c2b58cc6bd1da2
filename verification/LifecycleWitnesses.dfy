/** Concrete inputs on which the code does less than one might expect of it. */
module LifecycleWitnesses {
  import opened Outcomes
  import opened Amounts
  import opened VenueRecords
  import opened EntrySettlement
  import opened LifecycleLog
  import opened LifecycleWorld
  import opened LifecycleEvidence
  import opened LifecycleRuns

  const PLAN := Plan(0, 0, BUY, 1.0, 2.0, 100.0, 90.0, 110.0, 7, 0, 10, 1000)

  function EntryRecord(status: OrderStatus, remaining: real): OrderRecord {
    OrderRecord(Some(PLAN.EntryId()), 0, Some(BUY), LIMIT, Number(100.0), status, Number(2.0), Number(remaining),
                Number(100.0), Missing, true)
  }

  // ---------------------------------------------------- settling a live order

  const HALF_FILLED := EntryRecord(PARTIALLY_FILLED, 1.0)
  const HALF_VIEW := Snapshot([PositionRow(0, Some(BUY), Number(1.0), Number(1.0))], [HALF_FILLED], [], [])

  lemma OneRowFound<T(!new)>(x: T, p: T -> bool)
    requires p(x)
    ensures Find([x], p) == Done(Some(x))
  {
  }

  lemma NoRowFound<T(!new)>(p: T -> bool)
    ensures Find([], p) == Done(None)
  {
  }

  /** An open order that is half filled settles at once: the engine protects one unit while another may still fill. */
  lemma HalfFilledOrderSettles()
    ensures SettledEntryProjection(PLAN, HALF_VIEW) == Done(Settlement(Some(HALF_FILLED), true))
    ensures StillFillable(HALF_FILLED.status) && HALF_FILLED in HALF_VIEW.orders
  {
    var row := HALF_VIEW.positions[0];
    OneRowFound(row, (p: PositionRow) => OwnRow(PLAN, p));
    OneRowFound(HALF_FILLED, (o: OrderRecord) => o.id == Some(PLAN.EntryId()));
    NoRowFound((o: OrderRecord) => o.id == Some(PLAN.EntryId()));
    assert FindOrder(HALF_VIEW, PLAN.EntryId()) == Done(Some(HALF_FILLED));
    assert FindHistorical(HALF_VIEW, PLAN.EntryId()) == Done(None);
    assert PositionForTrade(PLAN, HALF_VIEW) == Done(1.0);
    assert [HALF_FILLED] + [] == [HALF_FILLED];
    assert Candidates(PLAN, HALF_VIEW) == Done([HALF_FILLED]);
    assert EntryFill(PARTIALLY_FILLED, 2.0, 1.0, PLAN.Slack()) == Done(1.0);
    assert ValidateEntry(PLAN, HALF_FILLED) == Done(EntryAck(PARTIALLY_FILLED, 1.0, Some(100.0)));
    assert [HALF_FILLED][1..] == [];
    assert Filter([HALF_FILLED], c => Covers(PLAN, c, 1.0)) == [HALF_FILLED];
  }

  // -------------------------------------------- a dust fill after a cancellation

  /** When the settlement relabels an acknowledged order CANCELED, the relabelled record reads as filled exactly when
      the acknowledgement's remainder was below its quantity, by however little the tolerance let through. */
  lemma RelabelledOrderReadsFilled(plan: Plan, o: OrderRecord)
    requires plan.quantity > 0.0 && o.status == NEW && ValidateEntry(plan, o).Done?
    requires ValidateEntry(plan, o.(status := CANCELED)).Done?
    ensures ValidateEntry(plan, o.(status := CANCELED)).value.filled > 0.0 <==> o.unfilled.value < o.quantity.value
  {
  }

  const DUST := 0.000000001

  /** One such acknowledgement: nothing filled while it was NEW, a billionth filled once it is CANCELED. */
  lemma DustBecomesAFill()
    ensures ValidateEntry(PLAN, EntryRecord(NEW, 2.0 - DUST)) == Done(EntryAck(NEW, 0.0, Some(100.0)))
    ensures ValidateEntry(PLAN, EntryRecord(CANCELED, 2.0 - DUST)) == Done(EntryAck(CANCELED, DUST, Some(100.0)))
  {
  }

  // ----------------------------------------------------------- played runs

  function IdOf(leg: Leg): TpslId {
    if leg == StopLeg then 1 else 2
  }

  const EXIT_ID := Foreign(9)

  /** A protection as the venue lists it. */
  function Protection(leg: Leg, status: TpslStatus): TpslRecord {
    TpslRecord(Some(IdOf(leg)), 0, Some(leg), Some(BUY), Number(0.0), Number(PLAN.LegPrice(leg)), Some(PLAN.EntryId()),
               status, if status == DONE then Some(EXIT_ID) else None, Number(1.0), true)
  }

  /** The generated exit order of a fired protection. */
  const EXIT_ORDER := OrderRecord(Some(EXIT_ID), 0, Some(SELL), MARKET, Missing, FILLED, Number(1.0), Number(0.0),
                                  Number(89.0), Number(0.1), true)

  const PENDING := NewTrade.(state := ENTRY_PENDING)
  const BARE := PENDING.(state := PROTECTING, filled := 1.0, firstFill := Some(0))

  function Armed(t: Trade, leg: Leg): Trade {
    t.WithLeg(leg, PLAN.LegClientId(leg), IdOf(leg))
  }

  const STOPPED := Armed(BARE, StopLeg)
  const HELD := Armed(STOPPED, TargetLeg).(state := ACTIVE)

  const PLACED := Effect(CONFIRMED, PlainRequest, None, Some(OrderPayload(HALF_FILLED)))

  function Created(leg: Leg): Effect {
    Effect(RECONCILED, PlainRequest, Some(IdOf(leg)), Some(TpslPayload(Some(IdOf(leg)))))
  }

  /** `steps` is a run of the fresh trade, and it leads to `w`. */
  ghost predicate Reaches(steps: seq<Step>, w: World) {
    Playable(Initial(PLAN), steps) && Play(Initial(PLAN), steps) == w && Inv(w) && w.plan == PLAN
  }

  lemma Fresh()
    ensures Reaches([], Initial(PLAN))
  {
    InitialInv(PLAN);
  }

  /** One more step. */
  lemma Next(steps: seq<Step>, w: World, s: Step) returns (longer: seq<Step>, v: World)
    requires Reaches(steps, w) && Enabled(w, s)
    ensures longer == steps + [s] && v == Take(w, s) && Reaches(longer, v)
  {
    hide Enabled, Inv;
    InitialInv(PLAN);
    longer := PlayOn(Initial(PLAN), steps, s);
    v := Take(w, s);
    assert v.plan == PLAN;
  }

  /** A journal row is inserted and its call goes out. */
  lemma Call(steps: seq<Step>, w: World, id: EffectId) returns (longer: seq<Step>, v: World)
    requires Reaches(steps, w) && id !in w.effects
    requires (id == PlaceEntry && w.trade.state == ENTRY_PENDING) || (id.Create? && w.trade.state == PROTECTING)
    requires id == Create(TargetLeg) ==> StopArmed(PLAN, w.log)
    requires id == PlaceEntry ==> InWindow(PLAN, w.log)
    ensures Reaches(longer, v)
    ensures v == Logged(Inserted(w, id, PlainRequest), Sent(id)).(truth := Issued(w.truth, id))
  {
    Unsent(steps, w, id);
    ReadyToSend(w, id);
    hide Reaches, StopArmed, Issued, MaySend, Logged, InWindow;
    longer, v := InsertOne(steps, w, id);
    longer, v := IssueOne(longer, v, id);
  }

  lemma ReadyToSend(w: World, id: EffectId)
    requires w.plan == PLAN && id !in w.effects && Sent(id) !in w.log
    requires (id == PlaceEntry && w.trade.state == ENTRY_PENDING) || (id.Create? && w.trade.state == PROTECTING)
    requires id == Create(TargetLeg) ==> StopArmed(PLAN, w.log)
    requires id == PlaceEntry ==> InWindow(PLAN, w.log)
    ensures MaySend(Inserted(w, id, PlainRequest), id)
  {
    hide StopArmed, InWindow;
    WindowStays(PLAN, w.log, w.log + [Prepared(id, PlainRequest)]);
    if id == Create(TargetLeg) { StopArmedStays(PLAN, w.log, w.log + [Prepared(id, PlainRequest)]); }
  }

  lemma InsertOne(steps: seq<Step>, w: World, id: EffectId) returns (longer: seq<Step>, v: World)
    requires Reaches(steps, w) && id !in w.effects && !id.ClosePosition? && !id.CancelLeg? && w.trade.state != RECEIVED
    requires id.Create? ==> w.trade.state == PROTECTING
    ensures Reaches(longer, v) && v == Inserted(w, id, PlainRequest)
  {
    hide Reaches;
    assert MayPrepare(w, id, PlainRequest);
    hide MayPrepare;
    longer, v := Next(steps, w, Insert(id, PlainRequest));
  }

  lemma IssueOne(steps: seq<Step>, w: World, id: EffectId) returns (longer: seq<Step>, v: World)
    requires Reaches(steps, w) && MaySend(w, id)
    ensures Reaches(longer, v) && v == Logged(w, Sent(id)).(truth := Issued(w.truth, id))
  {
    hide Reaches, MaySend;
    longer, v := Next(steps, w, Issue(id));
  }

  lemma Unsent(steps: seq<Step>, w: World, id: EffectId)
    requires Reaches(steps, w)
    ensures w.plan == PLAN && (id !in w.effects ==> Sent(id) !in w.log)
  {
    hide Playable, Play;
    JournalFacts(w, id);
  }
  lemma MoveOne(steps: seq<Step>, w: World, after: Trade) returns (longer: seq<Step>, v: World)
    requires Reaches(steps, w) && MayMove(w, after)
    ensures Reaches(longer, v) && v == MovedTo(w, after)
  {
    hide Reaches, MayMove;
    longer, v := Next(steps, w, Transit(after));
  }

  lemma SettleOne(steps: seq<Step>, w: World, id: EffectId, status: EffectStatus, x: Option<TpslId>, p: Payload)
    returns (longer: seq<Step>, v: World)
    requires Reaches(steps, w) && MayFinish(w, id, status, x, p)
    ensures Reaches(longer, v) && v == Finished(w, id, status, x, p)
  {
    hide Reaches, MayFinish;
    longer, v := Next(steps, w, Settle(id, status, x, p));
  }

  lemma EvolveOne(steps: seq<Step>, w: World, truth: Truth) returns (longer: seq<Step>, v: World)
    requires Reaches(steps, w) && Evolves(w.truth, truth)
    ensures Reaches(longer, v) && v == w.(truth := truth)
  {
    hide Reaches, Evolves;
    longer, v := Next(steps, w, Evolve(truth));
  }

  lemma ReadOne(steps: seq<Step>, w: World, view: Snapshot) returns (longer: seq<Step>, v: World)
    requires Reaches(steps, w) && Faithful(PLAN, view, w.truth)
    ensures Reaches(longer, v) && v == Logged(w, Observed(view))
  {
    Unsent(steps, w, PlaceEntry);
    hide Reaches, Faithful;
    longer, v := Next(steps, w, Observe(view));
  }

  lemma LookOne(steps: seq<Step>, w: World, record: TpslRecord) returns (longer: seq<Step>, v: World)
    requires Reaches(steps, w) && OwnRecord(w.truth, record)
    ensures Reaches(longer, v) && v == Logged(w, ReadBack(record))
  {
    hide Reaches, OwnRecord;
    longer, v := Next(steps, w, Look(record));
  }

  /** The row, the journal and the truth of `w`. */
  predicate At(w: World, trade: Trade, effects: map<EffectId, Effect>, truth: Truth) {
    w.plan == PLAN && w.trade == trade && w.effects == effects && w.truth == truth
  }

  /** A transition that needs no evidence but the venue's own truth. */
  lemma PlainMove(w: World, after: Trade)
    requires w.plan == PLAN && RowStep(PLAN, w.trade, after) && after.state in {ENTRY_PENDING, PROTECTING, ACTIVE, EXITING_EMERGENCY}
    requires after.filled > 0.0 ==> Born(w.truth.entry)
    requires after.stopId.Some? ==> IsId(w.truth.stop, after.stopId.value)
    requires after.targetId.Some? ==> IsId(w.truth.target, after.targetId.value)
    requires (after.filled == w.trade.filled && after.firstFill == w.trade.firstFill) || MoveShown(PLAN, w.log, w.trade, after)
    ensures MayMove(w, after)
  {
  }

  /** The answer that half of the entry filled shows the fill of one unit. */
  lemma HalfFillShown(w: World)
    requires |w.log| > 0 && w.log[|w.log| - 1] == Confirmed(PlaceEntry, OrderPayload(HALF_FILLED)) && w.trade == PENDING
    ensures MoveShown(PLAN, w.log, PENDING, BARE)
  {
    assert IsAnswer(w.log[|w.log| - 1], HALF_FILLED);
    assert EntryShown(PLAN, w.log, HALF_FILLED);
    hide EntryShown;
    assert ValidateEntry(PLAN, HALF_FILLED) == Done(EntryAck(PARTIALLY_FILLED, 1.0, Some(100.0)));
    assert FillShown(PLAN, w.log, 1.0);
  }

  lemma TickOne(steps: seq<Step>, w: World, now: int) returns (longer: seq<Step>, v: World)
    requires Reaches(steps, w)
    ensures Reaches(longer, v) && v == Logged(w, Clocked(now))
  {
    hide Reaches;
    longer, v := Next(steps, w, Tick(now));
  }

  lemma RowSteps()
    ensures RowStep(PLAN, NewTrade, PENDING) && RowStep(PLAN, PENDING, BARE)
    ensures RowStep(PLAN, BARE, STOPPED) && RowStep(PLAN, STOPPED, STOPPED) && RowStep(PLAN, STOPPED, Armed(STOPPED, TargetLeg))
    ensures RowStep(PLAN, Armed(STOPPED, TargetLeg), HELD)
  {
  }

  /** The entry was sent, half of it filled at once, and the rest is still working. */
  lemma EntryHalfFilled() returns (steps: seq<Step>, w: World)
    ensures Reaches(steps, w) && At(w, BARE, map[PlaceEntry := PLACED], Truth(Open, NotSent, NotSent))
  {
    Fresh();
    RowSteps();
    hide Reaches, RowStep, MayMove, MayFinish, MoveShown;
    PlainMove(Initial(PLAN), PENDING);
    steps, w := MoveOne([], Initial(PLAN), PENDING);
    steps, w := TickOne(steps, w, 0);
    assert w.log[|w.log| - 1] == Clocked(0);
    steps, w := Call(steps, w, PlaceEntry);
    steps, w := EvolveOne(steps, w, Truth(Open, NotSent, NotSent));
    PlacementSettles(w);
    steps, w := SettleOne(steps, w, PlaceEntry, CONFIRMED, None, OrderPayload(HALF_FILLED));
    HalfFillShown(w);
    PlainMove(w, BARE);
    steps, w := MoveOne(steps, w, BARE);
  }

  lemma PlacementSettles(w: World)
    requires PlaceEntry in w.effects && |w.log| > 0 && w.log[|w.log| - 1] == Sent(PlaceEntry) && w.truth.entry == Open
    ensures MayFinish(w, PlaceEntry, CONFIRMED, None, OrderPayload(HALF_FILLED))
  {
  }

  lemma CreateSettles(w: World, leg: Leg, status: EffectStatus)
    requires Create(leg) in w.effects && w.truth.Of(leg) == LegTruth.Listed(IdOf(leg))
    requires status == RECONCILED || (status == CONFIRMED && Sent(Create(leg)) in w.log)
    ensures MayFinish(w, Create(leg), status, Some(IdOf(leg)), TpslPayload(Some(IdOf(leg))))
  {
  }

  /** One protection is created and confirmed. */
  lemma LegCreated(steps: seq<Step>, w: World, leg: Leg) returns (longer: seq<Step>, v: World)
    requires Reaches(steps, w) && w.plan == PLAN && Create(leg) !in w.effects && w.truth.Of(leg).NotSent?
    requires w.trade.state == PROTECTING && (leg == TargetLeg ==> StopArmed(PLAN, w.log))
    ensures Reaches(longer, v) && w.log <= v.log
    ensures At(v, w.trade, w.effects[Create(leg) := Created(leg).(status := CONFIRMED)],
               w.truth.With(leg, LegTruth.Listed(IdOf(leg))))
  {
    hide Reaches, MayFinish, StopArmed;
    var id := IdOf(leg);
    longer, v := Call(steps, w, Create(leg));
    longer, v := EvolveOne(longer, v, w.truth.With(leg, LegTruth.Listed(id)));
    assert v.log[|v.log| - 1] == Sent(Create(leg));
    CreateSettles(v, leg, CONFIRMED);
    longer, v := SettleOne(longer, v, Create(leg), CONFIRMED, Some(id), TpslPayload(Some(id)));
  }

  /** It is recorded, read back live and reconciled. */
  lemma LegArmed(steps: seq<Step>, w: World, leg: Leg) returns (longer: seq<Step>, v: World)
    requires Reaches(steps, w) && w.plan == PLAN && Create(leg) !in w.effects && w.truth.Of(leg).NotSent?
    requires w.trade == if leg == StopLeg then BARE else STOPPED
    requires w.truth.entry == Open && (leg == TargetLeg ==> w.truth.stop == LegTruth.Listed(IdOf(StopLeg)))
    requires leg == TargetLeg ==> StopArmed(PLAN, w.log)
    ensures Reaches(longer, v) && StopArmed(PLAN, v.log)
    ensures At(v, Armed(w.trade, leg), w.effects[Create(leg) := Created(leg)], w.truth.With(leg, LegTruth.Listed(IdOf(leg))))
  {
    RowSteps();
    hide Reaches, RowStep, MayMove, MayFinish, StopArmed;
    var id := IdOf(leg);
    var record := Protection(leg, ACTIVE_TPSL);
    longer, v := LegCreated(steps, w, leg);
    PlainMove(v, Armed(w.trade, leg));
    longer, v := MoveOne(longer, v, Armed(w.trade, leg));
    ghost var recorded := v.log;
    longer, v := LookOne(longer, v, record);
    CreateSettles(v, leg, RECONCILED);
    longer, v := SettleOne(longer, v, Create(leg), RECONCILED, Some(id), TpslPayload(Some(id)));
    if leg == StopLeg {
      JustArmed(PLAN, recorded, record, Reconciled(Create(leg), TpslPayload(Some(id))));
    } else {
      StopArmedStays(PLAN, w.log, v.log);
    }
  }

  const BOTH_CREATED: map<EffectId, Effect> :=
    map[PlaceEntry := PLACED, Create(StopLeg) := Created(StopLeg), Create(TargetLeg) := Created(TargetLeg)]

  /** The stop stands while half of the entry is still working. */
  lemma Stopped() returns (steps: seq<Step>, w: World)
    ensures Reaches(steps, w) && StopArmed(PLAN, w.log)
    ensures At(w, STOPPED, map[PlaceEntry := PLACED, Create(StopLeg) := Created(StopLeg)],
               Truth(Open, LegTruth.Listed(1), NotSent))
  {
    RowSteps();
    hide Reaches, StopArmed, RowStep, MayMove;
    steps, w := EntryHalfFilled();
    steps, w := LegArmed(steps, w, StopLeg);
    ghost var armed := w.log;
    PlainMove(w, STOPPED);
    steps, w := MoveOne(steps, w, STOPPED);
    StopArmedStays(PLAN, armed, w.log);
  }

  /** Both protections stand while half of the entry is still working. */
  lemma Active() returns (steps: seq<Step>, w: World)
    ensures Reaches(steps, w) && At(w, HELD, BOTH_CREATED, Truth(Open, LegTruth.Listed(1), LegTruth.Listed(2)))
  {
    RowSteps();
    hide Reaches, StopArmed, RowStep, MayMove;
    steps, w := Stopped();
    steps, w := LegArmed(steps, w, TargetLeg);
    PlainMove(w, HELD);
    steps, w := MoveOne(steps, w, HELD);
  }

  // ------------------------------------ an emergency exit that closes nothing

  /** Flat, the entry gone, with the stop fired and its exit order filled. */
  const FIRED_VIEW := Snapshot([], [], [EXIT_ORDER], [Protection(StopLeg, DONE)])

  const CLOSING := STOPPED.(state := EXITING_EMERGENCY, closeClient := Some(Deterministic(0, CloseClient(EmergencyExit), 7)))
  const CLOSED := CLOSING.(state := FLAT)

  /** Every account read that still counts shows the stop fired. */
  ghost predicate EveryReadFired(log: seq<Event>) {
    forall i :: FreshFrom(log) <= i < |log| && log[i].Observed? ==>
      ProvenTrigger(PLAN, log[i].view, [], CLOSING.stopId, CLOSING.targetId, CLOSING.filled)
        == Done(Some(Trigger(StopLeg, EXIT_ID, 1.0, 89.0, 0.1)))
  }

  lemma FiredViewFacts()
    ensures PositionQuantity(PLAN, FIRED_VIEW.positions) == Done(0.0)
    ensures FindOrder(FIRED_VIEW, PLAN.EntryId()) == Done(None)
    ensures Faithful(PLAN, FIRED_VIEW, Truth(Closed, LegTruth.Gone(1), NotSent))
    ensures ProvenTrigger(PLAN, FIRED_VIEW, [], CLOSING.stopId, CLOSING.targetId, CLOSING.filled)
         == Done(Some(Trigger(StopLeg, EXIT_ID, 1.0, 89.0, 0.1)))
  {
    NoRowFound((o: OrderRecord) => o.id == Some(PLAN.EntryId()));
    FiredLeg(FIRED_VIEW, StopLeg);
  }

  /** What the trigger analysis makes of a view in which one leg fired. */
  lemma FiredLeg(view: Snapshot, leg: Leg)
    requires view.history == [EXIT_ORDER] && FindTpslById(view, Some(IdOf(leg))) == Done(Some(Protection(leg, DONE)))
    ensures LegEvidence(PLAN, view, [], leg, Some(IdOf(leg)), 1.0) == Done(Some(Trigger(leg, EXIT_ID, 1.0, 89.0, 0.1)))
    ensures ExitFilled(PLAN, view, 1.0)
  {
    hide FindTpslById;
    var fired := Protection(leg, DONE);
    OneRowFound(EXIT_ORDER, (o: OrderRecord) => o.id == Some(EXIT_ID));
    assert FindHistorical(view, EXIT_ID) == Done(Some(EXIT_ORDER));
    assert ValidTpsl(PLAN, leg, fired, false, false);
    assert fired in [fired] && TriggeredTpsl(fired);
    assert FirstTriggered([fired]) == fired;
    assert ValidateTrigger(PLAN, leg, EXIT_ORDER, 1.0) == Done(Trigger(leg, EXIT_ID, 1.0, 89.0, 0.1));
    assert LegTrigger(PLAN, view, leg, 1.0, [fired]) == Done(Some(Trigger(leg, EXIT_ID, 1.0, 89.0, 0.1)));
  }

  lemma ClosingSteps()
    ensures RowStep(PLAN, STOPPED, CLOSING) && RowStep(PLAN, CLOSING, CLOSED)
    ensures ManualExiting(CLOSING.state) && ExitOf(CLOSING.state) == EmergencyExit && ClosedBy(PLAN, CLOSED, EmergencyExit)
  {
  }

  /** The trade on its way out: the target could not be placed, the stop fired meanwhile, and every read since has
      shown it. */
  lemma EmergencyMeasuredNothing() returns (steps: seq<Step>, w: World)
    ensures Reaches(steps, w)
    ensures At(w, CLOSING, map[PlaceEntry := PLACED, Create(StopLeg) := Created(StopLeg)],
               Truth(Closed, LegTruth.Gone(1), NotSent))
    ensures LastRead(w.log) == Some(FIRED_VIEW) && ZeroSeen(PLAN, w.log) && EntrySeenGone(PLAN, w.log)
    ensures EveryReadFired(w.log)
  {
    FiredViewFacts();
    ClosingSteps();
    hide Reaches, RowStep, MayMove, StopArmed, Faithful, ProvenTrigger, PositionQuantity, ZeroSeen, EntrySeenGone, EveryReadFired;
    steps, w := Stopped();
    steps, w := EvolveOne(steps, w, Truth(Closed, LegTruth.Gone(1), NotSent));
    steps, w := ReadOne(steps, w, FIRED_VIEW);
    PlainMove(w, CLOSING);
    steps, w := MoveOne(steps, w, CLOSING);
    ghost var moved := w.log;
    steps, w := ReadOne(steps, w, FIRED_VIEW);
    steps, w := ReadOne(steps, w, FIRED_VIEW);
    TwoFiredReads(moved);
  }

  lemma TwoFiredReads(moved: seq<Event>)
    requires |moved| > 0 && moved[|moved| - 1].Moved?
    ensures
      var log := moved + [Observed(FIRED_VIEW)] + [Observed(FIRED_VIEW)];
      LastRead(log) == Some(FIRED_VIEW) && ZeroSeen(PLAN, log) && EntrySeenGone(PLAN, log) && EveryReadFired(log)
  {
    FiredViewFacts();
    hide ProvenTrigger, PositionQuantity;
    var once := moved + [Observed(FIRED_VIEW)];
    RowAppend(moved, Observed(FIRED_VIEW));
    RowAppend(once, Observed(FIRED_VIEW));
    JustSeen(PLAN, once, FIRED_VIEW, CLOSING);
    assert forall i :: |moved| <= i < |once| + 1 ==> (once + [Observed(FIRED_VIEW)])[i] == Observed(FIRED_VIEW);
  }

  /** A run of the fresh trade in which an emergency exit reaches FLAT although every read since it began shows the
      stop fired: the engine looks for a competing trigger only after it prepared a close. */
  lemma EmergencyFlatBesideFiredStop() returns (steps: seq<Step>, w: World)
    ensures Playable(Initial(PLAN), steps) && w == Play(Initial(PLAN), steps)
    ensures Inv(w) && w.trade.state == EXITING_EMERGENCY && w.truth == Truth(Closed, LegTruth.Gone(1), NotSent)
    ensures LastRead(w.log) == Some(FIRED_VIEW) && Faithful(PLAN, FIRED_VIEW, w.truth)
    ensures ProvenTrigger(PLAN, FIRED_VIEW, [], w.trade.stopId, w.trade.targetId, w.trade.filled)
         == Done(Some(Trigger(StopLeg, EXIT_ID, 1.0, 89.0, 0.1)))
    ensures EveryReadFired(w.log)
    ensures MayMove(w, w.trade.(state := FLAT)) && Inv(MovedTo(w, w.trade.(state := FLAT)))
  {
    steps, w := EmergencyMeasuredNothing();
    FiredViewFacts();
    hide Playable, Play, ProvenTrigger, PositionQuantity, ZeroSeen, EntrySeenGone, EveryReadFired, Faithful, Inv;
    TriggerCheckedBehindClose(w);
    InvMove(w, CLOSED);
  }

  // --------------------------------- a trigger exit beside a working entry

  /** Flat, one protection fired and the other withdrawn, while half of the entry is still working. */
  function FiredBesideEntry(leg: Leg): Snapshot {
    Snapshot([], [HALF_FILLED], [EXIT_ORDER], [Protection(leg, DONE), Protection(Other(leg), CANCELLED_TPSL)])
  }

  lemma FiredBesideFacts(leg: Leg)
    ensures PositionQuantity(PLAN, FiredBesideEntry(leg).positions) == Done(0.0)
    ensures ExitFilled(PLAN, FiredBesideEntry(leg), 1.0)
    ensures Faithful(PLAN, FiredBesideEntry(leg), Truth(Open, LegTruth.Gone(1), LegTruth.Gone(2)))
  {
    FiredExit(FiredBesideEntry(leg), leg);
    FiredBesideIsFaithful(leg);
    hide ExitFilled, Faithful;
  }

  lemma FiredBesideIsFaithful(leg: Leg)
    ensures Faithful(PLAN, FiredBesideEntry(leg), Truth(Open, LegTruth.Gone(1), LegTruth.Gone(2)))
  {
    var view := FiredBesideEntry(leg);
    OneRowFound(HALF_FILLED, (o: OrderRecord) => o.id == Some(PLAN.EntryId()));
    assert FindOrder(view, PLAN.EntryId()) == Done(Some(HALF_FILLED));
    hide FindOrder, Find;
    assert view.tpsl[0] == Protection(leg, DONE) && view.tpsl[1] == Protection(Other(leg), CANCELLED_TPSL);
  }

  lemma FiredExit(view: Snapshot, leg: Leg)
    requires EXIT_ORDER in view.history
    ensures ExitFilled(PLAN, view, 1.0)
  {
    assert ValidateTrigger(PLAN, leg, EXIT_ORDER, 1.0).Done?;
  }

  function Exiting(leg: Leg): Trade {
    HELD.(state := TriggerState(leg), closeClient := HELD.LegClient(leg))
  }

  lemma ExitingSteps(leg: Leg)
    ensures RowStep(PLAN, HELD, Exiting(leg)) && RowStep(PLAN, Exiting(leg), Exiting(leg).(state := FLAT))
  {
  }

  /** A run of the fresh trade in which the stop, or the target, took the trade to FLAT while its entry order is
      still open at the venue. */
  lemma FlatBesideOpenEntry(leg: Leg) returns (steps: seq<Step>, w: World)
    ensures Playable(Initial(PLAN), steps) && w == Play(Initial(PLAN), steps)
    ensures Inv(w) && w.trade.state == TriggerState(leg) && w.truth.entry == Open
    ensures MayMove(w, w.trade.(state := FLAT)) && Inv(MovedTo(w, w.trade.(state := FLAT)))
  {
    steps, w := ExitTriggered(leg);
    InvMove(w, w.trade.(state := FLAT));
  }

  lemma ExitTriggered(leg: Leg) returns (steps: seq<Step>, w: World)
    ensures Reaches(steps, w) && At(w, Exiting(leg), BOTH_CREATED, Truth(Open, LegTruth.Gone(1), LegTruth.Gone(2)))
    ensures MayMove(w, Exiting(leg).(state := FLAT))
  {
    var view := FiredBesideEntry(leg);
    FiredBesideFacts(leg);
    ExitingSteps(leg);
    hide Reaches, RowStep, Faithful, PositionQuantity, ExitFilled, ProvenTrigger;
    steps, w := Active();
    steps, w := EvolveOne(steps, w, Truth(Open, LegTruth.Gone(1), LegTruth.Gone(2)));
    ghost var before := w.log;
    steps, w := ReadOne(steps, w, view);
    JustSeen(PLAN, before, view, HELD);
    assert w.log[|before|] == Observed(view);
    assert ExitFillSeen(PLAN, w.log, HELD.filled);
    before := w.log;
    assert MayMove(w, Exiting(leg));
    hide MayMove;
    steps, w := MoveOne(steps, w, Exiting(leg));
    ExitFillStays(PLAN, before, w.log, HELD.filled);
    before := w.log;
    steps, w := ReadOne(steps, w, view);
    ExitFillStays(PLAN, before, w.log, HELD.filled);
    TriggeredMayFlat(w, leg);
  }

  lemma TriggeredMayFlat(w: World, leg: Leg)
    requires w.plan == PLAN && w.trade == Exiting(leg) && w.truth == Truth(Open, LegTruth.Gone(1), LegTruth.Gone(2))
    requires ExitFillSeen(PLAN, w.log, HELD.filled)
    ensures MayMove(w, Exiting(leg).(state := FLAT))
  {
    ExitingSteps(leg);
    hide RowStep, ExitFillSeen;
  }

  /** FLAT guarantees that the entry order is closed exactly for the exits the engine makes itself. */
  lemma EntryClosedExactlyAfterManualExit(s: TradeState)
    requires TriggerExiting(s) || ManualExiting(s)
    ensures ManualExiting(s) <==>
            (forall w, after :: Inv(w) && w.trade.state == s && MayMove(w, after) && after.state == FLAT ==>
               w.truth.entry == Closed)
  {
    if TriggerExiting(s) {
      var _, w := FlatBesideOpenEntry(if s == EXITING_STOP then StopLeg else TargetLeg);
      hide Inv, MayMove;
    }
  }
}
