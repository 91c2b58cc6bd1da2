/** The durable trade row, the effect identities, and the history of one trade: every journal write, venue call,
    account read, row transition, clock reading and beginning of a pass, and every await that raised, in order. */
module LifecycleLog {
  import opened Outcomes
  import opened Amounts
  import opened VenueRecords

  datatype TradeState =
    | RECEIVED | ENTRY_PENDING | PROTECTING | ACTIVE
    | EXITING_STOP | EXITING_TARGET | EXITING_TIMEOUT | EXITING_EMERGENCY
    | FLAT | CANCELLED | FAILED_BLOCKED

  /** The mutable columns of the trade row. A transition leaves an omitted column unchanged. */
  datatype Trade = Trade(
    state: TradeState,
    filled: real,
    firstFill: Option<int>,
    stopClient: Option<OrderId>,
    stopId: Option<TpslId>,
    targetClient: Option<OrderId>,
    targetId: Option<TpslId>,
    closeClient: Option<OrderId>)
  {
    function LegId(leg: Leg): Option<TpslId> {
      if leg == StopLeg then stopId else targetId
    }

    function LegClient(leg: Leg): Option<OrderId> {
      if leg == StopLeg then stopClient else targetClient
    }

    function WithLeg(leg: Leg, client: OrderId, id: TpslId): Trade {
      if leg == StopLeg then this.(stopClient := Some(client), stopId := Some(id))
      else this.(targetClient := Some(client), targetId := Some(id))
    }
  }

  const NewTrade := Trade(RECEIVED, 0.0, None, None, None, None, None, None)

  /** The eight deterministic effects of one trade. Their keys are digests of trade, role
      and operation, injective by assumption, so effects of other trades never meet these. */
  datatype EffectId =
    | PlaceEntry
    | CancelEntry
    | Create(leg: Leg)
    | CancelLeg(cancelled: Leg)
    | ClosePosition(exit: ManualExit)

  datatype Request = PlainRequest | CloseRequest(quantity: real) | CancelRequest(tpsl: TpslId)

  /** What the journal stores as the outcome of an effect. */
  datatype Payload =
    | OrderPayload(order: OrderRecord)
    | AbsentAndFlat
    | TpslPayload(tpsl: Option<TpslId>)
    | CancelPayload(id: Option<OrderId>, status: OrderStatus)
    | LegCancelPayload
    | Inactive
    | PositionFlat

  /** The awaits of the engine, by what they were for. */
  datatype Call =
    | Reading
    | Looking
    | Streaming
    | Admitting
    | Journalling(effect: EffectId)
    | Calling(effect: EffectId)
    | Moving(to: Trade)

  /** `Faulted` is an await that raised. It may have taken effect all the same, and what it did then stands before it. */
  datatype Event =
    | Prepared(id: EffectId, request: Request)
    | Sent(id: EffectId)
    | Confirmed(id: EffectId, payload: Payload)
    | Reconciled(id: EffectId, payload: Payload)
    | Observed(view: Snapshot)
    | ReadBack(record: TpslRecord)
    | Moved(before: Trade, after: Trade)
    | Began
    | Clocked(now: int)
    | Faulted(call: Call)

  // ------------------------------------------------------------- row rules

  /** The edges of the trade state machine. */
  predicate Declared(before: TradeState, after: TradeState) {
    match before
    case RECEIVED => after in {ENTRY_PENDING, CANCELLED}
    case ENTRY_PENDING => after in {ENTRY_PENDING, PROTECTING, CANCELLED}
    case PROTECTING => after in {PROTECTING, ACTIVE, EXITING_STOP, EXITING_TARGET, EXITING_EMERGENCY}
    case ACTIVE =>
      after in {ACTIVE, EXITING_STOP, EXITING_TARGET, EXITING_TIMEOUT, EXITING_EMERGENCY}
    case EXITING_STOP => after == FLAT
    case EXITING_TARGET => after == FLAT
    case EXITING_TIMEOUT => after in {FLAT, FAILED_BLOCKED}
    case EXITING_EMERGENCY => after in {FLAT, FAILED_BLOCKED}
    case FLAT => false
    case CANCELLED => false
    case FAILED_BLOCKED => false
  }

  predicate BeforeFill(s: TradeState) {
    s in {RECEIVED, ENTRY_PENDING, CANCELLED}
  }

  predicate ManualExiting(s: TradeState) {
    s in {EXITING_TIMEOUT, EXITING_EMERGENCY}
  }

  function ExitOf(s: TradeState): ManualExit {
    if s == EXITING_TIMEOUT then TimeoutExit else EmergencyExit
  }

  /** A leg's venue identity and its deterministic client ID are recorded together. */
  predicate LegRowOk(plan: Plan, t: Trade, leg: Leg) {
    t.LegClient(leg) == if t.LegId(leg).Some? then Some(plan.LegClientId(leg)) else None
  }

  /** What each state promises about the row. */
  predicate RowOk(plan: Plan, t: Trade) {
    && t.filled >= 0.0
    && LegRowOk(plan, t, StopLeg) && LegRowOk(plan, t, TargetLeg)
    && (BeforeFill(t.state) ==>
          t.filled == 0.0 && t.firstFill == None && t.stopId == None && t.targetId == None && t.closeClient == None)
    && (!BeforeFill(t.state) ==> t.filled > 0.0 && t.firstFill.Some?)
    && (t.state in {PROTECTING, ACTIVE} ==> t.closeClient == None)
    && (t.state == ACTIVE ==> t.stopId.Some? && t.targetId.Some?)
    && (t.state == EXITING_STOP ==> t.stopId.Some? && t.closeClient == t.stopClient)
    && (t.state == EXITING_TARGET ==> t.targetId.Some? && t.closeClient == t.targetClient)
    && (ManualExiting(t.state) ==> ClosedBy(plan, t, ExitOf(t.state)))
    && (t.state in {FLAT, FAILED_BLOCKED} ==> t.closeClient.Some?)
  }

  /** The row carries this trade's close client ID of this manual exit. */
  predicate ClosedBy(plan: Plan, t: Trade, exit: ManualExit) {
    && t.closeClient.Some? && t.closeClient.value.Deterministic?
    && t.closeClient.value.trade == plan.trade && t.closeClient.value.role == CloseClient(exit)
  }

  predicate ClosedManually(plan: Plan, t: Trade) {
    ClosedBy(plan, t, TimeoutExit) || ClosedBy(plan, t, EmergencyExit)
  }

  predicate Kept<T(==)>(before: Option<T>, after: Option<T>) {
    before.Some? ==> after == before
  }

  /** One durable transition: a declared edge that loses nothing already recorded. */
  predicate RowStep(plan: Plan, before: Trade, after: Trade) {
    && Declared(before.state, after.state)
    && before.filled <= after.filled
    && Kept(before.firstFill, after.firstFill)
    && Kept(before.stopClient, after.stopClient) && Kept(before.stopId, after.stopId)
    && Kept(before.targetClient, after.targetClient) && Kept(before.targetId, after.targetId)
    && Kept(before.closeClient, after.closeClient)
    && RowOk(plan, after)
  }

  // ------------------------------------------------------------ log rules

  /** The row after the transitions of `log`. */
  function Row(log: seq<Event>): Trade {
    if log == [] then NewTrade
    else if log[|log| - 1].Moved? then log[|log| - 1].after
    else Row(log[..|log| - 1])
  }

  /** After a transition, after a close was prepared, and when a new pass over the trade begins, what was read before
      no longer counts. */
  predicate Stales(e: Event) {
    e.Moved? || e.Began? || (e.Prepared? && e.id.ClosePosition?)
  }

  /** The position in `log` from which account reads still count. */
  function FreshFrom(log: seq<Event>): (i: nat)
    ensures i <= |log|
  {
    if log == [] then 0
    else if Stales(log[|log| - 1]) then |log|
    else FreshFrom(log[..|log| - 1])
  }

  /** The account reads in `log`. */
  function Reads(log: seq<Event>): nat {
    if log == [] then 0 else Reads(log[..|log| - 1]) + if log[|log| - 1].Observed? then 1 else 0
  }

  /** The most recent account read in `log`. */
  function LastRead(log: seq<Event>): Option<Snapshot> {
    if log == [] then None
    else if log[|log| - 1].Observed? then Some(log[|log| - 1].view)
    else LastRead(log[..|log| - 1])
  }

  lemma LastReadAppend(log: seq<Event>, e: Event)
    ensures LastRead(log + [e]) == if e.Observed? then Some(e.view) else LastRead(log)
  {
  }

  lemma {:induction false} LastReadIsSeen(log: seq<Event>) returns (i: nat)
    requires LastRead(log).Some?
    ensures i < |log| && log[i] == Observed(LastRead(log).value) && forall j :: i < j < |log| ==> !log[j].Observed?
  {
    i := |log| - 1;
    if !log[i].Observed? {
      i := LastReadIsSeen(log[..i]);
    }
  }

  /** Between `a` and `b` nothing was sent. */
  ghost predicate SendsNothing(a: seq<Event>, b: seq<Event>) {
    forall id :: Sent(id) in b ==> Sent(id) in a
  }

  /** Between `a` and `b` nothing was sent but cancellations of protective orders. */
  ghost predicate SendsOnlyCancels(a: seq<Event>, b: seq<Event>) {
    forall id :: Sent(id) in b && !id.CancelLeg? ==> Sent(id) in a
  }

  lemma CancelsChain()
    ensures forall a, b, c {:trigger SendsOnlyCancels(a, b), SendsOnlyCancels(b, c)} ::
      SendsOnlyCancels(a, b) && SendsOnlyCancels(b, c) ==> SendsOnlyCancels(a, c)
    ensures forall a {:trigger SendsOnlyCancels(a, a)} :: SendsOnlyCancels(a, a)
    ensures forall a, e: Event {:trigger a + [e]} :: (e.Sent? ==> e.id.CancelLeg?) ==> SendsOnlyCancels(a, a + [e])
  {
  }

  /** The venue calls in `log`. */
  function Sends(log: seq<Event>): nat {
    if log == [] then 0 else Sends(log[..|log| - 1]) + if log[|log| - 1].Sent? then 1 else 0
  }

  lemma CountAppend(log: seq<Event>, e: Event)
    ensures Reads(log + [e]) == Reads(log) + if e.Observed? then 1 else 0
    ensures Sends(log + [e]) == Sends(log) + if e.Sent? then 1 else 0
  {
  }

  predicate WasPrepared(log: seq<Event>, id: EffectId) {
    exists i :: 0 <= i < |log| && log[i].Prepared? && log[i].id == id
  }

  /** A complete account read showed the entry order absent from the open orders. */
  ghost predicate EntrySeenGone(plan: Plan, log: seq<Event>) {
    exists i :: 0 <= i < |log| && log[i].Observed? && FindOrder(log[i].view, plan.EntryId()) == Done(None)
  }

  /** The most recent account read showed the entry order absent and exactly this position. */
  predicate Measured(plan: Plan, log: seq<Event>, quantity: real) {
    match LastRead(log)
    case Some(view) => FindOrder(view, plan.EntryId()) == Done(None) && PositionForTrade(plan, view) == Done(quantity)
    case None => false
  }

  lemma MeasuredMeansGone(plan: Plan, log: seq<Event>, quantity: real)
    requires Measured(plan, log, quantity)
    ensures EntrySeenGone(plan, log)
  {
    var i := LastReadIsSeen(log);
  }

  /** An account read that still counts showed no position. */
  ghost predicate ZeroSeen(plan: Plan, log: seq<Event>) {
    exists i :: FreshFrom(log) <= i < |log| && log[i].Observed?
             && PositionQuantity(plan, log[i].view.positions) == Done(0.0)
  }

  /** The stop was read back live with the planned price and side, and then reconciled in the journal. */
  ghost predicate StopArmed(plan: Plan, log: seq<Event>) {
    exists i, j :: 0 <= i < j < |log|
      && log[i].ReadBack? && ValidTpsl(plan, StopLeg, log[i].record, true, false)
      && log[j].Reconciled? && log[j].id == Create(StopLeg) && log[j].payload == TpslPayload(log[i].record.id)
  }

  predicate IsOutcome(e: Event, id: EffectId) {
    (e.Confirmed? || e.Reconciled?) && e.id == id
  }

  /** The outcome of the effect that was recorded last. */
  function LastOutcome(log: seq<Event>, id: EffectId): Option<Payload> {
    if log == [] then None
    else if IsOutcome(log[|log| - 1], id) then Some(log[|log| - 1].payload)
    else LastOutcome(log[..|log| - 1], id)
  }

  lemma OutcomeAppend(log: seq<Event>, e: Event)
    ensures forall id :: LastOutcome(log + [e], id) == if IsOutcome(e, id) then Some(e.payload) else LastOutcome(log, id)
  {
  }

  lemma {:induction false} OutcomeIsLogged(log: seq<Event>, id: EffectId) returns (f: nat)
    requires LastOutcome(log, id).Some?
    ensures f < |log| && IsOutcome(log[f], id) && log[f].payload == LastOutcome(log, id).value
  {
    f := |log| - 1;
    if !IsOutcome(log[f], id) {
      f := OutcomeIsLogged(log[..f], id);
    }
  }

  /** The journal holds the close as filled in full for the quantity asked. */
  predicate FillRecorded(log: seq<Event>, exit: ManualExit, client: OrderId, quantity: real) {
    match LastOutcome(log, ClosePosition(exit))
    case Some(OrderPayload(o)) => FilledInFull(o, client, quantity)
    case _ => false
  }

  /** What one account read decides about a close: its order history shows the close filled in full, or says nothing
      and the journal does, and no stop or target of the trade has fired. */
  predicate WonOn(plan: Plan, view: Snapshot, t: Trade, recorded: bool, client: OrderId, quantity: real) {
    var found := FindHistorical(view, client);
    && found.Done?
    && (if found.value.Some? then FilledInFull(found.value.value, client, quantity) else recorded)
    && ProvenTrigger(plan, view, [], t.stopId, t.targetId, t.filled) == Done(None)
  }

  /** With the close in place, an account read showed no position, and a later one that the close won. */
  ghost predicate CloseWon(plan: Plan, log: seq<Event>, t: Trade, exit: ManualExit, quantity: real) {
    && t.closeClient.Some?
    && exists z, s ::
         && FreshFrom(log) <= z < s < |log| && log[z].Observed? && log[s].Observed?
         && PositionQuantity(plan, log[z].view.positions) == Done(0.0)
         && WonOn(plan, log[s].view, t, FillRecorded(log, exit, t.closeClient.value, quantity), t.closeClient.value, quantity)
  }

  /** An account read showed the completely filled exit order of a fired stop or target. */
  ghost predicate ExitFillSeen(plan: Plan, log: seq<Event>, held: real) {
    exists i :: 0 <= i < |log| && log[i].Observed? && ExitFilled(plan, log[i].view, held)
  }

  predicate TriggerExiting(s: TradeState) {
    s in {EXITING_STOP, EXITING_TARGET}
  }

  /** Everything known before a trade may be called FLAT. */
  ghost predicate FlatProven(plan: Plan, log: seq<Event>, before: Trade) {
    && before.closeClient.Some?
    && (TriggerExiting(before.state) ==> ExitFillSeen(plan, log, before.filled))
    && (ManualExiting(before.state) ==>
          && ZeroSeen(plan, log)
          && EntrySeenGone(plan, log)
          && (before.state == EXITING_TIMEOUT ==> WasPrepared(log, ClosePosition(TimeoutExit)))
          && forall q | Prepared(ClosePosition(ExitOf(before.state)), CloseRequest(q)) in log ::
               CloseWon(plan, log, before, ExitOf(before.state), q))
  }

  /** The clock was read while the entry window was open. */
  ghost predicate InWindow(plan: Plan, log: seq<Event>) {
    exists i :: 0 <= i < |log| && log[i].Clocked? && plan.eligibleAt <= log[i].now <= plan.expiresAt
  }

  /** The clock was read when the trade had been held as long as it may be. */
  ghost predicate HeldTooLong(plan: Plan, log: seq<Event>, t: Trade) {
    t.firstFill.Some? && exists i :: 0 <= i < |log| && log[i].Clocked? && t.firstFill.value + plan.maxHolding <= log[i].now
  }

  /** The account shows neither the entry order nor a position. */
  predicate ShowsNothing(plan: Plan, e: Event) {
    e.Observed? && FindOrder(e.view, plan.EntryId()) == Done(None) && PositionForTrade(plan, e.view) == Done(0.0)
  }

  /** The record is the recorded outcome of the placement. */
  predicate IsAnswer(e: Event, o: OrderRecord) {
    IsOutcome(e, PlaceEntry) && e.payload == OrderPayload(o)
  }

  /** What is known of the entry order itself: the recorded outcome of its placement; that outcome marked CANCELED, once
      a read that still counts showed nothing left of it; or a record in such a read. */
  ghost predicate EntryShown(plan: Plan, log: seq<Event>, o: OrderRecord) {
    || (exists i :: 0 <= i < |log| && IsAnswer(log[i], o))
    || (exists z :: FreshFrom(log) <= z < |log| && log[z].Observed? && (o in log[z].view.orders || o in log[z].view.history))
    || (exists i, z :: 0 <= i < |log| && FreshFrom(log) <= z < |log| && ShowsNothing(plan, log[z])
          && IsOutcome(log[i], PlaceEntry) && log[i].payload.OrderPayload?
          && o == log[i].payload.order.(status := CANCELED))
  }

  /** The account shows this much of a position, or more than was approved when this is all that was approved. */
  predicate ShowsFill(plan: Plan, view: Snapshot, filled: real) {
    || PositionForTrade(plan, view) == Done(filled)
    || (PositionForTrade(plan, view).Done? && filled == Min(PositionForTrade(plan, view).value, plan.quantity))
    || (PositionQuantity(plan, view.positions).Done?
        && filled == Min(PositionQuantity(plan, view.positions).value, plan.quantity))
  }

  /** A fill of this much was seen: in the position, by a read that still counts, or in the entry order's own record. */
  ghost predicate FillShown(plan: Plan, log: seq<Event>, filled: real) {
    || (exists z :: FreshFrom(log) <= z < |log| && log[z].Observed? && ShowsFill(plan, log[z].view, filled))
    || (exists o :: EntryShown(plan, log, o) && ValidateEntry(plan, o).Done? && ValidateEntry(plan, o).value.filled == filled)
  }

  /** The entry never filled and never will: it was never prepared, it was reconciled as absent with nothing held, or
      its own record is terminal without a fill. */
  ghost predicate UnfilledShown(plan: Plan, log: seq<Event>) {
    || !WasPrepared(log, PlaceEntry)
    || (exists i :: 0 <= i < |log| && IsOutcome(log[i], PlaceEntry) && log[i].payload == AbsentAndFlat)
    || (exists o :: EntryShown(plan, log, o) && ValidateEntry(plan, o).Done? && ValidateEntry(plan, o).value.filled <= 0.0
          && o.status in {CANCELED, REJECTED, EXPIRED, REPLACED})
  }

  /** The fill is dated at the eligibility of the decision, or between that, save for the skew, and a clock reading. */
  ghost predicate DateShown(plan: Plan, log: seq<Event>, at: int) {
    at == plan.eligibleAt
    || exists i :: 0 <= i < |log| && log[i].Clocked?
         && (plan.eligibleAt - TIMESTAMP_SKEW <= log[i].now ==> plan.eligibleAt - TIMESTAMP_SKEW <= at <= log[i].now)
  }

  /** What a transition records had been seen before. */
  ghost predicate MoveShown(plan: Plan, log: seq<Event>, before: Trade, after: Trade) {
    && (after.filled != before.filled ==> FillShown(plan, log, after.filled))
    && (after.firstFill != before.firstFill ==> after.firstFill.Some? && DateShown(plan, log, after.firstFill.value))
    && (after.state == EXITING_TIMEOUT ==> HeldTooLong(plan, log, before))
    && (after.state == CANCELLED && before.state == ENTRY_PENDING ==> UnfilledShown(plan, log))
  }

  /** `e` may follow `prefix`. */
  ghost predicate StepOk(plan: Plan, prefix: seq<Event>, e: Event) {
    match e
    case Prepared(id, request) =>
      && !WasPrepared(prefix, id)
      && (id.Create? ==> Row(prefix).state == PROTECTING)
      && (id.ClosePosition? ==> request.CloseRequest? && request.quantity > 0.0 && Measured(plan, prefix, request.quantity)
                                && Row(prefix).state == if id.exit == TimeoutExit then EXITING_TIMEOUT else EXITING_EMERGENCY)
    case Sent(id) =>
      && WasPrepared(prefix, id)
      && Sent(id) !in prefix
      && (id == PlaceEntry ==> InWindow(plan, prefix))
      && (id.Create? ==> Row(prefix).state == PROTECTING)
      && (id == Create(TargetLeg) ==> StopArmed(plan, prefix))
    case Confirmed(id, _) => Sent(id) in prefix
    case Reconciled(id, _) => WasPrepared(prefix, id)
    case Moved(before, after) =>
      && before == Row(prefix)
      && RowStep(plan, before, after)
      && MoveShown(plan, prefix, before, after)
      && (TriggerExiting(after.state) ==> ZeroSeen(plan, prefix) && ExitFillSeen(plan, prefix, before.filled))
      && (after.state == FLAT ==> FlatProven(plan, prefix, before))
    case _ => true
  }

  ghost predicate Legal(plan: Plan, log: seq<Event>) {
    forall i :: 0 <= i < |log| ==> StepOk(plan, log[..i], log[i])
  }

  lemma LegalAppend(plan: Plan, log: seq<Event>, e: Event)
    requires Legal(plan, log) && StepOk(plan, log, e)
    ensures Legal(plan, log + [e])
  {
    var longer := log + [e];
    forall i | 0 <= i < |longer| ensures StepOk(plan, longer[..i], longer[i]) {
      if i < |log| {
        assert longer[..i] == log[..i];
      } else {
        assert longer[..i] == log;
      }
    }
  }

  /** A crash keeps a prefix of the history, and every prefix of a legal history is legal. */
  lemma LegalPrefix(plan: Plan, log: seq<Event>, n: nat)
    requires Legal(plan, log) && n <= |log|
    ensures Legal(plan, log[..n])
  {
    forall i | 0 <= i < n ensures StepOk(plan, log[..n][..i], log[..n][i]) {
      assert log[..n][..i] == log[..i];
    }
  }

  lemma RowAppend(log: seq<Event>, e: Event)
    ensures Row(log + [e]) == if e.Moved? then e.after else Row(log)
    ensures FreshFrom(log + [e]) == if Stales(e) then |log| + 1 else FreshFrom(log)
  {
  }

  // --------------------------------------------------------------- theorems

  lemma NotSentAgain(plan: Plan, log: seq<Event>, i: nat, j: nat)
    requires Legal(plan, log) && i < j < |log| && (log[i].Sent? || log[j].Sent?)
    ensures log[i] != log[j]
  {
  }

  /** No effect reaches the venue twice, and none before its journal row is durable. */
  lemma SentAtMostOnceAndPreparedFirst(plan: Plan, log: seq<Event>, i: nat)
    requires Legal(plan, log) && i < |log| && log[i].Sent?
    ensures exists k :: 0 <= k < i && log[k].Prepared? && log[k].id == log[i].id
    ensures forall j :: 0 <= j < |log| && j != i ==> log[j] != log[i]
  {
  }

  /** A target is only ever sent behind a stop that was read back live and reconciled. */
  lemma TargetOnlyBehindLiveStop(plan: Plan, log: seq<Event>, n: nat)
    requires Legal(plan, log) && n < |log| && log[n] == Sent(Create(TargetLeg))
    ensures exists p, i, j :: 0 <= p < |log| && 0 <= i < j < n
                      && log[p].Prepared? && log[p].id == Create(TargetLeg)
                      && log[i].ReadBack? && log[i].record.status in {WAIT_ORDER, ACTIVE_TPSL}
                      && PlannedTpsl(plan, StopLeg, log[i].record)
                      && log[i].record.price.Number? && Close(log[i].record.price.value, plan.stopPrice, REL_TOL)
                      && log[j] == Reconciled(Create(StopLeg), TpslPayload(log[i].record.id))
  {
  }

  predicate Terminal(s: TradeState) {
    s in {FLAT, CANCELLED, FAILED_BLOCKED}
  }

  /** How far a trade has come. */
  function Rank(s: TradeState): nat {
    match s
    case RECEIVED => 0
    case ENTRY_PENDING => 1
    case PROTECTING => 2
    case ACTIVE => 3
    case EXITING_STOP => 4
    case EXITING_TARGET => 4
    case EXITING_TIMEOUT => 4
    case EXITING_EMERGENCY => 4
    case _ => 5
  }

  /** `later` keeps everything `earlier` had recorded, and no state that was left is ever entered again. */
  predicate RowAdvanced(earlier: Trade, later: Trade) {
    && Rank(earlier.state) <= Rank(later.state)
    && (Rank(earlier.state) == Rank(later.state) ==> earlier.state == later.state)
    && earlier.filled <= later.filled
    && Kept(earlier.firstFill, later.firstFill)
    && Kept(earlier.stopId, later.stopId) && Kept(earlier.targetId, later.targetId)
    && Kept(earlier.closeClient, later.closeClient)
    && (Terminal(earlier.state) ==> later == earlier)
  }

  lemma RowStepAdvances(plan: Plan, a: Trade, b: Trade, c: Trade)
    requires RowAdvanced(a, b) && RowStep(plan, b, c)
    ensures RowAdvanced(a, c)
  {
  }

  /** Terminal rows absorb, filled quantity never falls, and recorded identities never change:
      between any transition of a history and its end, however far apart. */
  lemma {:induction false} RowsOnlyAdvance(plan: Plan, log: seq<Event>, i: nat)
    requires Legal(plan, log) && i < |log| && log[i].Moved?
    ensures RowAdvanced(log[i].after, Row(log)) && RowOk(plan, Row(log))
    decreases |log|
  {
    hide Legal, StepOk, RowStep, RowAdvanced, RowOk;
    var n := |log| - 1;
    if log[n].Moved? { MovedStep(plan, log, n); }
    if i < n {
      LegalPrefix(plan, log, n);
      assert log[..n][i] == log[i];
      RowsOnlyAdvance(plan, log[..n], i);
      if log[n].Moved? {
        RowStepAdvances(plan, log[i].after, Row(log[..n]), log[n].after);
      }
    } else {
      RowAdvancedReflexive(log[n].after);
    }
  }

  lemma RowAdvancedReflexive(t: Trade)
    ensures RowAdvanced(t, t)
  {
  }

  lemma MovedStep(plan: Plan, log: seq<Event>, i: nat)
    requires Legal(plan, log) && i < |log| && log[i].Moved?
    ensures log[i].before == Row(log[..i]) && RowStep(plan, log[i].before, log[i].after) && RowOk(plan, log[i].after)
  {
    assert StepOk(plan, log[..i], log[i]);
  }

  /** The entry is only ever sent behind a clock reading inside its window. */
  lemma EntrySentInWindow(plan: Plan, log: seq<Event>, n: nat)
    requires Legal(plan, log) && n < |log| && log[n] == Sent(PlaceEntry)
    ensures exists i :: 0 <= i < n && log[i].Clocked? && plan.eligibleAt <= log[i].now <= plan.expiresAt
  {
    assert StepOk(plan, log[..n], log[n]);
    var i :| 0 <= i < n && log[..n][i].Clocked? && plan.eligibleAt <= log[..n][i].now <= plan.expiresAt;
    assert log[i] == log[..n][i];
  }

  /** A trade is only ever timed out behind a clock reading at which it had been held as long as it may be. */
  lemma TimeoutWasDue(plan: Plan, log: seq<Event>, n: nat)
    requires Legal(plan, log) && n < |log| && log[n].Moved? && log[n].after.state == EXITING_TIMEOUT
    ensures log[n].before.firstFill.Some?
    ensures exists i :: 0 <= i < n && log[i].Clocked? && log[n].before.firstFill.value + plan.maxHolding <= log[i].now
  {
    assert HeldTooLong(plan, log[..n], log[n].before) by { assert StepOk(plan, log[..n], log[n]); }
    var i :| 0 <= i < n && log[..n][i].Clocked? && log[n].before.firstFill.value + plan.maxHolding <= log[..n][i].now;
    assert log[i] == log[..n][i];
  }

  /** What any transition records had been seen before it. */
  lemma MoveWasShown(plan: Plan, log: seq<Event>, n: nat)
    requires Legal(plan, log) && n < |log| && log[n].Moved?
    ensures MoveShown(plan, log[..n], log[n].before, log[n].after)
  {
    assert StepOk(plan, log[..n], log[n]);
  }

  /** A recorded fill beyond the approved quantity was read off the account as exactly this position, by the reads of
      the pass that recorded it. */
  lemma OverfillWasRead(plan: Plan, log: seq<Event>, n: nat)
    requires Legal(plan, log) && n < |log| && log[n].Moved? && plan.quantity > 0.0
    requires log[n].after.filled != log[n].before.filled && log[n].after.filled > plan.quantity
    ensures exists z :: 0 <= z < n && log[z].Observed? && PositionForTrade(plan, log[z].view) == Done(log[n].after.filled)
                     && forall k :: z < k < n ==> !Stales(log[k])
  {
    var prefix, filled := log[..n], log[n].after.filled;
    MoveWasShown(plan, log, n);
    hide Legal, EntryShown, PositionForTrade, PositionQuantity;
    var z :| FreshFrom(prefix) <= z < |prefix| && prefix[z].Observed? && ShowsFill(plan, prefix[z].view, filled);
    NothingStales(prefix);
    assert log[z] == prefix[z];
    assert forall k :: z < k < n ==> log[k] == prefix[k];
  }

  /** A close effect is prepared only after the entry order was seen gone; the fact survives to any later point. */
  lemma CloseOnlyAfterEntryGone(plan: Plan, log: seq<Event>, exit: ManualExit)
    requires Legal(plan, log) && WasPrepared(log, ClosePosition(exit))
    ensures EntrySeenGone(plan, log)
  {
    var n :| 0 <= n < |log| && log[n].Prepared? && log[n].id == ClosePosition(exit);
    assert Measured(plan, log[..n], log[n].request.quantity) by { assert StepOk(plan, log[..n], log[n]); }
    hide Legal, StepOk, Measured;
    MeasuredMeansGone(plan, log[..n], log[n].request.quantity);
    assert forall i :: 0 <= i < n ==> log[..n][i] == log[i];
  }

  /** A close is prepared for exactly the position of the last account read before it, which no longer listed
      the entry order. */
  lemma CloseIsMeasured(plan: Plan, log: seq<Event>, n: nat)
    requires Legal(plan, log) && n < |log| && log[n].Prepared? && log[n].id.ClosePosition?
    ensures log[n].request.CloseRequest? && log[n].request.quantity > 0.0
    ensures exists i ::
      && 0 <= i < n && log[i].Observed? && (forall j :: i < j < n ==> !log[j].Observed?)
      && FindOrder(log[i].view, plan.EntryId()) == Done(None)
      && PositionForTrade(plan, log[i].view) == Done(log[n].request.quantity)
  {
    assert StepOk(plan, log[..n], log[n]);
    var i := LastReadIsSeen(log[..n]);
    assert log[i] == log[..n][i];
    assert forall j :: i < j < n ==> log[j] == log[..n][j];
  }

  /** What had been seen before any transition into FLAT out of a timeout or emergency exit, by reads that no
      transition, no close and no new pass over the trade made stale. */
  lemma FlatNeedsProof(plan: Plan, log: seq<Event>, n: nat)
    requires Legal(plan, log) && n < |log|
    requires log[n].Moved? && log[n].after.state == FLAT && ManualExiting(log[n].before.state)
    ensures exists z :: 0 <= z < n && log[z].Observed? && PositionQuantity(plan, log[z].view.positions) == Done(0.0)
                 && forall k :: z < k < n ==> !Stales(log[k])
    ensures exists g :: 0 <= g < n && log[g].Observed? && FindOrder(log[g].view, plan.EntryId()) == Done(None)
    ensures log[n].before.state == EXITING_TIMEOUT ==> WasPrepared(log[..n], ClosePosition(TimeoutExit))
  {
    hide RowStep, StopArmed, ExitFillSeen, Row, CloseWon, PositionQuantity, FindOrder;
    var prefix, before := log[..n], log[n].before;
    assert FlatProven(plan, prefix, before) by { assert StepOk(plan, prefix, log[n]); }
    hide Legal, StepOk;
    var z :| FreshFrom(prefix) <= z < |prefix| && prefix[z].Observed?
          && PositionQuantity(plan, prefix[z].view.positions) == Done(0.0);
    NothingStales(prefix);
    assert log[z] == prefix[z];
    forall k | z < k < n ensures !Stales(log[k]) {
      assert log[k] == prefix[k];
    }
    var g :| 0 <= g < |prefix| && prefix[g].Observed? && FindOrder(prefix[g].view, plan.EntryId()) == Done(None);
    assert log[g] == prefix[g];
  }

  /** What had been seen after a close was prepared, before the trade it closed went FLAT: first the position gone,
      then, on a later read, the close filled in full for exactly the quantity asked and no fired stop or target. */
  lemma FlatNeedsWonClose(plan: Plan, log: seq<Event>, p: nat, n: nat)
    requires Legal(plan, log) && p < n < |log|
    requires log[n].Moved? && log[n].after.state == FLAT && ManualExiting(log[n].before.state)
    requires log[p].Prepared? && log[p].id == ClosePosition(ExitOf(log[n].before.state))
    ensures log[p].request.CloseRequest? && log[n].before.closeClient.Some?
    ensures
      var t, exit, client, q := log[n].before, log[p].id.exit, log[n].before.closeClient.value, log[p].request.quantity;
      exists z, s ::
        && p < z < s < n && (forall k :: z < k < n ==> !Stales(log[k]))
        && log[z].Observed? && PositionQuantity(plan, log[z].view.positions) == Done(0.0)
        && log[s].Observed? && WonOn(plan, log[s].view, t, FillRecorded(log[..n], exit, client, q), client, q)
  {
    hide RowStep, StopArmed, ExitFillSeen, EntrySeenGone, ZeroSeen, Row, WonOn, FillRecorded, PositionQuantity, Measured;
    var prefix, before, q := log[..n], log[n].before, log[p].request.quantity;
    assert log[p].request.CloseRequest? by { assert StepOk(plan, log[..p], log[p]); }
    assert prefix[p] == Prepared(ClosePosition(ExitOf(before.state)), CloseRequest(q));
    assert CloseWon(plan, prefix, before, ExitOf(before.state), q) by { assert StepOk(plan, prefix, log[n]); }
    hide Legal, StepOk, FlatProven;
    var client := before.closeClient.value;
    var z, s :| FreshFrom(prefix) <= z < s < |prefix| && prefix[z].Observed? && prefix[s].Observed?
             && PositionQuantity(plan, prefix[z].view.positions) == Done(0.0)
             && WonOn(plan, prefix[s].view, before, FillRecorded(prefix, ExitOf(before.state), client, q), client, q);
    NothingStales(prefix);
    assert log[z] == prefix[z] && log[s] == prefix[s];
    forall k | z < k < n ensures !Stales(log[k]) {
      assert log[k] == prefix[k];
    }
  }

  /** A recorded fill of a close is younger than the close itself. */
  lemma FillFollowsClose(plan: Plan, log: seq<Event>, exit: ManualExit, client: OrderId, q: real)
    requires Legal(plan, log) && FillRecorded(log, exit, client, q)
    ensures exists p, f :: 0 <= p < f < |log| && log[p].Prepared? && log[p].id == ClosePosition(exit)
              && IsOutcome(log[f], ClosePosition(exit)) && log[f].payload.OrderPayload?
              && FilledInFull(log[f].payload.order, client, q)
  {
    hide FilledInFull;
    var f := OutcomeIsLogged(log, ClosePosition(exit));
    assert StepOk(plan, log[..f], log[f]);
    var prepared := f;
    if log[f].Confirmed? {
      var sent :| 0 <= sent < f && log[..f][sent] == Sent(ClosePosition(exit));
      assert log[sent] == log[..f][sent];
      assert StepOk(plan, log[..sent], log[sent]);
      prepared := sent;
    }
    var p :| 0 <= p < prepared && log[..prepared][p].Prepared? && log[..prepared][p].id == ClosePosition(exit);
    assert log[p] == log[..prepared][p];
  }

  lemma {:induction false} EnteredByMove(log: seq<Event>) returns (m: nat)
    requires Row(log).state != RECEIVED
    ensures m < |log| && log[m].Moved? && log[m].after == Row(log) && forall k :: m < k < |log| ==> !log[k].Moved?
  {
    m := |log| - 1;
    if !log[m].Moved? {
      m := EnteredByMove(log[..m]);
    }
  }

  /** What had been seen before any transition into FLAT out of a stop or target exit: the position was zero
      before the exit was recorded, and the exit order filled completely for the held quantity. */
  lemma FlatAfterTriggerNeedsFill(plan: Plan, log: seq<Event>, n: nat)
    requires Legal(plan, log) && n < |log|
    requires log[n].Moved? && log[n].after.state == FLAT && TriggerExiting(log[n].before.state)
    ensures exists z, m :: 0 <= z < m < n && log[z].Observed? && PositionQuantity(plan, log[z].view.positions) == Done(0.0)
                        && log[m].Moved? && log[m].after == log[n].before && forall k :: z < k < n && k != m ==> !log[k].Moved?
    ensures exists f :: 0 <= f < n && log[f].Observed? && ExitFilled(plan, log[f].view, log[n].before.filled)
  {
    hide RowStep, EntrySeenGone, CloseWon, PositionQuantity, ExitFilled;
    var prefix, before := log[..n], log[n].before;
    assert StepOk(plan, prefix, log[n]);
    var f :| 0 <= f < |prefix| && prefix[f].Observed? && ExitFilled(plan, prefix[f].view, before.filled);
    assert log[f] == prefix[f];
    var m := EnteredByMove(prefix);
    assert log[m] == prefix[m];
    assert forall k :: m < k < n ==> !log[k].Moved? by {
      assert forall k :: m < k < n ==> log[k] == prefix[k];
    }
    ZeroBefore(plan, log, m);
    var z :| 0 <= z < m && log[z].Observed? && PositionQuantity(plan, log[z].view.positions) == Done(0.0)
          && forall k :: z < k < m ==> !log[k].Moved?;
  }

  lemma ZeroBefore(plan: Plan, log: seq<Event>, m: nat)
    requires Legal(plan, log) && m < |log| && log[m].Moved? && TriggerExiting(log[m].after.state)
    ensures exists z :: 0 <= z < m && log[z].Observed? && PositionQuantity(plan, log[z].view.positions) == Done(0.0)
                     && forall k :: z < k < m ==> !log[k].Moved?
  {
    hide RowStep, FlatProven, ExitFillSeen, EntrySeenGone;
    var prefix := log[..m];
    assert ZeroSeen(plan, prefix) by { assert StepOk(plan, prefix, log[m]); }
    var z :| FreshFrom(prefix) <= z < |prefix| && prefix[z].Observed?
          && PositionQuantity(plan, prefix[z].view.positions) == Done(0.0);
    NothingStales(prefix);
    assert log[z] == prefix[z];
    forall k | z < k < m ensures !log[k].Moved? {
      assert log[k] == prefix[k];
    }
  }

  lemma {:induction false} NothingStales(log: seq<Event>)
    ensures forall k :: FreshFrom(log) <= k < |log| ==> !Stales(log[k])
  {
    if log != [] && !Stales(log[|log| - 1]) {
      NothingStales(log[..|log| - 1]);
    }
  }
}
