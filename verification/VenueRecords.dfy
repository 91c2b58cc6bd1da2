/** Account snapshots as the venue reports them, and the engine's checks on single records. */
module VenueRecords {
  import opened Outcomes
  import opened Amounts

  datatype Side = BUY | SELL

  /** The two protective orders of a trade. */
  datatype Leg = StopLeg | TargetLeg

  /** The two ways the engine itself closes a position. */
  datatype ManualExit = TimeoutExit | EmergencyExit

  datatype ClientRole = EntryClient | LegClient(leg: Leg) | CloseClient(exit: ManualExit)

  /** Client order IDs are a day stamp and an injective digest of trade and role;
      every other order ID at the venue is `Foreign`. */
  datatype OrderId = Deterministic(trade: nat, role: ClientRole, day: int) | Foreign(code: nat)

  /** TP/SL identities are assigned by the venue. */
  type TpslId = nat
  type Symbol = nat

  /** The immutable part of an approved decision that the lifecycle reads. */
  datatype Plan = Plan(
    trade: nat,
    symbol: Symbol,
    side: Side,
    leverage: real,
    quantity: real,
    worstPrice: real,
    stopPrice: real,
    targetPrice: real,
    day: int,
    eligibleAt: int,
    expiresAt: int,
    maxHolding: int)
  {
    function EntryId(): OrderId {
      Deterministic(trade, EntryClient, day)
    }

    function LegClientId(leg: Leg): OrderId {
      Deterministic(trade, LegClient(leg), day)
    }

    function LegPrice(leg: Leg): real {
      match leg
      case StopLeg => stopPrice
      case TargetLeg => targetPrice
    }

    function Slack(): real {
      Tolerance(quantity)
    }
  }

  datatype OrderKind = LIMIT | MARKET | OTHER_KIND

  datatype OrderStatus =
    | NEW | PARTIALLY_FILLED | FILLED | CANCELED | REJECTED | EXPIRED | REPLACED | UNKNOWN_STATUS

  datatype OrderRecord = OrderRecord(
    id: Option<OrderId>,
    instrument: Symbol,
    side: Option<Side>,
    kind: OrderKind,
    limitPrice: Num,
    status: OrderStatus,
    quantity: Num,
    unfilled: Num,
    averagePrice: Num,
    fee: Num,
    groupAllowed: bool)

  datatype TpslStatus =
    | WAIT_ORDER | ACTIVE_TPSL | PROCESS | TRIGGERED | DONE | CANCELLED_TPSL | UNKNOWN_TPSL

  datatype TpslRecord = TpslRecord(
    id: Option<TpslId>,
    instrument: Symbol,
    leg: Option<Leg>,
    side: Option<Side>,
    quantity: Num,
    price: Num,
    parent: Option<OrderId>,
    status: TpslStatus,
    triggerOrder: Option<OrderId>,
    triggeredQuantity: Num,
    cleanReason: bool)

  datatype PositionRow = PositionRow(
    instrument: Symbol,
    side: Option<Side>,
    quantity: Num,
    leverage: Num)

  datatype Snapshot = Snapshot(
    positions: seq<PositionRow>,
    orders: seq<OrderRecord>,
    history: seq<OrderRecord>,
    tpsl: seq<TpslRecord>)

  // ---------------------------------------------------------------- finding

  /** The unique row meeting `p`; two such rows are an error even when equal. */
  function Find<T(!new)>(rows: seq<T>, p: T -> bool): (r: Outcome<Option<T>>)
    ensures !r.Crashed?
    ensures r == Done(None) <==> forall x :: x in rows ==> !p(x)
    ensures r.Done? && r.value.Some? ==>
      r.value.value in rows && p(r.value.value) && forall x :: x in rows && p(x) ==> x == r.value.value
  {
    if rows == [] then Done(None)
    else
      var rest := Find(rows[1..], p);
      assert rows == [rows[0]] + rows[1..];
      if !p(rows[0]) then rest
      else if rest == Done(None) then Done(Some(rows[0]))
      else Raised
  }

  function FindOrder(view: Snapshot, id: OrderId): (r: Outcome<Option<OrderRecord>>)
    ensures !r.Crashed?
    ensures r == Done(None) <==> forall o :: o in view.orders ==> o.id != Some(id)
    ensures r.Done? && r.value.Some? ==> r.value.value in view.orders && r.value.value.id == Some(id)
  {
    Find(view.orders, (o: OrderRecord) => o.id == Some(id))
  }

  function FindHistorical(view: Snapshot, id: OrderId): (r: Outcome<Option<OrderRecord>>)
    ensures !r.Crashed?
    ensures r.Done? && r.value.Some? ==> r.value.value in view.history && r.value.value.id == Some(id)
  {
    Find(view.history, (o: OrderRecord) => o.id == Some(id))
  }

  function FindTpslById(view: Snapshot, id: Option<TpslId>): (r: Outcome<Option<TpslRecord>>)
    ensures !r.Crashed?
    ensures r == Done(None) && id.Some? ==> forall t :: t in view.tpsl ==> t.id != id
    ensures r.Done? && r.value.Some? ==> id.Some? && r.value.value in view.tpsl && r.value.value.id == id
    ensures r.Done? && r.value.Some? ==> forall t :: t in view.tpsl && t.id == id ==> t == r.value.value
  {
    if id == None then Done(None)
    else Find(view.tpsl, (t: TpslRecord) => t.id == id)
  }

  /** The one TP/SL whose type, price and parent are those of `leg`. */
  function FindTpsl(plan: Plan, view: Snapshot, leg: Leg): (r: Outcome<Option<TpslRecord>>)
    ensures !r.Crashed?
    ensures r.Done? && r.value.Some? ==>
      r.value.value in view.tpsl && r.value.value.leg == Some(leg) && r.value.value.parent == Some(plan.EntryId())
  {
    if exists t :: t in view.tpsl && t.leg == Some(leg) && !Defaulted(t.price).Done? then Raised
    else
      Find(view.tpsl, (t: TpslRecord) =>
        t.leg == Some(leg) && Defaulted(t.price).Done?
        && Close(Defaulted(t.price).value, plan.LegPrice(leg), 0.0) && t.parent == Some(plan.EntryId()))
  }

  // -------------------------------------------------------------- positions

  /** The summed quantity of every row of the plan's instrument. */
  function PositionQuantity(plan: Plan, rows: seq<PositionRow>): (r: Outcome<real>)
    ensures !r.Crashed?
    ensures r.Done? ==> r.value >= 0.0
    ensures r.Done? && r.value > 0.0 ==>
      exists p :: p in rows && p.instrument == plan.symbol && p.quantity.Number? && p.quantity.value > 0.0
    ensures r == Done(0.0) ==>
      forall p :: p in rows && p.instrument == plan.symbol ==> p.quantity == Number(0.0)
  {
    if rows == [] then Done(0.0)
    else
      assert rows == [rows[0]] + rows[1..];
      var rest :- PositionQuantity(plan, rows[1..]);
      if rows[0].instrument != plan.symbol then Done(rest)
      else
        var here :- Required(rows[0].quantity);
        Done(here + rest)
  }

  /** The quantity is a sum: reading two lists of rows is reading each of them. */
  lemma {:induction false} PositionQuantityAdds(plan: Plan, a: seq<PositionRow>, b: seq<PositionRow>)
    ensures PositionQuantity(plan, a + b).Done? <==> PositionQuantity(plan, a).Done? && PositionQuantity(plan, b).Done?
    ensures PositionQuantity(plan, a + b).Done? ==>
      PositionQuantity(plan, a + b).value == PositionQuantity(plan, a).value + PositionQuantity(plan, b).value
    ensures forall p: PositionRow :: p.instrument != plan.symbol ==> PositionQuantity(plan, [p]) == Done(0.0)
    ensures forall p: PositionRow :: p.instrument == plan.symbol ==>
      PositionQuantity(plan, [p])
        == if p.quantity.Number? && p.quantity.value >= 0.0 then Done(p.quantity.value) else Raised
  {
    if a == [] {
      assert a + b == b;
    } else {
      assert (a + b)[0] == a[0] && (a + b)[1..] == a[1..] + b;
      PositionQuantityAdds(plan, a[1..], b);
    }
  }

  predicate OwnRow(plan: Plan, row: PositionRow) {
    row.instrument == plan.symbol && row.quantity.Number? && row.quantity.value > 0.0
  }

  /** The quantity of the single open row, which must match the trade's side and leverage. */
  function PositionForTrade(plan: Plan, view: Snapshot): (r: Outcome<real>)
    ensures !r.Crashed?
    ensures r.Done? ==> r.value >= 0.0
    ensures r.Done? && r.value > 0.0 ==>
      exists p :: p in view.positions && OwnRow(plan, p) && p.quantity.value == r.value && p.side == Some(plan.side)
               && Positive(p.leverage).Done?
               && Close(Positive(p.leverage).value, plan.leverage, Tolerance(plan.leverage))
    ensures r.Done? ==> forall p, q :: p in view.positions && q in view.positions && OwnRow(plan, p) && OwnRow(plan, q) ==> p == q
    ensures r == Done(0.0) ==> forall p :: p in view.positions ==> !OwnRow(plan, p)
  {
    if exists p :: p in view.positions && p.instrument == plan.symbol && !Required(p.quantity).Done? then Raised
    else
      var open :- Find(view.positions, (p: PositionRow) => OwnRow(plan, p));
      if open == None then Done(0.0)
      else if open.value.side != Some(plan.side) then Raised
      else
        var leverage :- Positive(open.value.leverage);
        if !Close(leverage, plan.leverage, Tolerance(plan.leverage)) then Raised
        else Required(open.value.quantity)
  }

  lemma {:induction false} NoOwnRowMeansZero(plan: Plan, rows: seq<PositionRow>)
    requires forall p :: p in rows ==> !OwnRow(plan, p)
    requires forall p :: p in rows && p.instrument == plan.symbol ==> Required(p.quantity).Done?
    ensures PositionQuantity(plan, rows) == Done(0.0)
  {
    if rows != [] {
      assert rows[0] in rows;
      NoOwnRowMeansZero(plan, rows[1..]);
    }
  }

  /** The strict reading of a zero position implies the summed reading. */
  lemma ZeroForTradeIsZero(plan: Plan, view: Snapshot)
    requires PositionForTrade(plan, view) == Done(0.0)
    ensures PositionQuantity(plan, view.positions) == Done(0.0)
  {
    NoOwnRowMeansZero(plan, view.positions);
  }

  // ------------------------------------------------------ order validation

  datatype EntryAck = EntryAck(status: OrderStatus, filled: real, average: Option<real>)

  predicate TerminalOrder(status: OrderStatus) {
    status in {CANCELED, REJECTED, EXPIRED, REPLACED}
  }

  /** An order in one of these states can still add to the position. */
  predicate StillFillable(status: OrderStatus) {
    status in {NEW, PARTIALLY_FILLED}
  }

  /** Every order status means exactly one of four things. */
  lemma OrderStatusesPartition(s: OrderStatus)
    ensures StillFillable(s) <==> s != FILLED && !TerminalOrder(s) && s != UNKNOWN_STATUS
    ensures s in {FILLED, UNKNOWN_STATUS} ==> !TerminalOrder(s)
    ensures TerminalOrder(s) ==> s !in {NEW, PARTIALLY_FILLED}
  {
  }

  /** Check an entry acknowledgement against the plan, inventing no missing fill. */
  function ValidateEntry(plan: Plan, o: OrderRecord): (r: Outcome<EntryAck>)
    ensures !r.Crashed?
    ensures r.Done? ==> o.id == Some(plan.EntryId()) && r.value.status == o.status && o.status != UNKNOWN_STATUS
    ensures r.Done? && plan.quantity > 0.0 ==> 0.0 <= r.value.filled <= plan.quantity
    ensures r.Done? && plan.quantity > 0.0 && o.status == NEW ==> r.value.filled == 0.0
    ensures r.Done? && plan.quantity > 0.0 && o.status in {PARTIALLY_FILLED, FILLED} ==> r.value.filled > 0.0
    ensures r.Done? ==> o.quantity.Number? && o.unfilled.Number?
    ensures r.Done? && plan.quantity > 0.0 && r.value.filled > 0.0 ==>
      || r.value.filled == o.quantity.value - o.unfilled.value
      || (r.value.filled == plan.quantity && o.quantity.value - o.unfilled.value > plan.quantity)
    ensures r.Done? && plan.quantity > 0.0 && r.value.filled == 0.0 && o.status != NEW && o.quantity.value > 0.0 ==>
      o.unfilled.value >= o.quantity.value
    ensures r.Done? && r.value.filled > plan.Slack() ==> r.value.average.Some?
    ensures r.Done? && r.value.average.Some? ==>
      match plan.side
      case BUY => r.value.average.value <= plan.worstPrice + Tolerance(plan.worstPrice)
      case SELL => r.value.average.value >= plan.worstPrice - Tolerance(plan.worstPrice)
  {
    if o.id != Some(plan.EntryId()) || o.instrument != plan.symbol || o.side != Some(plan.side) || o.kind != LIMIT
    then Raised
    else
      var limit :- Positive(o.limitPrice);
      if !Close(limit, plan.worstPrice, Tolerance(plan.worstPrice)) || o.status == UNKNOWN_STATUS then Raised
      else
        var quantity :- Required(o.quantity);
        var remaining :- Required(o.unfilled);
        var slack := plan.Slack();
        if !Close(quantity, plan.quantity, slack) then Raised
        else
          var filled :- EntryFill(o.status, quantity, remaining, slack);
          if filled > plan.quantity + slack then Raised
          else
            var average :- PositiveOptional(o.averagePrice);
            var priceSlack := Tolerance(plan.worstPrice);
            if filled > slack && average == None then Raised
            else if average.Some? && plan.side == BUY && average.value > plan.worstPrice + priceSlack then Raised
            else if average.Some? && plan.side == SELL && average.value < plan.worstPrice - priceSlack then Raised
            else Done(EntryAck(o.status, Min(plan.quantity, filled), average))
  }

  function EntryFill(status: OrderStatus, quantity: real, remaining: real, slack: real): (r: Outcome<real>)
    ensures !r.Crashed?
    ensures r.Done? ==> r.value >= 0.0
    ensures r.Done? && status == NEW ==> r.value == 0.0
    ensures r.Done? && status in {PARTIALLY_FILLED, FILLED} ==> r.value > slack
  {
    if status == NEW then
      if Close(remaining, quantity, slack) then Done(0.0) else Raised
    else if quantity > 0.0 && remaining > quantity + slack then Raised
    else if quantity <= 0.0 && !TerminalOrder(status) then Raised
    else
      var filled := if quantity <= 0.0 then 0.0 else Max(0.0, quantity - remaining);
      if status == PARTIALLY_FILLED && !(filled > slack && remaining > slack) then Raised
      else if status == FILLED && (filled <= slack || !Close(remaining, 0.0, slack)) then Raised
      else Done(filled)
  }

  /** How far a venue timestamp may stray, in milliseconds. */
  const TIMESTAMP_SKEW: int := 2000

  function Earlier(a: int, b: int): int {
    if a < b then a else b
  }

  function Earliest(first: int, stamps: seq<int>, observed: int): (t: int)
    ensures t <= first && forall s :: s in stamps ==> t <= Earlier(s, observed)
    ensures t == first || exists s :: s in stamps && t == Earlier(s, observed)
    decreases |stamps|
  {
    if stamps == [] then first
    else
      assert stamps == [stamps[0]] + stamps[1..];
      Earliest(Earlier(first, Earlier(stamps[0], observed)), stamps[1..], observed)
  }

  /** `_response_time`: when a fill happened, from the venue's own stamps, the time of observation and a fallback. */
  function ResponseTime(stamps: seq<int>, fallback: int, observed: int, notBefore: int): (r: Outcome<int>)
    ensures !r.Crashed?
    ensures r.Done? <==> forall s :: s in stamps ==> notBefore - TIMESTAMP_SKEW <= s <= observed + TIMESTAMP_SKEW
  {
    if exists s :: s in stamps && !(notBefore - TIMESTAMP_SKEW <= s <= observed + TIMESTAMP_SKEW) then Raised
    else
      var conservative := Earlier(fallback, observed);
      Done(Earliest(if conservative < notBefore - TIMESTAMP_SKEW then notBefore else conservative, stamps, observed))
  }

  /** The recorded fill time is never later than the observation, so no timeout is late, and never before the
      decision was eligible, save for the skew; unless the clock itself stood before both. */
  lemma ResponseTimeBounds(stamps: seq<int>, fallback: int, observed: int, notBefore: int)
    requires ResponseTime(stamps, fallback, observed, notBefore).Done?
    requires notBefore - TIMESTAMP_SKEW <= fallback
    ensures
      notBefore - TIMESTAMP_SKEW <= observed <==>
      notBefore - TIMESTAMP_SKEW <= ResponseTime(stamps, fallback, observed, notBefore).value <= observed
  {
  }

  datatype CloseAck = CloseAck(status: OrderStatus, filled: real, average: Option<real>)

  function ValidateClose(o: OrderRecord, client: OrderId, requested: real): (r: Outcome<CloseAck>)
    ensures !r.Crashed?
    ensures r.Done? ==> o.id == Some(client) && r.value.status == o.status
    ensures r.Done? ==> o.status in {NEW, PARTIALLY_FILLED, FILLED, CANCELED, REJECTED}
    ensures r.Done? ==> o.quantity.Number? && Close(o.quantity.value, requested, Tolerance(requested))
  {
    if o.id != Some(client) || o.status !in {NEW, PARTIALLY_FILLED, FILLED, CANCELED, REJECTED} then Raised
    else
      var quantity :- Required(o.quantity);
      var remaining :- Required(o.unfilled);
      var slack := Tolerance(requested);
      if !Close(quantity, requested, slack) || remaining > quantity + slack then Raised
      else
        var filled := Max(0.0, quantity - remaining);
        if o.status == NEW && !Close(remaining, quantity, slack) then Raised
        else if o.status == PARTIALLY_FILLED && !(filled > slack && remaining > slack) then Raised
        else if o.status == FILLED && !Close(remaining, 0.0, slack) then Raised
        else
          var average :- PositiveOptional(o.averagePrice);
          if filled > slack && average == None then Raised
          else Done(CloseAck(o.status, filled, average))
  }

  /** The record shows the close filled in full, for the quantity that was asked. */
  predicate FilledInFull(o: OrderRecord, client: OrderId, requested: real) {
    var ack := ValidateClose(o, client, requested);
    ack.Done? && ack.value.status == FILLED && Close(ack.value.filled, requested, Tolerance(requested))
  }

  // ------------------------------------------------------------ TP/SL records

  predicate LiveTpsl(t: TpslRecord) {
    t.status in {WAIT_ORDER, ACTIVE_TPSL}
  }

  predicate TriggeredTpsl(t: TpslRecord) {
    t.status in {PROCESS, TRIGGERED, DONE}
  }

  /** A protection is live, has fired, was withdrawn, or nobody knows. */
  lemma TpslStatusesPartition(t: TpslRecord)
    ensures LiveTpsl(t) <==> !TriggeredTpsl(t) && t.status !in {CANCELLED_TPSL, UNKNOWN_TPSL}
    ensures TriggeredTpsl(t) ==> t.status !in {CANCELLED_TPSL, UNKNOWN_TPSL, WAIT_ORDER, ACTIVE_TPSL}
  {
    match t.status
    case WAIT_ORDER =>
    case _ =>
  }

  /** The record is the plan's protection of this leg: instrument, role, side, whole position, price, parent. */
  predicate PlannedTpsl(plan: Plan, leg: Leg, t: TpslRecord) {
    && t.instrument == plan.symbol
    && t.leg == Some(leg)
    && t.side == Some(plan.side)
    && t.quantity.Number? && 0.0 <= t.quantity.value && Close(t.quantity.value, 0.0, ABS_TOL)
    && t.price.Number? && t.price.value > 0.0 && Close(t.price.value, plan.LegPrice(leg), REL_TOL)
    && (t.parent.Some? ==> t.parent == Some(plan.EntryId()))
    && t.id.Some?
    && t.status != UNKNOWN_TPSL
  }

  predicate ValidTpsl(plan: Plan, leg: Leg, t: TpslRecord, requireLive: bool, requireParent: bool) {
    && PlannedTpsl(plan, leg, t)
    && (requireParent ==> t.parent == Some(plan.EntryId()))
    && (requireLive ==> LiveTpsl(t))
  }

  /** A protective order that fired, with the exit order it generated. */
  datatype Trigger = Trigger(leg: Leg, order: OrderId, filled: real, average: real, fee: real)

  function ValidateTrigger(plan: Plan, leg: Leg, o: OrderRecord, triggered: real): (r: Outcome<Trigger>)
    ensures !r.Crashed?
    ensures r.Done? ==> r.value.leg == leg && o.id == Some(r.value.order) && o.status == FILLED
    ensures r.Done? ==> o.side == Some(if plan.side == BUY then SELL else BUY)
    ensures r.Done? ==> Close(r.value.filled, triggered, Tolerance(triggered))
  {
    if o.id == None || o.instrument != plan.symbol || o.side != Some(if plan.side == BUY then SELL else BUY)
       || o.kind != MARKET || !o.groupAllowed || o.status != FILLED
    then Raised
    else
      var quantity :- Required(o.quantity);
      var remaining :- Required(o.unfilled);
      var slack := Tolerance(triggered);
      if !Close(quantity, triggered, slack) || !Close(remaining, 0.0, slack) then Raised
      else
        var average :- Positive(o.averagePrice);
        var fee :- Required(o.fee);
        Done(Trigger(leg, o.id.value, quantity, average, fee))
  }

  /** Complete order history holds a generated exit order: opposite side, completely filled, for the held quantity. */
  ghost predicate ExitFilled(plan: Plan, view: Snapshot, held: real) {
    exists o, triggered, leg :: o in view.history && ValidateTrigger(plan, leg, o, triggered).Done?
                             && Close(triggered, held, Tolerance(held))
  }

  /** Evidence that one leg fired: `records` are its projections, all of which must agree. */
  function LegTrigger(plan: Plan, view: Snapshot, leg: Leg, held: real, records: seq<TpslRecord>): (r: Outcome<Option<Trigger>>)
    ensures !r.Crashed?
    ensures r.Done? && r.value.Some? ==>
      && r.value.value.leg == leg && ExitFilled(plan, view, held)
      && exists t :: t in records && TriggeredTpsl(t) && PlannedTpsl(plan, leg, t)
  {
    if exists t :: t in records && !ValidTpsl(plan, leg, t, false, false) then Raised
    else if exists t :: t in records && !TriggeredTpsl(t) && t.triggerOrder.Some? then Raised
    else if forall t :: t in records ==> !TriggeredTpsl(t) then Done(None)
    else
      var first := FirstTriggered(records);
      if first.triggerOrder == None then Raised
      else if exists t :: t in records && TriggeredTpsl(t) && t.triggerOrder != first.triggerOrder then Raised
      else
        var quantity :- Positive(first.triggeredQuantity);
        if exists t :: t in records && TriggeredTpsl(t) && t.triggeredQuantity != Number(quantity) then Raised
        else if !Close(quantity, held, Tolerance(held)) then Raised
        else if exists t :: t in records && TriggeredTpsl(t) && !t.cleanReason then Raised
        else
          var order :- FindHistorical(view, first.triggerOrder.value);
          if order == None then Raised
          else
            var trigger :- ValidateTrigger(plan, leg, order.value, quantity);
            Done(Some(trigger))
  }

  function FirstTriggered(records: seq<TpslRecord>): (t: TpslRecord)
    requires exists t :: t in records && TriggeredTpsl(t)
    ensures t in records && TriggeredTpsl(t)
  {
    if TriggeredTpsl(records[0]) then records[0]
    else
      assert records == [records[0]] + records[1..];
      FirstTriggered(records[1..])
  }

  function ById(records: seq<TpslRecord>, id: TpslId): (r: seq<TpslRecord>)
    ensures forall t :: t in r <==> t in records && t.id == Some(id)
  {
    if records == [] then []
    else
      assert records == [records[0]] + records[1..];
      (if records[0].id == Some(id) then [records[0]] else []) + ById(records[1..], id)
  }

  /** What the account view, or failing that the event stream, says about a leg with this identity. */
  function LegEvidence(plan: Plan, view: Snapshot, events: seq<TpslRecord>, leg: Leg, id: Option<TpslId>, held: real)
    : (r: Outcome<Option<Trigger>>)
    ensures !r.Crashed?
    ensures r.Done? && r.value.Some? ==>
      && r.value.value.leg == leg && id.Some? && ExitFilled(plan, view, held)
      && exists t :: (t in view.tpsl || t in events) && t.id == id && TriggeredTpsl(t)
  {
    if id == None then Done(None)
    else
      var listed :- FindTpslById(view, id);
      LegTrigger(plan, view, leg, held, if listed.Some? then [listed.value] else ById(events, id.value))
  }

  /** The unique protective order that fired; two are a contradiction. */
  function ProvenTrigger(plan: Plan, view: Snapshot, events: seq<TpslRecord>,
                         stop: Option<TpslId>, target: Option<TpslId>, held: real): (r: Outcome<Option<Trigger>>)
    ensures !r.Crashed?
    ensures r.Done? && r.value.Some? ==>
      var id := if r.value.value.leg == StopLeg then stop else target;
      && id.Some? && ExitFilled(plan, view, held)
      && exists t :: (t in view.tpsl || t in events) && t.id == id && TriggeredTpsl(t)
  {
    var s :- LegEvidence(plan, view, events, StopLeg, stop, held);
    var t :- LegEvidence(plan, view, events, TargetLeg, target, held);
    if s.Some? && t.Some? then Raised
    else Done(if s.Some? then s else t)
  }
}
