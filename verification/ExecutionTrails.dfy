/** What the compensating execution engine may do at the venue for one order: which histories an order may leave,
    with which result, and what those histories mean. */
module ExecutionTrails {
  import opened Outcomes
  import opened Amounts
  import opened IdempotencyCache


  type Symbol = nat

  datatype Side = BUY | SELL

  /** Client order names: digests of message and purpose, injective by assumption, or given by the caller. */
  datatype Name =
    | EntryName(message: MessageId)
    | CloseName(message: MessageId)
    | EmergencyName(message: MessageId)
    | Given(code: nat)

  datatype Status = NEW | PARTIALLY_FILLED | FILLED | CANCELED | REJECTED | UNRECOGNIZED

  datatype Report = Report(
    client: Name,
    exchange: nat,
    exchangeId: Option<Name>,
    symbol: Symbol,
    side: Option<Side>,
    status: Status,
    requested: Num,
    filled: Num,
    remaining: Num,
    average: Num,
    fees: Num)

  datatype Reason = ENTER_LONG | ENTER_SHORT | CLOSE_POSITION | REDUCE_LEVERAGE | REBALANCE | HOLD

  datatype Intent = Intent(
    name: Name,
    symbol: Symbol,
    side: Side,
    quantity: real,
    price: Option<real>,
    stop: Option<real>,
    leverage: real)

  datatype Order = Order(message: MessageId, approved: bool, reason: Reason, intent: Intent)

  // ---------------------------------------------------------- acknowledgement

  datatype Venue = Venue(name: nat, idMatches: bool)

  predicate Finite(n: Num) {
    n.Number? && n.value >= 0.0
  }

  /** `_ack_error` finds nothing wrong with the report. */
  predicate Trusted(v: Venue, r: Report, name: Name, symbol: Symbol, side: Option<Side>, quantity: Option<real>) {
    && Finite(r.requested) && Finite(r.filled) && Finite(r.remaining) && Finite(r.average) && Finite(r.fees)
    && r.status != UNRECOGNIZED
    && r.client == name && r.exchange == v.name
    && (r.status != REJECTED ==> r.exchangeId.Some?)
    && (r.exchangeId.Some? && v.idMatches ==> r.exchangeId == Some(name))
    && r.symbol == symbol
    && (side.Some? ==> r.side == side)
    && var requested, filled, remaining := r.requested.value, r.filled.value, r.remaining.value;
       var slack := Tolerance(if quantity.Some? then quantity.value else requested);
       && (quantity.Some? ==> Magnitude(requested - quantity.value) <= slack)
       && filled <= requested + slack && remaining <= requested + slack && filled + remaining <= requested + slack
       && (r.status in {NEW, PARTIALLY_FILLED, FILLED} ==> Magnitude(filled + remaining - requested) <= slack)
       && (r.status == FILLED ==> Magnitude(filled - requested) <= slack && remaining <= slack)
       && (r.status == PARTIALLY_FILLED ==> filled > 0.0 && remaining > 0.0)
  }

  /** A trusted report speaks about the order it answers and accounts for it: nothing beyond the quantity, and all of
      it when FILLED. */
  lemma TrustedAccounts(v: Venue, r: Report, name: Name, symbol: Symbol, side: Side, quantity: real)
    requires Trusted(v, r, name, symbol, Some(side), Some(quantity))
    ensures r.client == name && r.side == Some(side) && r.symbol == symbol && r.exchange == v.name
    ensures r.exchangeId.Some? || r.status == REJECTED
    ensures v.idMatches ==> r.exchangeId in {None, Some(name)}
    ensures 0.0 <= r.filled.value <= quantity + 2.0 * Tolerance(quantity)
    ensures r.status == FILLED ==> Magnitude(r.filled.value - quantity) <= 2.0 * Tolerance(quantity)
    ensures r.status in {NEW, PARTIALLY_FILLED} ==>
      Magnitude(r.filled.value + r.remaining.value - quantity) <= 2.0 * Tolerance(quantity)
  {
  }

  /** A report that answers this very order and accounts for it exactly is trusted, however much of it was filled. */
  lemma ExactReportIsTrusted(v: Venue, r: Report, name: Name, symbol: Symbol, side: Side, quantity: real, filled: real)
    requires 0.0 <= filled <= quantity && r.status != UNRECOGNIZED
    requires r.client == name && r.exchange == v.name && r.exchangeId == Some(name) && r.symbol == symbol
    requires r.side == Some(side) && Finite(r.average) && Finite(r.fees)
    requires r.requested == Number(quantity) && r.filled == Number(filled) && r.remaining == Number(quantity - filled)
    requires r.status == FILLED ==> filled == quantity
    requires r.status == PARTIALLY_FILLED ==> 0.0 < filled < quantity
    ensures Trusted(v, r, name, symbol, Some(side), Some(quantity))
  {
  }

  // ------------------------------------------------------------------- stops

  /** The stop price of a trailing stop anchored at the entry. */
  function StopPrice(side: Side, anchor: real, trail: real): real {
    if side == BUY then anchor * (1.0 - trail) else anchor * (1.0 + trail)
  }

  /** The fraction that places the stop where the intent asked, or None when that is no protection. */
  function ExplicitTrail(side: Side, entry: real, stop: real): Option<real>
    requires entry > 0.0
  {
    var trail := Magnitude(entry - stop) / entry;
    if (if side == BUY then stop < entry else stop > entry) && 0.0 < trail < 1.0 then Some(trail) else None
  }

  /** The stop protects the entry: on its losing side, and less than the whole price away. */
  predicate Protective(side: Side, entry: real, stop: real) {
    if side == BUY then 0.0 < stop < entry else entry < stop < 2.0 * entry
  }

  /** A requested stop is accepted exactly when it protects, and is then armed at exactly the requested price. */
  lemma ExplicitStopIsExact(side: Side, entry: real, stop: real)
    requires entry > 0.0
    ensures ExplicitTrail(side, entry, stop).Some? <==> Protective(side, entry, stop)
    ensures Protective(side, entry, stop) ==>
      0.0 < ExplicitTrail(side, entry, stop).value < 1.0 && StopPrice(side, entry, ExplicitTrail(side, entry, stop).value) == stop
  {
    var distance := Magnitude(entry - stop);
    assert distance / entry * entry == distance;
    if distance < entry { Fraction(distance, entry); } else { WholeFraction(distance, entry); }
  }

  lemma BelowWhole(q: real, a: real, b: real)
    requires 0.0 <= a < b && q * b == a
    ensures 0.0 <= q < 1.0 && (q == 0.0 <==> a == 0.0)
  {
  }

  lemma Fraction(a: real, b: real)
    requires 0.0 <= a < b
    ensures 0.0 <= a / b < 1.0 && (a / b == 0.0 <==> a == 0.0)
  {
    BelowWhole(a / b, a, b);
  }

  lemma WholeFraction(a: real, b: real)
    requires 0.0 < b <= a
    ensures a / b >= 1.0
  {
    assert a / b * b == a;
  }

  /** The price an entry is protected at: what the venue reports, failing that what was asked. */
  function EntryPrice(answer: Report, intent: Intent): real {
    if answer.average.Number? && answer.average.value > 0.0 then answer.average.value
    else if intent.price.Some? then intent.price.value
    else 0.0
  }

  /** A stop can be placed behind the entry: it has a price, and the requested stop protects it. */
  predicate Protectable(answer: Report, intent: Intent) {
    var entry := EntryPrice(answer, intent);
    entry > 0.0 && (intent.stop.Some? ==> Protective(intent.side, entry, intent.stop.value))
  }

  /** Where the stop goes: where the intent asked, failing that the default distance from the entry. */
  predicate StopAt(answer: Report, intent: Intent, defaultTrail: real, price: real) {
    var entry := EntryPrice(answer, intent);
    if intent.stop.Some? then price == intent.stop.value
    else if intent.side == BUY then entry - price == entry * defaultTrail
    else price - entry == entry * defaultTrail
  }

  // ----------------------------------------------------------------- history

  /** What is done at the venue and what comes of it. `Lost` is a mutation whose answer was an exception, `Refused`
      one the adapter declined as unsafe, `LookFailed` a look at the venue that raised. */
  datatype Event =
    | Placed(name: Name)
    | CloseSent(name: Name)
    | CancelSent(name: Name)
    | LeverageSet(leverage: real)
    | Answered(report: Report)
    | Lost
    | Refused
    | StopArmed(parent: Name, price: real)
    | StopFailed(parent: Name)
    | SawActive(name: Name, active: bool)
    | SawFlat(flat: bool)
    | LookFailed

  function Closes(log: seq<Event>): nat {
    if log == [] then 0 else Closes(log[..|log| - 1]) + if log[|log| - 1].CloseSent? then 1 else 0
  }

  function Places(log: seq<Event>): nat {
    if log == [] then 0 else Places(log[..|log| - 1]) + if log[|log| - 1].Placed? then 1 else 0
  }

  lemma CountAppend(log: seq<Event>, e: Event)
    ensures Closes(log + [e]) == Closes(log) + if e.CloseSent? then 1 else 0
    ensures Places(log + [e]) == Places(log) + if e.Placed? then 1 else 0
  {
  }

  // ------------------------------------------------------------ what may happen

  /** The order was found inactive, or was cancelled and then found inactive; anything else raises. */
  predicate Withdrawal(name: Name, trail: seq<Event>, done: bool) {
    if trail == [SawActive(name, false)] || trail == [SawActive(name, true), CancelSent(name), SawActive(name, false)]
    then done
    else
      && !done
      && (trail == [LookFailed]
          || (|trail| == 3 && trail[0] == SawActive(name, true) && trail[1] == CancelSent(name)
              && trail[2] in {Lost, LookFailed, SawActive(name, true)}))
  }

  /** The emergency close: sent once, believed only when the position then reads flat and the close is inactive. */
  predicate Closing(v: Venue, name: Name, symbol: Symbol, trail: seq<Event>, done: bool) {
    && |trail| >= 2 && trail[0] == CloseSent(name)
    && if trail[1] == Refused then !done && |trail| == 2
       else
         && (trail[1].Answered? || trail[1] == Lost) && |trail| >= 3
         && if trail[2] == LookFailed then !done && |trail| == 3
            else
              && trail[2].SawFlat?
              && if trail[1].Answered?
                    && (!Trusted(v, trail[1].report, name, symbol, None, None) || trail[1].report.status in {REJECTED, CANCELED})
                 then !done && |trail| == 3
                 else if trail[2] == SawFlat(true) then Withdrawal(name, trail[3..], done)
                 else if trail[1] == Lost then !done && |trail| == 4 && (trail[3] == LookFailed || IsLook(trail[3], name))
                 else !done && |trail| == 3
  }

  predicate IsLook(e: Event, name: Name) {
    e == SawActive(name, true) || e == SawActive(name, false)
  }

  /** The position is read; what is still open is closed, unless an earlier close still works. */
  predicate Flattening(v: Venue, name: Name, symbol: Symbol, trail: seq<Event>, done: bool) {
    && |trail| >= 1
    && if trail[0] == LookFailed then !done && |trail| == 1
       else if trail[0] == SawFlat(true) then done && |trail| == 1
       else
         && trail[0] == SawFlat(false) && |trail| >= 2
         && if trail[1] == SawActive(name, false) then Closing(v, name, symbol, trail[2..], done)
            else !done && |trail| == 2 && (trail[1] == LookFailed || trail[1] == SawActive(name, true))
  }

  /** A whole compensation: an entry that may still work is cancelled and must then be inactive, before anything is
      measured or closed. */
  predicate Compensation(v: Venue, entry: Name, cancel: bool, name: Name, symbol: Symbol, trail: seq<Event>, done: bool) {
    if !cancel then Flattening(v, name, symbol, trail, done)
    else
      && |trail| >= 2 && trail[0] == CancelSent(entry)
      && if trail[1] == SawActive(entry, false) then Flattening(v, name, symbol, trail[2..], done)
         else !done && |trail| == 2 && trail[1] in {Lost, LookFailed, SawActive(entry, true)}
  }

  /** What becomes of an answered entry: nothing for an unfilled refusal, a stop where one can be placed, and a
      compensation for everything else, as for a stop that failed. */
  predicate Protecting(v: Venue, defaultTrail: real, message: MessageId, intent: Intent, answer: Report,
                       trail: seq<Event>, r: Outcome<Report>)
  {
    var emergency := EmergencyName(message);
    var trusted := Trusted(v, answer, intent.name, intent.symbol, Some(intent.side), Some(intent.quantity));
    var working := answer.status in {NEW, PARTIALLY_FILLED};
    var compensated := if r.Done? then Done(Compensated(v, answer, intent)) else Raised;
    if trusted && answer.status in {REJECTED, CANCELED} && answer.filled == Number(0.0) then
      trail == [] && r == Done(answer)
    else if trusted && answer.status != REJECTED && Protectable(answer, intent) then
      && |trail| >= 1
      && if trail[0].StopArmed? then
           && |trail| == 1 && trail[0].parent == intent.name
           && StopAt(answer, intent, defaultTrail, trail[0].price) && r == Done(answer)
         else
           && trail[0] == StopFailed(intent.name) && r == compensated
           && Compensation(v, intent.name, working, emergency, intent.symbol, trail[1..], r.Done?)
    else
      && r == compensated
      && Compensation(v, intent.name, !trusted || working, emergency, intent.symbol, trail, r.Done?)
  }

  /** What an OPEN may come to, for every answer of the venue and for none. */
  ghost predicate OpenEnded(v: Venue, defaultTrail: real, message: MessageId, intent: Intent,
                            trail: seq<Event>, r: Outcome<Report>)
  {
    && |trail| >= 2 && trail[0] == Placed(intent.name)
    && if trail[1] == Lost then
         && r == Raised
         && exists done ::
              Compensation(v, intent.name, true, EmergencyName(message), intent.symbol, trail[2..], done)
       else
         trail[1].Answered? && Protecting(v, defaultTrail, message, intent, trail[1].report, trail[2..], r)
  }

  /** `_compensated_report`: the entry is reported cancelled, claiming no more than the intent asked for. */
  function Compensated(v: Venue, entry: Report, intent: Intent): (r: Report)
    ensures r.status == CANCELED && r.remaining == Number(0.0) && r.requested == Number(intent.quantity)
    ensures r.client == intent.name && r.symbol == intent.symbol && r.side == Some(intent.side)
    ensures r.exchange == v.name && r.exchangeId == None
    ensures intent.quantity >= 0.0 ==> Finite(r.filled) && r.filled.value <= intent.quantity
    ensures Finite(entry.filled) && entry.filled.value <= intent.quantity ==> r.filled == entry.filled
    ensures Finite(entry.filled) && entry.filled.value > intent.quantity ==> r.filled == Number(intent.quantity)
    ensures !Finite(entry.filled) ==> r.filled == Number(0.0)
    ensures Finite(r.average) && Finite(r.fees)
    ensures Finite(entry.average) ==> r.average == entry.average
    ensures Finite(entry.fees) ==> r.fees == entry.fees
  {
    Report(intent.name, v.name, None, intent.symbol, Some(intent.side), CANCELED, Number(intent.quantity),
           if Finite(entry.filled) then Number(Min(entry.filled.value, intent.quantity)) else Number(0.0),
           Number(0.0),
           if Finite(entry.average) then entry.average else Number(0.0),
           if Finite(entry.fees) then entry.fees else Number(0.0))
  }

  /** The report of a close that relies on the observed position alone: it claims no fill. */
  function DesiredState(v: Venue, message: MessageId, intent: Intent): (r: Report)
    ensures r.status == CANCELED && r.filled == Number(0.0) && r.remaining == Number(0.0)
    ensures r.client == CloseName(message) && r.exchange == v.name && r.exchangeId == None
    ensures r.symbol == intent.symbol && r.side == Some(intent.side) && r.requested == Number(intent.quantity)
    ensures r.average == Number(0.0) && r.fees == Number(0.0)
  {
    Report(CloseName(message), v.name, None, intent.symbol, Some(intent.side), CANCELED,
           Number(intent.quantity), Number(0.0), Number(0.0), Number(0.0), Number(0.0))
  }

  /** What the one close may come to: its trusted FILLED answer is passed on, and only over a flat position. */
  predicate Submitted(v: Venue, message: MessageId, intent: Intent, trail: seq<Event>, r: Outcome<Report>) {
    var name := CloseName(message);
    && |trail| >= 3 && trail[0] == CloseSent(name) && (trail[1].Answered? || trail[1] == Lost)
    && var trusted := trail[1].Answered?
         && Trusted(v, trail[1].report, name, intent.symbol, Some(intent.side), Some(intent.quantity));
       if trail[2] == SawFlat(true) && (trusted || trail[1] == Lost) then
         && Withdrawal(name, trail[3..], r.Done?)
         && r == if !r.Done? then Raised
                 else if trusted && trail[1].report.status == FILLED then Done(trail[1].report)
                 else Done(DesiredState(v, message, intent))
       else
         && r == Raised && (trail[2] == LookFailed || trail[2].SawFlat?)
         && if trail[1] == Lost && trail[2] == SawFlat(false)
            then |trail| == 4 && (trail[3] == LookFailed || IsLook(trail[3], name))
            else |trail| == 3
  }

  /** What a CLOSE may come to: on a flat position nothing is sent and no fill is claimed. */
  predicate CloseEnded(v: Venue, message: MessageId, intent: Intent, trail: seq<Event>, r: Outcome<Report>) {
    var name := CloseName(message);
    && |trail| >= 1
    && if trail[0] == LookFailed then r == Raised && |trail| == 1
       else if trail[0] == SawFlat(true) then
         && Withdrawal(name, trail[1..], r.Done?)
         && r == if r.Done? then Done(DesiredState(v, message, intent)) else Raised
       else
         && trail[0] == SawFlat(false) && |trail| >= 2
         && if trail[1] == SawActive(name, false) then Submitted(v, message, intent, trail[2..], r)
            else r == Raised && |trail| == 2 && (trail[1] == LookFailed || trail[1] == SawActive(name, true))
  }

  /** The entries of each reason: the side is the reason's own, or the intent's where the reason leaves it open. */
  predicate EntryOf(order: Order, intent: Intent) {
    || (order.reason == ENTER_LONG && intent == order.intent.(side := BUY))
    || (order.reason == ENTER_SHORT && intent == order.intent.(side := SELL))
    || (order.reason == REBALANCE && intent == order.intent)
  }

  /** What an order may come to. `mayOpen` and `mayAct` say whether the engine is attached and unblocked. */
  ghost predicate Handled(v: Venue, defaultTrail: real, listed: bool, mayAct: bool, mayOpen: bool, order: Order,
                          trail: seq<Event>, r: Outcome<Option<Report>>)
  {
    if !listed || !order.approved then trail == [] && r == Done(None)
    else if order.reason == CLOSE_POSITION then
      (r.Done? ==> r.value.Some?) && CloseEnded(v, order.message, order.intent, trail, Reported(r))
    else if !mayAct then trail == [] && r == Raised
    else if order.reason == REDUCE_LEVERAGE then
      var leverage := LeverageSet(Max(1.0, order.intent.leverage / 2.0));
      if r == Done(None) then trail == [leverage] else r == Raised && trail == [leverage, Lost]
    else if order.reason == HOLD || !mayOpen then trail == [] && r == Done(None)
    else
      && (r.Done? ==> r.value.Some?)
      && exists intent :: EntryOf(order, intent) && OpenEnded(v, defaultTrail, order.message, intent, trail, Reported(r))
  }

  function Reported(r: Outcome<Option<Report>>): Outcome<Report>
    requires r.Done? ==> r.value.Some?
  {
    match r
    case Done(report) => Done(report.value)
    case Raised => Raised
    case Crashed => Crashed
  }

  // ---------------------------------------------------------- what it means

  /** The event only looks at or cancels the order `name`. */
  predicate Concerns(e: Event, name: Name) {
    (e.SawActive? && e.name == name) || e == CancelSent(name)
  }

  /** At index `i` the position was seen flat, and since then only the order `name` was looked at or cancelled;
      what was last seen of it is that it is inactive. */
  predicate FlatAt(trail: seq<Event>, i: nat, name: Name) {
    && i < |trail| && trail[i] == SawFlat(true)
    && (forall j :: i < j < |trail| ==> Concerns(trail[j], name))
    && (i < |trail| - 1 ==> trail[|trail| - 1] == SawActive(name, false))
  }

  /** The position was observed flat at the end; an entry that may still have worked was cancelled and seen inactive
      before that. */
  ghost predicate EndedFlat(trail: seq<Event>, entry: Name, cancelled: bool, name: Name) {
    exists i ::
      && FlatAt(trail, i, name)
      && (cancelled ==> exists k :: 0 < k < i && trail[k - 1] == CancelSent(entry) && trail[k] == SawActive(entry, false))
  }

  lemma FlatLater(head: seq<Event>, trail: seq<Event>, i: nat, name: Name)
    requires FlatAt(trail, i, name)
    ensures FlatAt(head + trail, |head| + i, name)
  {
    assert forall j :: |head| <= j < |head + trail| ==> (head + trail)[j] == trail[j - |head|];
  }

  lemma ClosingMeans(v: Venue, name: Name, symbol: Symbol, trail: seq<Event>)
    requires Closing(v, name, symbol, trail, true)
    ensures FlatAt(trail, 2, name) && trail[0] == CloseSent(name)
  {
    assert trail[2] == SawFlat(true);
    assert forall j :: 3 <= j < |trail| ==> trail[j] == trail[3..][j - 3];
  }

  lemma FlatteningMeans(v: Venue, name: Name, symbol: Symbol, trail: seq<Event>) returns (i: nat)
    requires Flattening(v, name, symbol, trail, true)
    ensures FlatAt(trail, i, name)
  {
    i := 0;
    if trail[0] == SawFlat(false) {
      hide Closing;
      ClosingMeans(v, name, symbol, trail[2..]);
      assert trail == trail[..2] + trail[2..];
      FlatLater(trail[..2], trail[2..], 2, name);
      i := 4;
    }
  }

  /** A compensation that ends normally has seen the position flat after the last thing it did, and the entry inactive
      before it measured anything. */
  lemma CompensationMeansFlat(v: Venue, entry: Name, cancel: bool, name: Name, symbol: Symbol, trail: seq<Event>)
    requires Compensation(v, entry, cancel, name, symbol, trail, true)
    ensures EndedFlat(trail, entry, cancel, name)
  {
    hide Flattening;
    if cancel {
      var i := FlatteningMeans(v, name, symbol, trail[2..]);
      assert trail == trail[..2] + trail[2..];
      FlatLater(trail[..2], trail[2..], i, name);
      assert 0 < 1 < 2 + i && trail[1 - 1] == CancelSent(entry) && trail[1] == SawActive(entry, false);
    } else {
      var i := FlatteningMeans(v, name, symbol, trail);
    }
  }

  /** An OPEN that ends normally left the account as asked: an unfilled trusted refusal, an entry with an acknowledged
      stop behind it, or, whatever was reported, an observed flat position. */
  lemma OpenEndsSafe(v: Venue, defaultTrail: real, message: MessageId, intent: Intent, trail: seq<Event>, r: Outcome<Report>)
    requires OpenEnded(v, defaultTrail, message, intent, trail, r) && r.Done?
    ensures trail[1].Answered?
    ensures
      var answer := trail[1].report;
      var trusted := Trusted(v, answer, intent.name, intent.symbol, Some(intent.side), Some(intent.quantity));
      || (trusted && r.value == answer && answer.status in {REJECTED, CANCELED} && answer.filled == Number(0.0) && |trail| == 2)
      || (trusted && r.value == answer && |trail| == 3 && trail[2].StopArmed? && trail[2].parent == intent.name)
      || (r.value == Compensated(v, answer, intent)
          && exists n :: 2 <= n <= |trail| &&
               EndedFlat(trail[n..], intent.name, !trusted || answer.status in {NEW, PARTIALLY_FILLED}, EmergencyName(message)))
  {
    hide Compensation, Trusted, Protectable, EndedFlat, StopAt;
    var answer := trail[1].report;
    var working := answer.status in {NEW, PARTIALLY_FILLED};
    var trusted := Trusted(v, answer, intent.name, intent.symbol, Some(intent.side), Some(intent.quantity));
    if trusted && answer.status in {REJECTED, CANCELED} && answer.filled == Number(0.0) {
    } else if trusted && answer.status != REJECTED && Protectable(answer, intent) {
      assert trail[2..][1..] == trail[3..];
      if !trail[2].StopArmed? {
        CompensationMeansFlat(v, intent.name, working, EmergencyName(message), intent.symbol, trail[3..]);
      }
    } else {
      CompensationMeansFlat(v, intent.name, !trusted || working, EmergencyName(message), intent.symbol, trail[2..]);
    }
  }

  /** A CLOSE that ends normally has seen the position flat, and then the close inactive; a fill is reported only as
      the venue's trusted answer to the close that was sent. */
  lemma CloseEndsFlat(v: Venue, message: MessageId, intent: Intent, trail: seq<Event>, r: Outcome<Report>) returns (i: nat)
    requires CloseEnded(v, message, intent, trail, r) && r.Done?
    ensures FlatAt(trail, i, CloseName(message)) && i + 1 < |trail|
    ensures r.value.client == CloseName(message) && r.value.symbol == intent.symbol && r.value.side == Some(intent.side)
    ensures r.value.filled != Number(0.0) ==>
      && i == 4 && trail[2] == CloseSent(CloseName(message)) && trail[3] == Answered(r.value)
      && r.value.status == FILLED
      && Trusted(v, r.value, CloseName(message), intent.symbol, Some(intent.side), Some(intent.quantity))
  {
    if trail[0] == SawFlat(true) {
      i := 0;
      assert forall j :: 1 <= j < |trail| ==> trail[j] == trail[1..][j - 1];
    } else {
      i := 4;
      assert trail[2..][3..] == trail[5..];
      assert forall j :: 2 <= j < |trail| ==> trail[j] == trail[2..][j - 2];
      assert forall j :: 5 <= j < |trail| ==> trail[j] == trail[5..][j - 5];
    }
  }
}
