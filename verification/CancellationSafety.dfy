/** Which cancellations the venue facts allow, and why none of them uncovers live exposure. */
module CancellationSafety {
  import opened Outcomes

  type Id = nat
  type Instrument = nat

  datatype Side = BUY | SELL
  datatype Role = ENTRY | STOP_LOSS | TAKE_PROFIT

  datatype OrderRole = EntryOrder | ExitOrder

  datatype OrderStatus = OPEN | PARTIALLY_FILLED

  datatype OrderFact = OrderFact(
    id: Id,
    instrument: Instrument,
    role: OrderRole,
    side: Side,
    status: OrderStatus,
    remaining: real,
    reduceOnly: bool,
    parent: Option<Id>)

  /** A live protection; the source's records admit no other status. */
  datatype ProtectionFact = ProtectionFact(id: Id, instrument: Instrument, kind: Role, parent: Id, covered: real)

  datatype VenueFacts = VenueFacts(
    source: nat,
    account: nat,
    instrument: Instrument,
    observedAt: int,
    validUntil: int,
    side: Option<Side>,
    position: real,
    entryParent: Option<Id>,
    orders: seq<OrderFact>,
    protections: seq<ProtectionFact>)

  const MAX_AGE := 5

  datatype Trade = Trade(
    account: nat,
    side: Side,
    quantity: real,
    entry: Id,
    stop: Option<Id>,
    target: Option<Id>)

  function Opposite(s: Side): Side {
    if s == BUY then SELL else BUY
  }

  /** The snapshot validators. */
  predicate WellShaped(v: VenueFacts) {
    && v.position >= 0.0
    && (v.position == 0.0 <==> v.side == None)
    && v.observedAt < v.validUntil <= v.observedAt + MAX_AGE
    && (forall i, j :: 0 <= i < j < |v.orders| ==> v.orders[i].id != v.orders[j].id)
    && (forall i, j :: 0 <= i < j < |v.protections| ==> v.protections[i].id != v.protections[j].id)
    && (forall o :: o in v.orders ==> o.remaining > 0.0)
    && (forall p :: p in v.protections ==> p.covered > 0.0 && p.kind != ENTRY)
  }

  function FirstOrder(orders: seq<OrderFact>, id: Id): (r: Option<OrderFact>)
    ensures r.Some? ==> r.value in orders && r.value.id == id
    ensures r == None <==> forall o :: o in orders ==> o.id != id
  {
    if orders == [] then None
    else
      assert orders == [orders[0]] + orders[1..];
      if orders[0].id == id then Some(orders[0]) else FirstOrder(orders[1..], id)
  }

  function FirstProtection(protections: seq<ProtectionFact>, id: Id): (r: Option<ProtectionFact>)
    ensures r.Some? ==> r.value in protections && r.value.id == id
    ensures r == None <==> forall p :: p in protections ==> p.id != id
  {
    if protections == [] then None
    else
      assert protections == [protections[0]] + protections[1..];
      if protections[0].id == id then Some(protections[0]) else FirstProtection(protections[1..], id)
  }

  predicate Current(v: VenueFacts, source: nat, instrument: Instrument, t: Trade, now: int) {
    && v.source == source && v.instrument == instrument && v.account == t.account
    && v.observedAt <= now <= v.observedAt + MAX_AGE && now < v.validUntil
  }

  /** A protection of this trade that covers the whole position. */
  predicate Covers(v: VenueFacts, t: Trade, p: ProtectionFact) {
    p.instrument == v.instrument && p.parent == t.entry && p.covered >= v.position
  }

  /** A reduce-only order on the closing side, belonging to this trade, for the whole position. */
  predicate CompetingExit(v: VenueFacts, t: Trade, o: OrderFact) {
    && o.role == ExitOrder && o.instrument == v.instrument && o.reduceOnly
    && v.side.Some? && o.side == Opposite(v.side.value)
    && o.parent == Some(t.entry) && o.remaining >= v.position
  }

  predicate EntryCancellable(v: VenueFacts, t: Trade, target: Id) {
    var order := FirstOrder(v.orders, target);
    && order.Some? && order.value.role == EntryOrder && order.value.instrument == v.instrument
    && order.value.side == t.side && order.value.remaining == t.quantity - v.position && !order.value.reduceOnly
    && v.entryParent in {None, Some(target)}
    && (v.position > 0.0 ==>
          && v.side == Some(t.side)
          && (exists p :: p in v.protections && p.kind == STOP_LOSS && Some(p.id) == t.stop && Covers(v, t, p))
          && (exists p :: p in v.protections && p.kind == TAKE_PROFIT && Some(p.id) == t.target && Covers(v, t, p)))
  }

  predicate Owned(v: VenueFacts, t: Trade, role: Role, target: Id) {
    var p := FirstProtection(v.protections, target);
    && p.Some? && Some(target) == (if role == STOP_LOSS then t.stop else t.target)
    && p.value.instrument == v.instrument && p.value.parent == t.entry && p.value.kind == role
  }

  predicate ProtectionCancellable(v: VenueFacts, t: Trade, role: Role, target: Id) {
    && Owned(v, t, role, target)
    && (v.position == 0.0
        || (if role == STOP_LOSS then exists o :: o in v.orders && CompetingExit(v, t, o)
            else exists p :: p in v.protections && p.kind == STOP_LOSS && Some(p.id) == t.stop && Covers(v, t, p)))
  }

  /** `_validate_venue` accepts. */
  predicate Accepts(v: VenueFacts, source: nat, instrument: Instrument, t: Trade, role: Role, target: Id, now: int) {
    && Current(v, source, instrument, t, now)
    && if role == ENTRY then EntryCancellable(v, t, target) else ProtectionCancellable(v, t, role, target)
  }

  function OrdersWithout(orders: seq<OrderFact>, id: Id): (r: seq<OrderFact>)
    ensures forall o :: o in r <==> o in orders && o.id != id
  {
    if orders == [] then []
    else
      assert orders == [orders[0]] + orders[1..];
      (if orders[0].id == id then [] else [orders[0]]) + OrdersWithout(orders[1..], id)
  }

  function ProtectionsWithout(protections: seq<ProtectionFact>, id: Id): (r: seq<ProtectionFact>)
    ensures forall p :: p in r <==> p in protections && p.id != id
  {
    if protections == [] then []
    else
      assert protections == [protections[0]] + protections[1..];
      (if protections[0].id == id then [] else [protections[0]]) + ProtectionsWithout(protections[1..], id)
  }

  /** The venue once the cancellation has taken effect: nothing with the target's identity is left. */
  function Removed(v: VenueFacts, role: Role, target: Id): VenueFacts {
    if role == ENTRY then v.(orders := OrdersWithout(v.orders, target))
    else v.(protections := ProtectionsWithout(v.protections, target))
  }

  /** The trade's own recorded stop is live on the instrument, for at least the whole position. */
  predicate StopCovers(v: VenueFacts, t: Trade) {
    exists p ::
      && p in v.protections && p.kind == STOP_LOSS && t.stop == Some(p.id)
      && p.instrument == v.instrument && p.parent == t.entry && v.position <= p.covered
  }

  /** An order of this trade, which can only reduce, closes at least the whole position. */
  predicate ExitCovers(v: VenueFacts, t: Trade) {
    exists o ::
      && o in v.orders && o.role == ExitOrder && o.reduceOnly && o.instrument == v.instrument
      && o.parent == Some(t.entry) && v.side.Some? && o.side != v.side.value && v.position <= o.remaining
  }

  /** No live exposure, or all of it behind the trade's own stop or a reduce-only exit on the closing side. */
  predicate Covered(v: VenueFacts, t: Trade) {
    v.position == 0.0 || StopCovers(v, t) || ExitCovers(v, t)
  }

  /** Whichever owned order an accepted snapshot lets go, the exposure stays covered. */
  lemma CancellationKeepsCover(v: VenueFacts, source: nat, instrument: Instrument, t: Trade, role: Role, target: Id, now: int)
    requires WellShaped(v) && Accepts(v, source, instrument, t, role, target, now)
    ensures Covered(Removed(v, role, target), t)
  {
  }

  /** Accepted facts are this source's, about this account and instrument, read at most five ago, and still valid. */
  predicate FreshFacts(v: VenueFacts, source: nat, account: nat, instrument: Instrument, now: int) {
    && v.source == source && v.account == account && v.instrument == instrument
    && v.observedAt <= now && now - v.observedAt <= 5 && now < v.validUntil
  }

  /** What is let go is the trade's own: its working entry order, on its side and for what is still missing, or the stop
      or target that the durable row names, created behind its entry. */
  predicate OwnOrder(v: VenueFacts, t: Trade, role: Role, target: Id) {
    match role
    case ENTRY =>
      exists o ::
        && o in v.orders && o.id == target && o.role == EntryOrder && !o.reduceOnly && o.instrument == v.instrument
        && o.side == t.side && o.remaining == t.quantity - v.position
    case STOP_LOSS =>
      t.stop == Some(target) && exists p ::
        p in v.protections && p.id == target && p.kind == STOP_LOSS && p.instrument == v.instrument && p.parent == t.entry
    case TAKE_PROFIT =>
      t.target == Some(target) && exists p ::
        p in v.protections && p.id == target && p.kind == TAKE_PROFIT && p.instrument == v.instrument && p.parent == t.entry
  }

  lemma AcceptedIsFreshAndOwn(v: VenueFacts, source: nat, instrument: Instrument, t: Trade, role: Role, target: Id, now: int)
    requires Accepts(v, source, instrument, t, role, target, now)
    ensures FreshFacts(v, source, t.account, instrument, now) && OwnOrder(v, t, role, target)
  {
  }

  /** For this trade's own working entry order the decision is exact, as far as the cover is concerned: it is let go if
      and only if nothing is held, or what is held stands behind both of the trade's own protections. */
  lemma EntryDecisionIsExact(v: VenueFacts, t: Trade, target: Id)
    requires WellShaped(v) && OwnOrder(v, t, ENTRY, target) && v.entryParent in {None, Some(target)}
    ensures EntryCancellable(v, t, target)
       <==> v.position == 0.0 || (v.side == Some(t.side) && StopCovers(v, t) && TargetCovers(v, t))
  {
    var o :| o in v.orders && o.id == target && o.role == EntryOrder && !o.reduceOnly && o.instrument == v.instrument
          && o.side == t.side && o.remaining == t.quantity - v.position;
    assert FirstOrder(v.orders, target) == Some(o);
  }

  /** The trade's own recorded target is live on the instrument, for at least the whole position. */
  predicate TargetCovers(v: VenueFacts, t: Trade) {
    exists p ::
      && p in v.protections && p.kind == TAKE_PROFIT && t.target == Some(p.id)
      && p.instrument == v.instrument && p.parent == t.entry && v.position <= p.covered
  }

  /** Unique identities make the cancelled target a different record from every stop. */
  lemma TargetIsNotTheStop(v: VenueFacts, t: Trade, target: Id)
    requires WellShaped(v) && Owned(v, t, TAKE_PROFIT, target)
    ensures forall p :: p in v.protections && p.kind == STOP_LOSS ==> p.id != target
  {
  }

  /** For an owned target the decision is exact: it is let go if and only if what remains is flat or behind the stop. */
  lemma TargetDecisionIsExact(v: VenueFacts, t: Trade, target: Id)
    requires WellShaped(v) && Owned(v, t, TAKE_PROFIT, target)
    ensures ProtectionCancellable(v, t, TAKE_PROFIT, target)
       <==> v.position == 0.0 || StopCovers(Removed(v, TAKE_PROFIT, target), t)
  {
  }

  /** For an owned stop the decision is exact: it is let go if and only if what remains is flat or behind an exit. */
  lemma StopDecisionIsExact(v: VenueFacts, t: Trade, target: Id)
    requires WellShaped(v) && Owned(v, t, STOP_LOSS, target)
    ensures ProtectionCancellable(v, t, STOP_LOSS, target) <==> v.position == 0.0 || ExitCovers(Removed(v, STOP_LOSS, target), t)
  {
  }

  const SHARED_ID: Id := 5
  const LOOSE_TRADE := Trade(0, BUY, 1.0, 1, Some(SHARED_ID), Some(SHARED_ID))
  const LOOSE_FACTS :=
    VenueFacts(0, 0, 0, 0, 1, Some(BUY), 1.0, None, [],
               [ProtectionFact(SHARED_ID, 0, TAKE_PROFIT, 1, 1.0), ProtectionFact(SHARED_ID, 0, STOP_LOSS, 1, 1.0)])

  /** Without the uniqueness of identities the check alone would not do: here it accepts and leaves the position bare. */
  lemma UniquenessIsNeeded()
    ensures Accepts(LOOSE_FACTS, 0, 0, LOOSE_TRADE, TAKE_PROFIT, SHARED_ID, 0)
    ensures !Covered(Removed(LOOSE_FACTS, TAKE_PROFIT, SHARED_ID), LOOSE_TRADE)
  {
  }
}
