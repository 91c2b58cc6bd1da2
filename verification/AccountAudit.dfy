/** The account-wide audit: every position, order and protection at the venue has one owning trade, and the
    balance summary agrees. An empty list of blockers proves the whole snapshot. */
module AccountAudit {
  import opened Outcomes
  import opened Amounts
  import opened VenueRecords
  import opened LifecycleLog

  /** A nonterminal trade as the audit reads it. */
  datatype Owned = Owned(plan: Plan, row: Trade, allowlisted: bool)

  /** One row of the balance summary. */
  datatype BalanceRow = BalanceRow(instrument: Option<Symbol>, side: Option<Side>, quantity: Num)

  datatype AccountView = AccountView(
    snapshot: Snapshot,
    identityMatches: bool,
    marginFree: bool,
    balancePositions: seq<BalanceRow>,
    balanceOrders: seq<BalanceRow>)

  datatype Blocker =
    | WrongAccount | MarginCall | NotAllowlisted | SharedSymbol | SharedEntry | SharedProtection
    | MalformedSide | UnownedPosition | WrongSide | ExceedsApproval | WrongLeverage | UnreconciledFill | WrongQuantity
    | UnownedOrder | RetainedEntry | UnownedProtection | MissingPosition | Unprotected | MissingTarget
    | PositionsDiffer | OrdersDiffer | RecoveryFailed

  // ------------------------------------------------------------ projections

  type Key = (Symbol, Option<Side>)

  /** One contribution to a per-symbol, per-side total. */
  datatype Line = Line(key: Key, amount: real)

  function Total(lines: seq<Line>, key: Key): (t: real)
    ensures (forall l :: l in lines ==> l.amount >= 0.0) ==> t >= 0.0
  {
    if lines == [] then 0.0
    else
      var last := lines[|lines| - 1];
      Total(lines[..|lines| - 1], key) + if last.key == key then last.amount else 0.0
  }

  /** The dictionary the code accumulates: only positive amounts make an entry. */
  function Projection(lines: seq<Line>): map<Key, real> {
    if lines == [] then map[]
    else Accumulate(Projection(lines[..|lines| - 1]), lines[|lines| - 1])
  }

  function Accumulate(m: map<Key, real>, l: Line): map<Key, real> {
    if l.amount > 0.0 then m[l.key := (if l.key in m then m[l.key] else 0.0) + l.amount] else m
  }

  ghost predicate NonNegative(lines: seq<Line>) {
    forall l :: l in lines ==> l.amount >= 0.0
  }

  /** The accumulated dictionary holds exactly the positive totals. */
  lemma {:induction false} ProjectionHoldsTotals(lines: seq<Line>, key: Key)
    requires NonNegative(lines)
    ensures key in Projection(lines) <==> Total(lines, key) > 0.0
    ensures key in Projection(lines) ==> Projection(lines)[key] == Total(lines, key)
  {
    if lines != [] {
      ProjectionHoldsTotals(lines[..|lines| - 1], key);
    }
  }

  /** `_projections_match`. */
  predicate ProjectionsMatch(a: map<Key, real>, b: map<Key, real>) {
    a.Keys == b.Keys && forall k :: k in a ==> Close(a[k], b[k], ABS_TOL)
  }

  /** The two lists carry the same per-symbol, per-side totals. */
  ghost predicate SameTotals(a: seq<Line>, b: seq<Line>) {
    forall k :: (Total(a, k) > 0.0 <==> Total(b, k) > 0.0) && Close(Total(a, k), Total(b, k), ABS_TOL)
  }

  lemma MatchMeansSameTotals(a: seq<Line>, b: seq<Line>)
    requires NonNegative(a) && NonNegative(b)
    ensures ProjectionsMatch(Projection(a), Projection(b)) <==> SameTotals(a, b)
  {
    forall k ensures k in Projection(a) <==> Total(a, k) > 0.0
             ensures k in Projection(b) <==> Total(b, k) > 0.0
             ensures k in Projection(a) ==> Projection(a)[k] == Total(a, k)
             ensures k in Projection(b) ==> Projection(b)[k] == Total(b, k)
             ensures Total(a, k) >= 0.0 && Total(b, k) >= 0.0
    {
      ProjectionHoldsTotals(a, k);
      ProjectionHoldsTotals(b, k);
    }
    if SameTotals(a, b) {
      assert forall k :: k in Projection(a) ==> k in Projection(b);
      assert forall k :: k in Projection(b) ==> k in Projection(a);
    }
    if ProjectionsMatch(Projection(a), Projection(b)) {
      forall k ensures (Total(a, k) > 0.0 <==> Total(b, k) > 0.0) && Close(Total(a, k), Total(b, k), ABS_TOL) {
        assert k in Projection(a) <==> k in Projection(b);
      }
    }
  }

  function PositionLine(p: PositionRow): Line {
    Line((p.instrument, p.side), if p.quantity.Number? then p.quantity.value else 0.0)
  }

  function OrderLine(o: OrderRecord): Line {
    Line((o.instrument, o.side), if o.unfilled.Number? then o.unfilled.value else 0.0)
  }

  function BalanceLine(b: BalanceRow): Line {
    Line((if b.instrument.Some? then b.instrument.value else 0, b.side), if b.quantity.Number? then b.quantity.value else 0.0)
  }

  function PositionLines(rows: seq<PositionRow>): seq<Line> {
    if rows == [] then [] else PositionLines(rows[..|rows| - 1]) + [PositionLine(rows[|rows| - 1])]
  }

  function OrderLines(rows: seq<OrderRecord>): seq<Line> {
    if rows == [] then [] else OrderLines(rows[..|rows| - 1]) + [OrderLine(rows[|rows| - 1])]
  }

  function BalanceLines(rows: seq<BalanceRow>): seq<Line> {
    if rows == [] then [] else BalanceLines(rows[..|rows| - 1]) + [BalanceLine(rows[|rows| - 1])]
  }

  // ---------------------------------------------------- what a clean row is

  predicate Exposed(s: TradeState) {
    s in {PROTECTING, ACTIVE}
  }

  /** The row is what its owner may hold. */
  predicate HeldAsPlanned(t: Owned, p: PositionRow) {
    var quantity := if p.quantity.Number? then p.quantity.value else 0.0;
    && p.side == Some(t.plan.side)
    && quantity <= t.plan.quantity + t.plan.Slack()
    && p.leverage.Number? && p.leverage.value > 0.0
    && Close(p.leverage.value, t.plan.leverage, Tolerance(t.plan.leverage))
    && t.row.state != ENTRY_PENDING
    && (t.row.state in {PROTECTING, ACTIVE} ==> Close(quantity, t.row.filled, t.plan.Slack()))
  }

  predicate Readable(n: Num) {
    n.Number? && n.value >= 0.0
  }

  ghost predicate PositionClean(trades: seq<Owned>, p: PositionRow) {
    && Readable(p.quantity)
    && (p.quantity.value > 0.0 ==>
          exists t :: t in trades && t.plan.symbol == p.instrument && HeldAsPlanned(t, p))
  }

  predicate WorkingState(s: TradeState) {
    s in {ENTRY_PENDING, PROTECTING, ACTIVE}
  }

  ghost predicate OrderClean(trades: seq<Owned>, o: OrderRecord) {
    && Readable(o.unfilled)
    && exists t ::
         && t in trades && o.id == Some(t.plan.EntryId()) && ValidateEntry(t.plan, o).Done?
         && t.row.state in {ENTRY_PENDING, PROTECTING, ACTIVE}
  }

  /** The venue's protections as a map by identity: of two rows with one identity the later counts. */
  function Listing(rows: seq<TpslRecord>): map<TpslId, TpslRecord>
    requires forall t :: t in rows ==> t.id.Some?
  {
    if rows == [] then map[]
    else
      var last := rows[|rows| - 1];
      assert last in rows;
      Listing(rows[..|rows| - 1])[last.id.value := last]
  }

  ghost predicate ProtectionClean(trades: seq<Owned>, t: TpslRecord) {
    && t.status != UNKNOWN_TPSL
    && (t.status in {WAIT_ORDER, ACTIVE_TPSL} ==>
          exists o, leg: Leg :: o in trades && o.row.LegId(leg).Some? && t.id == o.row.LegId(leg) && PlannedTpsl(o.plan, leg, t))
  }

  predicate ShownLive(listing: map<TpslId, TpslRecord>, id: Option<TpslId>) {
    id.Some? && id.value in listing && LiveTpsl(listing[id.value])
  }

  ghost predicate HasPosition(rows: seq<PositionRow>, s: Symbol) {
    exists p :: p in rows && p.instrument == s && p.quantity.Number? && p.quantity.value > 0.0
  }

  predicate TradeClean(t: Owned, open: bool, listing: map<TpslId, TpslRecord>) {
    && (t.row.state == ACTIVE ==> open)
    && (t.row.state in {PROTECTING, ACTIVE} && open ==> ListedLive(listing, t.row.stopId))
    && (t.row.state == ACTIVE && open ==> ListedLive(listing, t.row.targetId))
  }

  predicate ListedLive(listing: map<TpslId, TpslRecord>, id: Option<TpslId>) {
    id.Some? && id.value in listing && listing[id.value].status in {WAIT_ORDER, ACTIVE_TPSL}
  }

  predicate Sound(t: Owned) {
    t.allowlisted && (t.row.stopId.Some? ==> t.row.stopId != t.row.targetId)
  }

  /** The two trades share no symbol, no entry identity and no protection. */
  predicate Apart(a: Owned, b: Owned) {
    && a.plan.symbol != b.plan.symbol && a.plan.EntryId() != b.plan.EntryId()
    && (a.row.stopId.Some? ==> a.row.stopId != b.row.stopId && a.row.stopId != b.row.targetId)
    && (a.row.targetId.Some? ==> a.row.targetId != b.row.stopId && a.row.targetId != b.row.targetId)
  }

  ghost predicate Separate(trades: seq<Owned>) {
    && (forall t :: t in trades ==> Sound(t))
    && (forall i, j :: 0 <= i < j < |trades| ==> Apart(trades[i], trades[j]))
  }

  ghost predicate BalanceReadable(rows: seq<BalanceRow>) {
    forall b :: b in rows ==> Readable(b.quantity) && (b.quantity.value > 0.0 ==> b.instrument.Some? && b.side.Some?)
  }

  /** The whole snapshot is accounted for. */
  ghost predicate Clean(v: AccountView, trades: seq<Owned>) {
    && v.identityMatches && v.marginFree
    && Separate(trades)
    && (forall p :: p in v.snapshot.positions ==> PositionClean(trades, p))
    && (forall o :: o in v.snapshot.orders ==> OrderClean(trades, o))
    && (forall t :: t in v.snapshot.tpsl ==> t.id.Some?)
    && (forall id :: id in Listing(v.snapshot.tpsl) ==> ProtectionClean(trades, Listing(v.snapshot.tpsl)[id]))
    && (forall t :: t in trades ==> TradeClean(t, HasPosition(v.snapshot.positions, t.plan.symbol), Listing(v.snapshot.tpsl)))
    && BalanceReadable(v.balancePositions) && BalanceReadable(v.balanceOrders)
    && SameTotals(BalanceLines(v.balancePositions), PositionLines(v.snapshot.positions))
    && SameTotals(BalanceLines(v.balanceOrders), OrderLines(v.snapshot.orders))
  }

  // ------------------------------------------------------------- the audit

  datatype Owners = Owners(
    bySymbol: map<Symbol, Owned>,
    byEntry: map<OrderId, Owned>,
    protection: map<TpslId, (Owned, Leg)>)

  /** The three lookups hold every trade, and nothing else. */
  ghost predicate Exact(trades: seq<Owned>, o: Owners) {
    && (forall t :: t in trades ==> t.plan.symbol in o.bySymbol && o.bySymbol[t.plan.symbol] == t)
    && (forall s :: s in o.bySymbol ==> o.bySymbol[s] in trades && o.bySymbol[s].plan.symbol == s)
    && (forall t :: t in trades ==> t.plan.EntryId() in o.byEntry && o.byEntry[t.plan.EntryId()] == t)
    && (forall e :: e in o.byEntry ==> o.byEntry[e] in trades && o.byEntry[e].plan.EntryId() == e)
    && ProtectionExact(trades, o.protection)
  }

  predicate IsNew(o: Owners, t: Owned) {
    && Sound(t)
    && t.plan.symbol !in o.bySymbol && t.plan.EntryId() !in o.byEntry
    && (t.row.stopId.Some? ==> t.row.stopId.value !in o.protection)
    && (t.row.targetId.Some? ==> t.row.targetId.value !in o.protection)
  }

  function WithLegOf(m: map<TpslId, (Owned, Leg)>, t: Owned, leg: Leg): map<TpslId, (Owned, Leg)> {
    if t.row.LegId(leg).Some? then m[t.row.LegId(leg).value := (t, leg)] else m
  }

  function Added(o: Owners, t: Owned): Owners {
    Owners(o.bySymbol[t.plan.symbol := t], o.byEntry[t.plan.EntryId() := t],
           WithLegOf(WithLegOf(o.protection, t, StopLeg), t, TargetLeg))
  }

  lemma SeparateExtends(trades: seq<Owned>, o: Owners, t: Owned)
    requires Separate(trades) && Exact(trades, o)
    ensures Separate(trades + [t]) <==> IsNew(o, t)
    ensures IsNew(o, t) ==> Exact(trades + [t], Added(o, t))
  {
    var more := trades + [t];
    if IsNew(o, t) {
      forall a | a in trades ensures Apart(a, t) {
        LegsOf(a); LegsOf(t);
      }
      AddedExact(trades, o, t);
    }
    if Separate(more) {
      forall a | a in trades ensures Apart(a, t) {
        var i :| 0 <= i < |trades| && trades[i] == a;
        assert more[i] == a && more[|trades|] == t;
      }
      assert more[|trades|] == t && t in more;
    }
  }

  lemma LegsOf(t: Owned)
    ensures t.row.LegId(StopLeg) == t.row.stopId && t.row.LegId(TargetLeg) == t.row.targetId
  {
  }

  /** The protection lookup alone. */
  ghost predicate ProtectionExact(trades: seq<Owned>, m: map<TpslId, (Owned, Leg)>) {
    && (forall t, leg: Leg :: t in trades && t.row.LegId(leg).Some? ==>
          t.row.LegId(leg).value in m && m[t.row.LegId(leg).value] == (t, leg))
    && (forall id :: id in m ==> m[id].0 in trades && m[id].0.row.LegId(m[id].1) == Some(id))
  }

  lemma ProtectionAdded(trades: seq<Owned>, m: map<TpslId, (Owned, Leg)>, t: Owned)
    requires ProtectionExact(trades, m) && Sound(t)
    requires t.row.stopId.Some? ==> t.row.stopId.value !in m
    requires t.row.targetId.Some? ==> t.row.targetId.value !in m
    ensures ProtectionExact(trades + [t], WithLegOf(WithLegOf(m, t, StopLeg), t, TargetLeg))
  {
  }

  lemma AddedExact(trades: seq<Owned>, o: Owners, t: Owned)
    requires Exact(trades, o) && IsNew(o, t)
    ensures Exact(trades + [t], Added(o, t))
  {
    ProtectionAdded(trades, o.protection, t);
  }

  lemma SeparatePrefix(trades: seq<Owned>, n: nat)
    requires n <= |trades| && !Separate(trades[..n])
    ensures !Separate(trades)
  {
  }

  lemma NothingOwned()
    ensures Separate([]) && Exact([], Owners(map[], map[], map[]))
  {
  }

  /** The lookups built from the durable trades, with a blocker for everything two trades share. */
  method BuildOwners(trades: seq<Owned>) returns (blockers: seq<Blocker>, o: Owners)
    ensures blockers == [] <==> Separate(trades)
    ensures blockers == [] ==> Exact(trades, o)
  {
    hide Separate, Exact, Apart;
    blockers, o := [], Owners(map[], map[], map[]);
    NothingOwned();
    assert trades[..0] == [];
    for i := 0 to |trades|
      invariant blockers == [] <==> Separate(trades[..i])
      invariant blockers == [] ==> Exact(trades[..i], o)
    {
      var t := trades[i];
      assert trades[..i + 1] == trades[..i] + [t];
      if blockers == [] {
        SeparateExtends(trades[..i], o, t);
      } else {
        assert trades[..i + 1][..i] == trades[..i];
        SeparatePrefix(trades[..i + 1], i);
      }
      if !t.allowlisted {
        blockers := blockers + [NotAllowlisted];
        continue;
      }
      if t.plan.symbol in o.bySymbol { blockers := blockers + [SharedSymbol]; }
      if t.plan.EntryId() in o.byEntry { blockers := blockers + [SharedEntry]; }
      var protection := o.protection;
      if t.row.stopId.Some? {
        if t.row.stopId.value in protection { blockers := blockers + [SharedProtection]; }
        protection := protection[t.row.stopId.value := (t, StopLeg)];
      }
      if t.row.targetId.Some? {
        if t.row.targetId.value in protection { blockers := blockers + [SharedProtection]; }
        protection := protection[t.row.targetId.value := (t, TargetLeg)];
      }
      o := Owners(o.bySymbol[t.plan.symbol := t], o.byEntry[t.plan.EntryId() := t], protection);
    }
    assert trades[..|trades|] == trades;
  }

  predicate PositionOwned(bySymbol: map<Symbol, Owned>, p: PositionRow) {
    && Readable(p.quantity)
    && (p.quantity.value > 0.0 ==> p.instrument in bySymbol && HeldAsPlanned(bySymbol[p.instrument], p))
  }

  /** The checks on one positive position row with its owner. */
  method CheckPosition(t: Owned, p: PositionRow) returns (r: Outcome<seq<Blocker>>)
    requires Readable(p.quantity) && p.quantity.value > 0.0
    ensures r == Done([]) <==> HeldAsPlanned(t, p)
  {
    var blockers: seq<Blocker> := [];
    var quantity := p.quantity.value;
    if p.side != Some(t.plan.side) { blockers := blockers + [WrongSide]; }
    if quantity > t.plan.quantity + t.plan.Slack() { blockers := blockers + [ExceedsApproval]; }
    var leverage :- Positive(p.leverage);
    if !Close(leverage, t.plan.leverage, Tolerance(t.plan.leverage)) { blockers := blockers + [WrongLeverage]; }
    if t.row.state == ENTRY_PENDING {
      blockers := blockers + [UnreconciledFill];
    } else if Exposed(t.row.state) && !Close(quantity, t.row.filled, t.plan.Slack()) {
      blockers := blockers + [WrongQuantity];
    }
    return Done(blockers);
  }

  ghost predicate AllOwned(bySymbol: map<Symbol, Owned>, rows: seq<PositionRow>) {
    forall p :: p in rows ==> PositionOwned(bySymbol, p)
  }

  method CheckPositions(bySymbol: map<Symbol, Owned>, rows: seq<PositionRow>)
    returns (r: Outcome<(seq<Blocker>, map<Key, real>)>)
    ensures r.Done? && r.value.0 == [] <==> AllOwned(bySymbol, rows)
    ensures r.Done? && r.value.0 == [] ==> r.value.1 == Projection(PositionLines(rows))
  {
    var blockers: seq<Blocker>, totals: map<Key, real> := [], map[];
    for i := 0 to |rows|
      invariant blockers == [] <==> AllOwned(bySymbol, rows[..i])
      invariant blockers == [] ==> totals == Projection(PositionLines(rows[..i]))
    {
      var p := rows[i];
      NextPosition(bySymbol, rows, i);
      var quantity :- Required(p.quantity);
      if quantity <= 0.0 { continue; }
      if p.side == None {
        blockers := blockers + [MalformedSide];
        continue;
      }
      totals := Accumulate(totals, PositionLine(p));
      if p.instrument !in bySymbol {
        blockers := blockers + [UnownedPosition];
        continue;
      }
      var found :- CheckPosition(bySymbol[p.instrument], p);
      blockers := blockers + found;
    }
    assert rows[..|rows|] == rows;
    return Done((blockers, totals));
  }

  lemma NextPosition(bySymbol: map<Symbol, Owned>, rows: seq<PositionRow>, i: nat)
    requires i < |rows|
    ensures AllOwned(bySymbol, rows[..i + 1]) <==> AllOwned(bySymbol, rows[..i]) && PositionOwned(bySymbol, rows[i])
    ensures AllOwned(bySymbol, rows) ==> AllOwned(bySymbol, rows[..i + 1])
    ensures PositionLines(rows[..i + 1]) == PositionLines(rows[..i]) + [PositionLine(rows[i])]
    ensures Projection(PositionLines(rows[..i + 1])) == Accumulate(Projection(PositionLines(rows[..i])), PositionLine(rows[i]))
  {
    assert rows[..i + 1][..i] == rows[..i];
    assert rows[..i + 1] == rows[..i] + [rows[i]];
    assert forall p :: p in rows[..i] ==> p in rows[..i + 1];
    LastLine(PositionLines(rows[..i]), PositionLine(rows[i]));
  }

  lemma LastLine(lines: seq<Line>, l: Line)
    ensures Projection(lines + [l]) == Accumulate(Projection(lines), l)
  {
  }

  predicate OrderOwned(byEntry: map<OrderId, Owned>, o: OrderRecord) {
    && Readable(o.unfilled)
    && o.id.Some? && o.id.value in byEntry
    && ValidateEntry(byEntry[o.id.value].plan, o).Done? && WorkingState(byEntry[o.id.value].row.state)
  }

  ghost predicate AllOrdersOwned(byEntry: map<OrderId, Owned>, rows: seq<OrderRecord>) {
    forall o :: o in rows ==> OrderOwned(byEntry, o)
  }

  method CheckOrders(byEntry: map<OrderId, Owned>, rows: seq<OrderRecord>)
    returns (r: Outcome<(seq<Blocker>, map<Key, real>)>)
    ensures r.Done? && r.value.0 == [] <==> AllOrdersOwned(byEntry, rows)
    ensures r.Done? && r.value.0 == [] ==> r.value.1 == Projection(OrderLines(rows))
  {
    var blockers: seq<Blocker>, totals: map<Key, real> := [], map[];
    for i := 0 to |rows|
      invariant blockers == [] <==> AllOrdersOwned(byEntry, rows[..i])
      invariant blockers == [] ==> totals == Projection(OrderLines(rows[..i]))
    {
      var o := rows[i];
      NextOrder(byEntry, rows, i);
      var remaining :- Required(o.unfilled);
      totals := Accumulate(totals, OrderLine(o));
      if o.id == None || o.id.value !in byEntry {
        blockers := blockers + [UnownedOrder];
        continue;
      }
      var owner := byEntry[o.id.value];
      var _ :- ValidateEntry(owner.plan, o);
      if !WorkingState(owner.row.state) { blockers := blockers + [RetainedEntry]; }
    }
    assert rows[..|rows|] == rows;
    return Done((blockers, totals));
  }

  lemma NextOrder(byEntry: map<OrderId, Owned>, rows: seq<OrderRecord>, i: nat)
    requires i < |rows|
    ensures AllOrdersOwned(byEntry, rows[..i + 1]) <==> AllOrdersOwned(byEntry, rows[..i]) && OrderOwned(byEntry, rows[i])
    ensures AllOrdersOwned(byEntry, rows) ==> AllOrdersOwned(byEntry, rows[..i + 1])
    ensures Projection(OrderLines(rows[..i + 1])) == Accumulate(Projection(OrderLines(rows[..i])), OrderLine(rows[i]))
  {
    assert rows[..i + 1][..i] == rows[..i];
    assert rows[..i + 1] == rows[..i] + [rows[i]];
    assert forall o :: o in rows[..i] ==> o in rows[..i + 1];
    LastLine(OrderLines(rows[..i]), OrderLine(rows[i]));
  }

  /** `_balance_projection`. */
  method ProjectBalance(rows: seq<BalanceRow>) returns (r: Outcome<map<Key, real>>)
    ensures r.Done? <==> BalanceReadable(rows)
    ensures r.Done? ==> r.value == Projection(BalanceLines(rows))
  {
    var totals: map<Key, real> := map[];
    for i := 0 to |rows|
      invariant BalanceReadable(rows[..i])
      invariant totals == Projection(BalanceLines(rows[..i]))
    {
      var b := rows[i];
      NextBalance(rows, i);
      var quantity :- Required(b.quantity);
      if quantity <= 0.0 { continue; }
      if b.instrument == None || b.side == None { return Raised; }
      totals := Accumulate(totals, BalanceLine(b));
    }
    assert rows[..|rows|] == rows;
    return Done(totals);
  }

  lemma NextBalance(rows: seq<BalanceRow>, i: nat)
    requires i < |rows|
    ensures Projection(BalanceLines(rows[..i + 1])) == Accumulate(Projection(BalanceLines(rows[..i])), BalanceLine(rows[i]))
    ensures rows[..i + 1] == rows[..i] + [rows[i]]
  {
    assert rows[..i + 1][..i] == rows[..i];
    LastLine(BalanceLines(rows[..i]), BalanceLine(rows[i]));
  }

  /** The listing as a dictionary; a row without identity is an error. */
  method ListProtections(rows: seq<TpslRecord>) returns (r: Outcome<map<TpslId, TpslRecord>>)
    ensures r.Done? <==> forall t :: t in rows ==> t.id.Some?
    ensures r.Done? ==> r.value == Listing(rows)
  {
    var listing: map<TpslId, TpslRecord> := map[];
    for i := 0 to |rows|
      invariant forall t :: t in rows[..i] ==> t.id.Some?
      invariant listing == Listing(rows[..i])
    {
      assert rows[..i + 1] == rows[..i] + [rows[i]];
      assert rows[..i + 1][..i] == rows[..i];
      assert rows[i] in rows;
      if rows[i].id == None { return Raised; }
      listing := listing[rows[i].id.value := rows[i]];
    }
    assert rows[..|rows|] == rows;
    return Done(listing);
  }

  lemma {:induction false} ListingKeys(rows: seq<TpslRecord>)
    requires forall t :: t in rows ==> t.id.Some?
    ensures forall id :: id in Listing(rows) ==> Listing(rows)[id] in rows && Listing(rows)[id].id == Some(id)
  {
    if rows != [] {
      ListingKeys(rows[..|rows| - 1]);
    }
  }

  predicate ProtectionOwned(protection: map<TpslId, (Owned, Leg)>, id: TpslId, t: TpslRecord) {
    && t.status != UNKNOWN_TPSL
    && (LiveTpsl(t) ==> id in protection && ValidTpsl(protection[id].0.plan, protection[id].1, t, true, false))
  }

  method CheckProtections(protection: map<TpslId, (Owned, Leg)>, listing: map<TpslId, TpslRecord>)
    returns (r: Outcome<seq<Blocker>>)
    ensures r == Done([]) <==> forall id :: id in listing ==> ProtectionOwned(protection, id, listing[id])
  {
    var blockers: seq<Blocker>, rest := [], listing.Keys;
    while rest != {}
      invariant rest <= listing.Keys
      invariant blockers == [] <==> forall id :: id in listing && id !in rest ==> ProtectionOwned(protection, id, listing[id])
      decreases |rest|
    {
      var id :| id in rest;
      rest := rest - {id};
      var t := listing[id];
      assert id in listing && id !in rest;
      if t.status == UNKNOWN_TPSL { return Raised; }
      if !LiveTpsl(t) { continue; }
      if id !in protection {
        blockers := blockers + [UnownedProtection];
        continue;
      }
      if !ValidTpsl(protection[id].0.plan, protection[id].1, t, true, false) { return Raised; }
    }
    return Done(blockers);
  }

  /** The symbol appears in the accumulated positions on either side. */
  predicate OpenIn(totals: map<Key, real>, s: Symbol) {
    (s, None) in totals || (s, Some(BUY)) in totals || (s, Some(SELL)) in totals
  }

  method CheckTrades(trades: seq<Owned>, totals: map<Key, real>, listing: map<TpslId, TpslRecord>)
    returns (blockers: seq<Blocker>)
    ensures blockers == [] <==> forall t :: t in trades ==> TradeClean(t, OpenIn(totals, t.plan.symbol), listing)
  {
    blockers := [];
    for i := 0 to |trades|
      invariant blockers == [] <==>
        forall k :: 0 <= k < i ==> TradeClean(trades[k], OpenIn(totals, trades[k].plan.symbol), listing)
    {
      var t := trades[i];
      var open := OpenIn(totals, t.plan.symbol);
      if t.row.state == ACTIVE && !open { blockers := blockers + [MissingPosition]; }
      if Exposed(t.row.state) && open && !ShownLive(listing, t.row.stopId) { blockers := blockers + [Unprotected]; }
      if t.row.state == ACTIVE && open && !ShownLive(listing, t.row.targetId) { blockers := blockers + [MissingTarget]; }
    }
  }

  lemma {:induction false} ProjectionKeys(lines: seq<Line>, key: Key)
    ensures key in Projection(lines) <==> exists l :: l in lines && l.key == key && l.amount > 0.0
  {
    if lines != [] {
      var front, last := lines[..|lines| - 1], lines[|lines| - 1];
      ProjectionKeys(front, key);
      assert lines == front + [last];
    }
  }

  lemma {:induction false} LinesOfPositions(rows: seq<PositionRow>)
    ensures |PositionLines(rows)| == |rows|
    ensures forall i :: 0 <= i < |rows| ==> PositionLines(rows)[i] == PositionLine(rows[i])
  {
    if rows != [] {
      LinesOfPositions(rows[..|rows| - 1]);
    }
  }

  lemma {:induction false} LinesOfOrders(rows: seq<OrderRecord>)
    ensures |OrderLines(rows)| == |rows|
    ensures forall i :: 0 <= i < |rows| ==> OrderLines(rows)[i] == OrderLine(rows[i])
  {
    if rows != [] {
      LinesOfOrders(rows[..|rows| - 1]);
    }
  }

  lemma {:induction false} LinesOfBalance(rows: seq<BalanceRow>)
    ensures |BalanceLines(rows)| == |rows|
    ensures forall i :: 0 <= i < |rows| ==> BalanceLines(rows)[i] == BalanceLine(rows[i])
  {
    if rows != [] {
      LinesOfBalance(rows[..|rows| - 1]);
    }
  }

  lemma OpenMeansHeld(rows: seq<PositionRow>, s: Symbol)
    ensures OpenIn(Projection(PositionLines(rows)), s) <==> HasPosition(rows, s)
  {
    var lines := PositionLines(rows);
    LinesOfPositions(rows);
    ProjectionKeys(lines, (s, None));
    ProjectionKeys(lines, (s, Some(BUY)));
    ProjectionKeys(lines, (s, Some(SELL)));
    if HasPosition(rows, s) {
      var p :| p in rows && p.instrument == s && p.quantity.Number? && p.quantity.value > 0.0;
      var i :| 0 <= i < |rows| && rows[i] == p;
      assert lines[i] == PositionLine(p) && lines[i] in lines;
      match p.side {
        case None =>
        case Some(side) => assert side == BUY || side == SELL;
      }
    }
    if OpenIn(Projection(lines), s) {
      var l :| l in lines && l.key.0 == s && l.amount > 0.0;
      var i :| 0 <= i < |lines| && lines[i] == l;
      assert rows[i] in rows;
    }
  }

  // ----------------------------------------------------- what the totals are

  /** The open quantity of the positions of one instrument and side. */
  function HeldIn(rows: seq<PositionRow>, s: Symbol, side: Option<Side>): real {
    if rows == [] then 0.0
    else
      var p := rows[|rows| - 1];
      HeldIn(rows[..|rows| - 1], s, side)
      + if p.instrument == s && p.side == side && p.quantity.Number? then p.quantity.value else 0.0
  }

  /** The unfilled quantity of the orders of one instrument and side. */
  function WorkingIn(rows: seq<OrderRecord>, s: Symbol, side: Option<Side>): real {
    if rows == [] then 0.0
    else
      var o := rows[|rows| - 1];
      WorkingIn(rows[..|rows| - 1], s, side)
      + if o.instrument == s && o.side == side && o.unfilled.Number? then o.unfilled.value else 0.0
  }

  /** What the balance summary says about one instrument and side. */
  function SummaryIn(rows: seq<BalanceRow>, s: Symbol, side: Option<Side>): real {
    if rows == [] then 0.0
    else
      var b := rows[|rows| - 1];
      SummaryIn(rows[..|rows| - 1], s, side)
      + if b.instrument == Some(s) && b.side == side && b.quantity.Number? then b.quantity.value else 0.0
  }

  /** Both nothing, or both something and within the tolerance of each other. */
  predicate Agree(a: real, b: real) {
    (a > 0.0 <==> b > 0.0) && Close(a, b, ABS_TOL)
  }

  lemma TotalAppend(lines: seq<Line>, l: Line, key: Key)
    ensures Total(lines + [l], key) == Total(lines, key) + if l.key == key then l.amount else 0.0
  {
  }

  lemma {:induction false} HeldIsTotal(rows: seq<PositionRow>, s: Symbol, side: Option<Side>)
    ensures Total(PositionLines(rows), (s, side)) == HeldIn(rows, s, side)
  {
    if rows != [] {
      HeldIsTotal(rows[..|rows| - 1], s, side);
      TotalAppend(PositionLines(rows[..|rows| - 1]), PositionLine(rows[|rows| - 1]), (s, side));
    }
  }

  lemma {:induction false} WorkingIsTotal(rows: seq<OrderRecord>, s: Symbol, side: Option<Side>)
    ensures Total(OrderLines(rows), (s, side)) == WorkingIn(rows, s, side)
  {
    if rows != [] {
      WorkingIsTotal(rows[..|rows| - 1], s, side);
      TotalAppend(OrderLines(rows[..|rows| - 1]), OrderLine(rows[|rows| - 1]), (s, side));
    }
  }

  lemma {:induction false} SummaryIsTotal(rows: seq<BalanceRow>, s: Symbol, side: Option<Side>)
    requires BalanceReadable(rows)
    ensures Total(BalanceLines(rows), (s, side)) == SummaryIn(rows, s, side)
  {
    if rows != [] {
      var front, last := rows[..|rows| - 1], rows[|rows| - 1];
      assert last in rows && forall b :: b in front ==> b in rows;
      SummaryIsTotal(front, s, side);
      TotalAppend(BalanceLines(front), BalanceLine(last), (s, side));
    }
  }

  /** In a clean account the balance summary agrees with what is held and with what still works, instrument by instrument
      and side by side. */
  lemma CleanMeansSums(v: AccountView, trades: seq<Owned>, s: Symbol, side: Option<Side>)
    requires Clean(v, trades)
    ensures Agree(SummaryIn(v.balancePositions, s, side), HeldIn(v.snapshot.positions, s, side))
    ensures Agree(SummaryIn(v.balanceOrders, s, side), WorkingIn(v.snapshot.orders, s, side))
  {
    SummaryIsTotal(v.balancePositions, s, side);
    SummaryIsTotal(v.balanceOrders, s, side);
    HeldIsTotal(v.snapshot.positions, s, side);
    WorkingIsTotal(v.snapshot.orders, s, side);
    assert SameTotals(BalanceLines(v.balancePositions), PositionLines(v.snapshot.positions));
    assert SameTotals(BalanceLines(v.balanceOrders), OrderLines(v.snapshot.orders));
    hide Clean;
  }

  /** With separate owners in exact lookups, asking the lookups is asking all trades. */
  lemma LookupsAnswer(v: AccountView, trades: seq<Owned>, o: Owners)
    requires Separate(trades) && Exact(trades, o)
    ensures AllOwned(o.bySymbol, v.snapshot.positions) <==>
              forall p :: p in v.snapshot.positions ==> PositionClean(trades, p)
    ensures AllOrdersOwned(o.byEntry, v.snapshot.orders) <==>
              forall r :: r in v.snapshot.orders ==> OrderClean(trades, r)
  {
  }

  lemma ProtectionLookupAnswers(trades: seq<Owned>, protection: map<TpslId, (Owned, Leg)>, id: TpslId, t: TpslRecord)
    requires ProtectionExact(trades, protection) && t.id == Some(id)
    ensures ProtectionOwned(protection, id, t) <==> ProtectionClean(trades, t)
  {
  }

  lemma AmountsReadable(v: AccountView)
    requires forall p :: p in v.snapshot.positions ==> Readable(p.quantity)
    requires forall r :: r in v.snapshot.orders ==> Readable(r.unfilled)
    requires BalanceReadable(v.balancePositions) && BalanceReadable(v.balanceOrders)
    ensures NonNegative(PositionLines(v.snapshot.positions)) && NonNegative(OrderLines(v.snapshot.orders))
    ensures NonNegative(BalanceLines(v.balancePositions)) && NonNegative(BalanceLines(v.balanceOrders))
  {
    LinesOfPositions(v.snapshot.positions);
    LinesOfOrders(v.snapshot.orders);
    LinesOfBalance(v.balancePositions);
    LinesOfBalance(v.balanceOrders);
  }

  /** What each pass of the audit asks, in the words of `Clean`. */
  ghost predicate OrdersClean(v: AccountView, trades: seq<Owned>) {
    && (forall p :: p in v.snapshot.positions ==> PositionClean(trades, p))
    && (forall o :: o in v.snapshot.orders ==> OrderClean(trades, o))
  }

  ghost predicate ProtectionsClean(v: AccountView, trades: seq<Owned>) {
    && (forall t :: t in v.snapshot.tpsl ==> t.id.Some?)
    && (forall id :: id in Listing(v.snapshot.tpsl) ==> ProtectionClean(trades, Listing(v.snapshot.tpsl)[id]))
    && (forall t :: t in trades ==> TradeClean(t, HasPosition(v.snapshot.positions, t.plan.symbol), Listing(v.snapshot.tpsl)))
  }

  ghost predicate BalanceClean(v: AccountView) {
    && BalanceReadable(v.balancePositions) && BalanceReadable(v.balanceOrders)
    && SameTotals(BalanceLines(v.balancePositions), PositionLines(v.snapshot.positions))
    && SameTotals(BalanceLines(v.balanceOrders), OrderLines(v.snapshot.orders))
  }

  method AuditProtections(v: AccountView, trades: seq<Owned>, o: Owners, totals: map<Key, real>)
    returns (r: Outcome<seq<Blocker>>)
    ensures Separate(trades) && Exact(trades, o) && totals == Projection(PositionLines(v.snapshot.positions)) ==>
              (r == Done([]) <==> ProtectionsClean(v, trades))
  {
    hide ProtectionClean, ProtectionOwned, Separate, TradeClean, Projection, HasPosition;
    var listing :- ListProtections(v.snapshot.tpsl);
    ListingKeys(v.snapshot.tpsl);
    if Exact(trades, o) {
      forall id | id in listing
        ensures ProtectionOwned(o.protection, id, listing[id]) <==> ProtectionClean(trades, listing[id])
      {
        ProtectionLookupAnswers(trades, o.protection, id, listing[id]);
      }
    }
    var unowned :- CheckProtections(o.protection, listing);
    var unprotected := CheckTrades(trades, totals, listing);
    if Exact(trades, o) && totals == Projection(PositionLines(v.snapshot.positions)) {
      forall s ensures OpenIn(totals, s) <==> HasPosition(v.snapshot.positions, s) {
        OpenMeansHeld(v.snapshot.positions, s);
      }
      forall t | t in trades
        ensures TradeClean(t, OpenIn(totals, t.plan.symbol), listing)
            <==> TradeClean(t, HasPosition(v.snapshot.positions, t.plan.symbol), Listing(v.snapshot.tpsl))
      {
        assert OpenIn(totals, t.plan.symbol) <==> HasPosition(v.snapshot.positions, t.plan.symbol);
      }
      assert unowned == [] <==> forall id :: id in listing ==> ProtectionClean(trades, listing[id]);
      assert unowned + unprotected == [] <==> ProtectionsClean(v, trades);
    }
    return Done(unowned + unprotected);
  }

  method AuditBalance(v: AccountView, positions: map<Key, real>, orders: map<Key, real>) returns (r: Outcome<seq<Blocker>>)
    ensures positions == Projection(PositionLines(v.snapshot.positions)) && orders == Projection(OrderLines(v.snapshot.orders))
            && (forall p :: p in v.snapshot.positions ==> Readable(p.quantity))
            && (forall o :: o in v.snapshot.orders ==> Readable(o.unfilled)) ==>
              (r == Done([]) <==> BalanceClean(v))
  {
    hide SameTotals, ProjectionsMatch, Projection;
    var held :- ProjectBalance(v.balancePositions);
    var open :- ProjectBalance(v.balanceOrders);
    if (forall p :: p in v.snapshot.positions ==> Readable(p.quantity))
       && (forall o :: o in v.snapshot.orders ==> Readable(o.unfilled))
    {
      AmountsReadable(v);
      MatchMeansSameTotals(BalanceLines(v.balancePositions), PositionLines(v.snapshot.positions));
      MatchMeansSameTotals(BalanceLines(v.balanceOrders), OrderLines(v.snapshot.orders));
    }
    var differ: seq<Blocker> := [];
    if !ProjectionsMatch(held, positions) { differ := differ + [PositionsDiffer]; }
    if !ProjectionsMatch(open, orders) { differ := differ + [OrdersDiffer]; }
    return Done(differ);
  }

  /** `_authoritative_account_blockers`: no blocker, and no error, exactly when the whole snapshot is accounted for. */
  method Audit(v: AccountView, trades: seq<Owned>) returns (r: Outcome<seq<Blocker>>)
    ensures r == Done([]) <==> Clean(v, trades)
  {
    hide Separate, Exact, PositionClean, OrderClean, ProtectionClean, TradeClean, SameTotals, BalanceReadable, Projection,
      AllOwned, AllOrdersOwned, Listing;
    var account := (if v.identityMatches then [] else [WrongAccount]) + if v.marginFree then [] else [MarginCall];
    var shared, owners := BuildOwners(trades);
    if shared == [] {
      LookupsAnswer(v, trades, owners);
    }
    var positions :- CheckPositions(owners.bySymbol, v.snapshot.positions);
    var orders :- CheckOrders(owners.byEntry, v.snapshot.orders);
    var protections :- AuditProtections(v, trades, owners, positions.1);
    if OrdersClean(v, trades) {
      CleanRowsReadable(v, trades);
    }
    var balance :- AuditBalance(v, positions.1, orders.1);
    return Done(account + shared + positions.0 + orders.0 + protections + balance);
  }

  lemma CleanRowsReadable(v: AccountView, trades: seq<Owned>)
    requires OrdersClean(v, trades)
    ensures forall p :: p in v.snapshot.positions ==> Readable(p.quantity)
    ensures forall o :: o in v.snapshot.orders ==> Readable(o.unfilled)
  {
  }

  /** In a clean account every open position row belongs to exactly one trade, which holds it as planned. */
  lemma CleanPositionHasOneOwner(v: AccountView, trades: seq<Owned>, p: PositionRow)
    requires Clean(v, trades) && p in v.snapshot.positions && p.quantity.Number? && p.quantity.value > 0.0
    ensures exists i :: 0 <= i < |trades| && HeldAsPlanned(trades[i], p)
              && forall j :: 0 <= j < |trades| ==> (trades[j].plan.symbol == p.instrument <==> j == i)
  {
  }

  /** In a clean account no trade with exposure is without its live stop, and no ACTIVE trade without either leg. */
  lemma CleanExposureIsProtected(v: AccountView, trades: seq<Owned>, t: Owned)
    requires Clean(v, trades) && t in trades && t.row.state in {PROTECTING, ACTIVE}
    requires HasPosition(v.snapshot.positions, t.plan.symbol) || t.row.state == ACTIVE
    ensures exists s :: s in v.snapshot.tpsl && s.id == t.row.stopId && LiveTpsl(s) && PlannedTpsl(t.plan, StopLeg, s)
                    && s.price.Number? && Close(s.price.value, t.plan.stopPrice, REL_TOL)
    ensures t.row.state == ACTIVE ==>
      exists s :: s in v.snapshot.tpsl && s.id == t.row.targetId && LiveTpsl(s) && PlannedTpsl(t.plan, TargetLeg, s)
              && s.price.Number? && Close(s.price.value, t.plan.targetPrice, REL_TOL)
  {
    hide HeldAsPlanned, OrderClean, PositionClean, SameTotals, BalanceReadable, PlannedTpsl, Close;
    PricesArePlanned(t.plan, v.snapshot.tpsl);
    ListingKeys(v.snapshot.tpsl);
    var listing := Listing(v.snapshot.tpsl);
    LiveLegIsOwn(v, trades, t, StopLeg, t.row.stopId);
    if t.row.state == ACTIVE {
      LiveLegIsOwn(v, trades, t, TargetLeg, t.row.targetId);
    }
  }

  lemma PricesArePlanned(plan: Plan, rows: seq<TpslRecord>)
    ensures forall s :: s in rows && PlannedTpsl(plan, StopLeg, s) ==>
              s.price.Number? && Close(s.price.value, plan.stopPrice, REL_TOL)
    ensures forall s :: s in rows && PlannedTpsl(plan, TargetLeg, s) ==>
              s.price.Number? && Close(s.price.value, plan.targetPrice, REL_TOL)
  {
  }

  lemma LiveLegIsOwn(v: AccountView, trades: seq<Owned>, t: Owned, leg: Leg, id: Option<TpslId>)
    requires Clean(v, trades) && t in trades && id == t.row.LegId(leg) && ListedLive(Listing(v.snapshot.tpsl), id)
    ensures exists s :: s in v.snapshot.tpsl && s.id == id && LiveTpsl(s) && PlannedTpsl(t.plan, leg, s)
  {
    hide HeldAsPlanned, OrderClean, PositionClean, SameTotals, BalanceReadable, PlannedTpsl, TradeClean, Listing;
    ListingKeys(v.snapshot.tpsl);
    var s := Listing(v.snapshot.tpsl)[id.value];
    assert ProtectionClean(trades, s);
    var o, other: Leg :| o in trades && o.row.LegId(other).Some? && s.id == o.row.LegId(other) && PlannedTpsl(o.plan, other, s);
    OneHolder(trades, o, other, t, leg);
  }

  lemma OneHolder(trades: seq<Owned>, a: Owned, x: Leg, b: Owned, y: Leg)
    requires Separate(trades) && a in trades && b in trades
    requires a.row.LegId(x).Some? && a.row.LegId(x) == b.row.LegId(y)
    ensures a == b && x == y
  {
  }
}
