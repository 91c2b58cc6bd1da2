/** How one account read settles an immediate-or-cancel entry order. */
module EntrySettlement {
  import opened Outcomes
  import opened Amounts
  import opened VenueRecords

  const SETTLE_ATTEMPTS: nat := 4

  /** The filled quantity an entry record proves. */
  function Fill(plan: Plan, o: OrderRecord): real {
    var ack := ValidateEntry(plan, o);
    if ack.Done? then ack.value.filled else 0.0
  }

  /** The entry's own record behind a fill, if there is one: the open order, else the historical one, checked. */
  function FillSource(plan: Plan, view: Snapshot): (r: Outcome<Option<EntryAck>>)
    ensures !r.Crashed?
  {
    var open :- FindOrder(view, plan.EntryId());
    var past :- if open == None then FindHistorical(view, plan.EntryId()) else Done(None);
    var source := if open.Some? then open else past;
    if source == None then Done(None)
    else
      var ack :- ValidateEntry(plan, source.value);
      Done(Some(ack))
  }

  predicate Covers(plan: Plan, o: OrderRecord, position: real) {
    Fill(plan, o) + plan.Slack() >= position
  }

  predicate TerminalUnfilled(plan: Plan, o: OrderRecord) {
    Fill(plan, o) <= 0.0 && TerminalOrder(o.status)
  }

  /** The open and the historical record of the entry; two equal records are one. */
  function Candidates(plan: Plan, view: Snapshot): (r: Outcome<seq<OrderRecord>>)
    ensures !r.Crashed?
    ensures r.Done? ==> forall c :: c in r.value ==> c.id == Some(plan.EntryId()) && (c in view.orders || c in view.history)
    ensures r.Done? ==> forall i, j :: 0 <= i < j < |r.value| ==> r.value[i] != r.value[j]
  {
    var open :- FindOrder(view, plan.EntryId());
    var past :- FindHistorical(view, plan.EntryId());
    Done((if open.Some? then [open.value] else [])
         + if past.Some? && past != open then [past.value] else [])
  }

  function Filter(rows: seq<OrderRecord>, p: OrderRecord -> bool): (r: seq<OrderRecord>)
    ensures forall o :: o in r <==> o in rows && p(o)
  {
    if rows == [] then []
    else
      assert rows == [rows[0]] + rows[1..];
      (if p(rows[0]) then [rows[0]] else []) + Filter(rows[1..], p)
  }

  datatype Settlement = Settlement(order: Option<OrderRecord>, fillSeen: bool)

  /** Position and entry records are readable, every record passes validation, an open position is covered by
      exactly one of them, and without a position at most one of them is terminal and unfilled. */
  ghost predicate Decidable(plan: Plan, view: Snapshot) {
    && PositionForTrade(plan, view).Done? && Candidates(plan, view).Done?
    && (forall c :: c in Candidates(plan, view).value ==> ValidateEntry(plan, c).Done?)
    && var position, rows := PositionForTrade(plan, view).value, Candidates(plan, view).value;
       if position > 0.0 then
         && (exists c :: c in rows && Covers(plan, c, position))
         && forall a, b :: a in rows && b in rows && Covers(plan, a, position) && Covers(plan, b, position) ==> a == b
       else
         forall a, b :: a in rows && b in rows && TerminalUnfilled(plan, a) && TerminalUnfilled(plan, b) ==> a == b
  }

  /** Of distinct rows a filter keeps at most one exactly when at most one passes. */
  lemma {:induction false} FilterUnique(rows: seq<OrderRecord>, p: OrderRecord -> bool)
    requires forall i, j :: 0 <= i < j < |rows| ==> rows[i] != rows[j]
    ensures |Filter(rows, p)| <= 1 <==> forall a, b :: a in rows && b in rows && p(a) && p(b) ==> a == b
    ensures Filter(rows, p) == [] <==> forall o :: o in rows ==> !p(o)
  {
    if rows != [] {
      assert rows == [rows[0]] + rows[1..] && rows[0] !in rows[1..];
      FilterUnique(rows[1..], p);
      if Filter(rows[1..], p) != [] {
        assert Filter(rows[1..], p)[0] in rows[1..];
      }
    }
  }

  /** `_settled_entry_projection`: the record that settles the entry, if this read has one. */
  function SettledEntryProjection(plan: Plan, view: Snapshot): (r: Outcome<Settlement>)
    ensures !r.Crashed?
    ensures r.Done? ==> PositionForTrade(plan, view).Done? && Candidates(plan, view).Done?
  {
    var position :- PositionForTrade(plan, view);
    var candidates :- Candidates(plan, view);
    if exists c :: c in candidates && !ValidateEntry(plan, c).Done? then Raised
    else if position > 0.0 then
      var matching := Filter(candidates, c => Covers(plan, c, position));
      if |matching| != 1 then Raised else Done(Settlement(Some(matching[0]), true))
    else
      var terminal := Filter(candidates, c => TerminalUnfilled(plan, c));
      if |terminal| > 1 then Raised
      else
        var fillSeen := exists c :: c in candidates && Fill(plan, c) > 0.0;
        Done(Settlement(if terminal == [] then None else Some(terminal[0]), fillSeen))
  }

  /** Exactly when one read can settle the entry or leave it open, for every view. */
  lemma ProjectionDefined(plan: Plan, view: Snapshot)
    ensures SettledEntryProjection(plan, view).Done? <==> Decidable(plan, view)
  {
    hide PositionForTrade, Candidates, ValidateEntry, Covers, TerminalUnfilled, Filter, Fill;
    if PositionForTrade(plan, view).Done? && Candidates(plan, view).Done? {
      var position, rows := PositionForTrade(plan, view).value, Candidates(plan, view).value;
      var covers: OrderRecord -> bool := c => Covers(plan, c, position);
      var terminal: OrderRecord -> bool := c => TerminalUnfilled(plan, c);
      FilterUnique(rows, covers);
      FilterUnique(rows, terminal);
    }
  }

  /** The record is valid, and the fill it proves makes up this much of a position, within the tolerance of the plan. */
  predicate FillsUpTo(plan: Plan, o: OrderRecord, position: real) {
    ValidateEntry(plan, o).Done? && position - ValidateEntry(plan, o).value.filled <= Tolerance(plan.quantity)
  }

  /** `o` is the entry's own record in this view, and the only one whose fill covers the open position. */
  ghost predicate CoversPosition(plan: Plan, view: Snapshot, o: OrderRecord) {
    && PositionForTrade(plan, view).Done? && PositionForTrade(plan, view).value > 0.0
    && Candidates(plan, view).Done? && o in Candidates(plan, view).value
    && forall c :: c in Candidates(plan, view).value ==>
         (FillsUpTo(plan, c, PositionForTrade(plan, view).value) <==> c == o)
  }

  /** `o` is the entry's own terminal record in this view, nothing filled, and there is no position. */
  ghost predicate UnfilledAndFlat(plan: Plan, view: Snapshot, o: OrderRecord) {
    && PositionForTrade(plan, view) == Done(0.0)
    && Candidates(plan, view).Done? && o in Candidates(plan, view).value
    && ValidateEntry(plan, o).Done? && ValidateEntry(plan, o).value.filled <= 0.0
    && o.status in {CANCELED, REJECTED, EXPIRED, REPLACED}
  }

  /** No open entry order, no fill on record and no position. */
  ghost predicate NothingLeft(plan: Plan, view: Snapshot) {
    && PositionForTrade(plan, view) == Done(0.0)
    && FindOrder(view, plan.EntryId()) == Done(None)
    && Candidates(plan, view).Done? && forall c :: c in Candidates(plan, view).value ==> Fill(plan, c) <= 0.0
  }

  /** The three ways a settlement may end, as shown by its last read: the returned record is the entry's own and
      covers the open position; or is terminal with nothing filled and no position; or is the acknowledged
      order marked CANCELED after a read with no entry order, no fill and no position. */
  ghost predicate SettledBy(plan: Plan, view: Snapshot, acknowledged: OrderRecord, o: OrderRecord) {
    || CoversPosition(plan, view, o)
    || UnfilledAndFlat(plan, view, o)
    || (NothingLeft(plan, view) && o == acknowledged.(status := CANCELED))
  }

  /** What one read proves about the entry, for every view. */
  lemma ProjectionMeaning(plan: Plan, view: Snapshot)
    requires SettledEntryProjection(plan, view).Done?
    ensures
      var s := SettledEntryProjection(plan, view).value;
      && (s.order.Some? ==> ValidateEntry(plan, s.order.value).Done?)
      && (s.order.Some? ==> CoversPosition(plan, view, s.order.value) || UnfilledAndFlat(plan, view, s.order.value))
      && (s.order == None ==> PositionForTrade(plan, view) == Done(0.0))
      && (s.order == None && !s.fillSeen && FindOrder(view, plan.EntryId()) == Done(None) ==> NothingLeft(plan, view))
  {
    var position := PositionForTrade(plan, view).value;
    var candidates := Candidates(plan, view).value;
    if position > 0.0 {
      var matching := Filter(candidates, c => Covers(plan, c, position));
      assert forall c :: c in matching <==> c == matching[0];
    } else {
      var terminal := Filter(candidates, c => TerminalUnfilled(plan, c));
      if terminal != [] {
        assert terminal[0] in terminal;
      }
    }
  }

  /** The position is open and an entry record that covers it is still working. */
  ghost predicate WorkingCover(plan: Plan, view: Snapshot) {
    && PositionForTrade(plan, view).Done? && PositionForTrade(plan, view).value > 0.0
    && Candidates(plan, view).Done?
    && exists c ::
         && c in Candidates(plan, view).value && StillFillable(c.status)
         && FillsUpTo(plan, c, PositionForTrade(plan, view).value)
  }

  /** A settled order can still fill exactly when the position is open and the entry record that covers it is
      still working: a partial fill is accepted without waiting for the order to end. */
  lemma SettledButStillFillable(plan: Plan, view: Snapshot, acknowledged: OrderRecord, o: OrderRecord)
    requires SettledBy(plan, view, acknowledged, o)
    ensures StillFillable(o.status) <==> WorkingCover(plan, view)
  {
  }
}
