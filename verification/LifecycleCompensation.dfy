/** What must follow when protecting a fill, or placing an entry, does not succeed. Each predicate reads it off the
    history from one position on; none of them depends on how the engine gets there. */
module LifecycleCompensation {
  import opened Outcomes
  import opened Amounts
  import opened VenueRecords
  import opened EntrySettlement
  import opened LifecycleLog
  import opened LifecycleWorld
  import opened LifecycleEvidence

  /** An account read, whatever came of it. */
  predicate IsRead(e: Event) {
    e.Observed? || e == Faulted(Reading)
  }

  predicate NoReads(log: seq<Event>, from: nat, to: nat) {
    forall i :: from <= i < to && i < |log| ==> !IsRead(log[i])
  }

  /** The transition to `after` raised, committed or not, and its caller with it. */
  predicate Halted(log: seq<Event>, n: nat, after: Trade) {
    || (|log| == n + 1 && log[n] == Faulted(Moving(after)))
    || (|log| == n + 2 && log[n].Moved? && log[n].after == after && log[n + 1] == Faulted(Moving(after)))
  }

  /** The row goes to `after` at `n`, and on from there as `rest` says, unless the transition raises. */
  predicate Moves(log: seq<Event>, n: nat, after: Trade, raised: bool, rest: bool) {
    || (raised && Halted(log, n, after))
    || (n < |log| && log[n].Moved? && log[n].after == after && rest)
  }

  /** From `n` on a transition raised. */
  predicate MoveFaulted(log: seq<Event>, n: nat) {
    exists k :: n <= k < |log| && log[k].Faulted? && log[k].call.Moving?
  }

  /** From `n` on the row entered `state`, or a transition on the way raised. */
  predicate TakenUp(log: seq<Event>, n: nat, state: TradeState) {
    MoveFaulted(log, n) || exists k :: n <= k < |log| && log[k].Moved? && log[k].after.state == state
  }

  lemma TakenLast(a: seq<Event>, b: seq<Event>, state: TradeState)
    requires a <= b && |a| < |b|
    requires (b[|a|].Moved? && b[|a|].after.state == state) || (b[|a|].Faulted? && b[|a|].call.Moving?)
    ensures TakenUp(b, |a|, state)
  {
  }

  predicate ReadAt(log: seq<Event>, n: nat) {
    n < |log| && IsRead(log[n])
  }

  /** From `n` on the row entered `state` and the account was read again, or a transition on the way raised. */
  predicate ExitEntered(log: seq<Event>, n: nat, state: TradeState) {
    || MoveFaulted(log, n)
    || exists k :: n <= k < |log| && log[k].Moved? && log[k].after.state == state && ReadAt(log, k + 1)
  }

  /** The effect is journalled and then sent, unless an await on the way raises. */
  predicate Undertaken(log: seq<Event>, n: nat, id: EffectId, request: Request) {
    && n < |log|
    && (log[n] == Faulted(Journalling(id))
        || (n + 1 < |log| && log[n] == Prepared(id, request) && (log[n + 1].Faulted? || log[n + 1] == Sent(id))))
  }

  /** The account shows the entry order gone, and a readable position of the trade. */
  predicate Measures(plan: Plan, e: Event) {
    e.Observed? && FindOrder(e.view, plan.EntryId()) == Done(None) && PositionForTrade(plan, e.view).Done?
  }

  /** What an exit does about a measured position: close it, or read again that there is none. */
  predicate ClosingFrom(log: seq<Event>, n: nat, exit: ManualExit, quantity: real) {
    if quantity > 0.0 then Undertaken(log, n, ClosePosition(exit), CloseRequest(quantity))
    else n < |log| && IsRead(log[n])
  }

  /** After the read at `i` the exit was taken up: the row went to EXITING_EMERGENCY and the position is being closed,
      or a transition on the way raised. */
  ghost predicate ExitTaken(plan: Plan, log: seq<Event>, i: nat)
    requires i < |log| && log[i].Observed? && PositionForTrade(plan, log[i].view).Done?
  {
    exists k :: i < k < |log| && IsExit(log, k, PositionForTrade(plan, log[i].view).value)
  }

  predicate IsExit(log: seq<Event>, k: nat, quantity: real)
    requires k < |log|
  {
    || (log[k].Faulted? && log[k].call.Moving?)
    || (log[k].Moved? && log[k].after.state == EXITING_EMERGENCY && ClosingFrom(log, k + 1, EmergencyExit, quantity))
  }

  /** The first read from `n` on that measures the position. */
  ghost predicate FirstMeasure(plan: Plan, log: seq<Event>, n: nat, i: nat) {
    n <= i < |log| && Measures(plan, log[i]) && forall j :: n <= j < i ==> !Measures(plan, log[j])
  }

  /** The cancellation of the entry is on the way, without an outcome. */
  predicate CancelUnderWay(w: World) {
    CancelEntry in w.effects && !Settled(w.effects[CancelEntry].status)
  }

  predicate ShowsEntry(plan: Plan, view: Snapshot) {
    FindOrder(view, plan.EntryId()).Done? && FindOrder(view, plan.EntryId()).value.Some?
  }

  /** No read in this stretch shows the entry order gone. */
  predicate NeverGone(plan: Plan, log: seq<Event>, from: nat, to: nat) {
    forall i :: from <= i < to && i < |log| && log[i].Observed? ==> FindOrder(log[i].view, plan.EntryId()) != Done(None)
  }

  /** One event more: nothing stood before it in this stretch. */
  lemma OneRead(plan: Plan, a: seq<Event>, b: seq<Event>)
    requires a <= b && |b| <= |a| + 1
    ensures NeverGone(plan, b, |a|, |a|)
    ensures |b| == |a| + 1 && (b[|a|].Observed? ==> FindOrder(b[|a|].view, plan.EntryId()) != Done(None)) ==>
              NeverGone(plan, b, |a|, |b|)
  {
  }

  /** Two stretches in a row. */
  lemma StillGoneOn(plan: Plan, a: seq<Event>, b: seq<Event>, from: nat)
    requires a <= b && from <= |a| && NeverGone(plan, a, from, |a|)
    ensures forall to {:trigger NeverGone(plan, b, |a|, to)} ::
              |a| <= to <= |b| && NeverGone(plan, b, |a|, to) ==> NeverGone(plan, b, from, to)
  {
    hide FindOrder;
    assert forall i :: 0 <= i < |a| ==> b[i] == a[i];
  }

  /** At `n` the account is read, and where it shows the entry order, more follows. */
  predicate OpensAt(w: World, n: nat) {
    && n < |w.log| && IsRead(w.log[n])
    && (w.log[n].Observed? && ShowsEntry(w.plan, w.log[n].view) ==> n + 1 < |w.log| || CancelUnderWay(w))
  }

  /** From `n` on: the account is read; an entry order that is still listed is cancelled first; and as soon as a read
      shows it gone beside a readable position, the exit is taken up. */
  ghost predicate EmergencyFrom(w: World, n: nat) {
    OpensAt(w, n) && forall i: nat :: FirstMeasure(w.plan, w.log, n, i) ==> ExitTaken(w.plan, w.log, i)
  }

  /** That read measures this much. */
  ghost predicate MeasuredAt(plan: Plan, log: seq<Event>, n: nat, i: nat, quantity: real) {
    FirstMeasure(plan, log, n, i) && PositionForTrade(plan, log[i].view) == Done(quantity)
  }

  /** The first read that shows the entry order gone is the first that may measure. */
  lemma MeasuredLast(plan: Plan, log: seq<Event>, n: nat, view: Snapshot)
    requires n < |log| && NeverGone(plan, log, n, |log| - 1) && log[|log| - 1] == Observed(view)
    requires FindOrder(view, plan.EntryId()) == Done(None)
    ensures PositionForTrade(plan, view).Done? ==>
              MeasuredAt(plan, log, n, |log| - 1, PositionForTrade(plan, view).value)
    ensures !PositionForTrade(plan, view).Done? ==> forall i: nat :: !FirstMeasure(plan, log, n, i)
  {
    hide FindOrder, PositionForTrade;
  }

  lemma NeverMeasured(plan: Plan, log: seq<Event>, n: nat)
    requires NeverGone(plan, log, n, |log|)
    ensures forall i: nat :: !FirstMeasure(plan, log, n, i)
  {
    hide FindOrder, PositionForTrade;
  }

  /** From `n` on: the position is measured behind a withdrawn entry, and what is measured is closed. */
  ghost predicate ExitResumed(w: World, n: nat, exit: ManualExit) {
    && OpensAt(w, n)
    && forall i: nat, q :: MeasuredAt(w.plan, w.log, n, i, q) && q > 0.0 ==>
         exists k :: i < k && Undertaken(w.log, k, ClosePosition(exit), CloseRequest(q))
  }

  /** From `n` on the trade was timed out and its position closed, or a transition on the way raised. */
  ghost predicate TimedOut(w: World, n: nat) {
    || MoveFaulted(w.log, n)
    || exists k :: n <= k < |w.log| && IsTimeout(w, k)
  }

  ghost predicate IsTimeout(w: World, k: nat)
    requires k < |w.log|
  {
    w.log[k].Moved? && w.log[k].after.state == EXITING_TIMEOUT && ExitResumed(w, k + 1, TimeoutExit)
  }

  lemma MeasureStays(plan: Plan, a: seq<Event>, b: seq<Event>, n: nat, i: nat)
    requires FirstMeasure(plan, a, n, i) && a <= b
    ensures FirstMeasure(plan, b, n, i) && b[i] == a[i] && b[n] == a[n]
  {
    hide Measures;
    assert forall j :: n <= j <= i ==> b[j] == a[j];
  }

  /** What was read and measured stays read and measured. */
  lemma OpensStill(a: World, b: World, n: nat, i: nat, quantity: real)
    requires OpensAt(a, n) && MeasuredAt(a.plan, a.log, n, i, quantity) && a.plan == b.plan && a.log <= b.log
    ensures i < |a.log| && n < |a.log| && IsRead(a.log[n])
    ensures OpensAt(b, n) && MeasuredAt(b.plan, b.log, n, i, quantity)
    ensures forall j: nat :: FirstMeasure(b.plan, b.log, n, j) ==> j == i
  {
    hide FindOrder, PositionForTrade;
    MeasureStays(a.plan, a.log, b.log, n, i);
  }

  /** What was measured is being closed from `k` on. */
  lemma ResumedAt(a: World, b: World, n: nat, i: nat, k: nat, exit: ManualExit, quantity: real)
    requires OpensAt(a, n) && MeasuredAt(a.plan, a.log, n, i, quantity) && a.plan == b.plan && a.log <= b.log
    requires quantity > 0.0 ==> i < k && Undertaken(b.log, k, ClosePosition(exit), CloseRequest(quantity))
    ensures ExitResumed(b, n, exit)
  {
    OpensStill(a, b, n, i, quantity);
    hide OpensAt, FirstMeasure, Undertaken, PositionForTrade;
    forall j: nat, q | MeasuredAt(b.plan, b.log, n, j, q) && q > 0.0
      ensures exists k :: j < k && Undertaken(b.log, k, ClosePosition(exit), CloseRequest(q))
    {
      assert j == i && q == quantity;
    }
  }

  /** The exit was taken up at `k`, after the measure at `i`. */
  lemma TakenAt(w: World, n: nat, i: nat, k: nat)
    requires FirstMeasure(w.plan, w.log, n, i) && IsRead(w.log[n]) && i < k < |w.log|
    requires IsExit(w.log, k, PositionForTrade(w.plan, w.log[i].view).value)
    ensures EmergencyFrom(w, n)
  {
    hide IsExit, PositionForTrade, FindOrder;
    assert ExitTaken(w.plan, w.log, i);
    assert forall j: nat :: FirstMeasure(w.plan, w.log, n, j) ==> j == i;
    if w.log[n].Observed? && ShowsEntry(w.plan, w.log[n].view) { assert n != i; }
  }

  /** Whatever was measured, the last thing on record is a transition that raised. */
  lemma MeasureFaulted(w: World, n: nat)
    requires OpensAt(w, n)
    requires forall i: nat :: FirstMeasure(w.plan, w.log, n, i) ==>
               i + 1 < |w.log| && w.log[|w.log| - 1].Faulted? && w.log[|w.log| - 1].call.Moving?
    ensures EmergencyFrom(w, n)
  {
    hide ClosingFrom, PositionForTrade, FindOrder;
    forall i: nat | FirstMeasure(w.plan, w.log, n, i) ensures ExitTaken(w.plan, w.log, i) {
      assert IsExit(w.log, |w.log| - 1, PositionForTrade(w.plan, w.log[i].view).value);
    }
  }

  /** The measure was made in `before`, and what stands at `k` takes up the exit. */
  lemma ExitFollows(before: seq<Event>, w: World, n: nat, i: nat, k: nat, quantity: real)
    requires MeasuredAt(w.plan, before, n, i, quantity)
    requires before <= w.log && IsRead(before[n]) && i < k < |w.log| && IsExit(w.log, k, quantity)
    ensures EmergencyFrom(w, n)
  {
    hide IsExit, PositionForTrade, FirstMeasure;
    MeasureStays(w.plan, before, w.log, n, i);
    TakenAt(w, n, i, k);
  }

  /** No row that is still PROTECTING was just recorded as ACTIVE. */
  lemma NotActiveYet(w: World, n: nat)
    requires Row(w.log) == w.trade && (w.trade.state == PROTECTING || (|w.log| > 0 && w.log[|w.log| - 1].Faulted?))
    ensures !ActiveAt(w.log, n, |w.log|)
  {
  }

  /** From `n` on: either nothing went wrong, no account read was needed and the trade ends ACTIVE; or, before it was
      recorded as ACTIVE, the first read opens an emergency. */
  ghost predicate ProtectionFrom(w: World, n: nat, r: Outcome<()>) {
    if NoReads(w.log, n, |w.log|) then r.Done? && w.trade.state == ACTIVE
    else
      && (r.Done? ==> w.trade.state == FLAT)
      && exists m :: n <= m && NoReads(w.log, n, m) && EmergencyFrom(w, m) && !ActiveAt(w.log, n, m)
  }

  /** Between `n` and `m` the row became ACTIVE and nothing was wrong with that. */
  predicate ActiveAt(log: seq<Event>, n: nat, m: nat) {
    n < m <= |log| && log[m - 1].Moved? && log[m - 1].after.state == ACTIVE
  }

  /** What was begun before the emergency contained no read and did not end with an ACTIVE row. */
  lemma EmergencyProtects(before: World, w: World, n: nat, r: Outcome<()>)
    requires n <= |before.log| && before.log <= w.log && NoReads(before.log, n, |before.log|)
    requires !ActiveAt(before.log, n, |before.log|) && EmergencyFrom(w, |before.log|)
    requires r.Done? ==> w.trade.state == FLAT
    ensures ProtectionFrom(w, n, r)
  {
    hide IsRead;
    var m := |before.log|;
    assert forall i :: n <= i < m ==> w.log[i] == before.log[i];
    assert NoReads(w.log, n, m) && !ActiveAt(w.log, n, m);
    OpensWithRead(w, m);
    hide EmergencyFrom;
  }

  lemma OpensWithRead(w: World, n: nat)
    requires EmergencyFrom(w, n)
    ensures n < |w.log| && IsRead(w.log[n])
  {
  }

  lemma ReadOpens(w: World, n: nat)
    requires OpensAt(w, n)
    ensures ReadAt(w.log, n)
  {
  }

  /** Nothing was read, and the trade is ACTIVE. */
  lemma ArmedProtects(w: World, n: nat, r: Outcome<()>)
    requires NoReads(w.log, n, |w.log|) && r.Done? && w.trade.state == ACTIVE
    ensures ProtectionFrom(w, n, r)
  {
  }

  /** From `n` on: the account is read, and any position it shows becomes a fill of the trade, which is closed. */
  ghost predicate ExposureClosed(w: World, before: Trade, n: nat, r: Outcome<()>) {
    && n < |w.log| && IsRead(w.log[n])
    && if w.log[n] == Faulted(Reading) then r == Raised && |w.log| == n + 1
       else
         match PositionQuantity(w.plan, w.log[n].view.positions)
         case Done(q) =>
           if q <= 0.0 then r == Raised && |w.log| == n + 1
           else
             Moves(w.log, n + 1,
               before.(state := PROTECTING, filled := Min(q, w.plan.quantity), firstFill := Some(w.plan.eligibleAt)),
               r.Raised?, EmergencyFrom(w, n + 2))
         case _ => r == Raised && |w.log| == n + 1
  }

  /** From `n` on: the entry answer is recorded for what it says. A fill is recorded as this fill, dated by the venue's
      stamps, and protected; a terminal order without one cancels the trade; anything else leaves it pending. */
  ghost predicate Recorded(w: World, before: Trade, n: nat, answer: OrderRecord, stamps: seq<int>, observed: int,
                           r: Outcome<()>)
  {
    && n <= |w.log| && ValidateEntry(w.plan, answer).Done? && EntryShown(w.plan, w.log[..n], answer)
    && Clocked(observed) in w.log[..n]
    && var ack, at := ValidateEntry(w.plan, answer).value, ResponseTime(stamps, observed, observed, w.plan.eligibleAt);
       if ack.filled <= 0.0 then
         Moves(w.log, n, if ack.status in {CANCELED, REJECTED, EXPIRED, REPLACED} then before.(state := CANCELLED) else before, r.Raised?,
               r.Done? && |w.log| == n + 1)
       else if !at.Done? then r == Raised && |w.log| == n
       else
         Moves(w.log, n, before.(state := PROTECTING, filled := ack.filled, firstFill := Some(at.value)), r.Raised?,
               ProtectionFrom(w, n + 1, r))
  }

  /** Some answer to the placement was recorded for what it says. */
  ghost predicate AnswerRecorded(w: World, before: Trade, r: Outcome<()>) {
    exists n, answer, stamps, observed :: Recorded(w, before, n, answer, stamps, observed, r)
  }

  /** Somewhere in the history the exposure of an ambiguous entry was dealt with. */
  ghost predicate ExposureAnswered(w: World, before: Trade, r: Outcome<()>) {
    exists n :: ExposureClosed(w, before, n, r)
  }

  lemma RecordedAnswer(w: World, before: Trade, n: nat, answer: OrderRecord, stamps: seq<int>, observed: int, r: Outcome<()>)
    requires Recorded(w, before, n, answer, stamps, observed, r)
    ensures AnswerRecorded(w, before, r)
  {
  }

  // --------------------------------------------------------- no settlement

  /** The await raised, or the account read with it cannot settle the entry, or shows a fill without the record of it. */
  predicate Unsettling(plan: Plan, e: Event) {
    || e.Faulted?
    || (e.Observed?
        && var s := SettledEntryProjection(plan, e.view); !s.Done? || (s.value.order == None && s.value.fillSeen))
  }

  lemma FillUnsettles(plan: Plan, e: Event)
    requires e.Observed? && SettledEntryProjection(plan, e.view).Done?
    requires SettledEntryProjection(plan, e.view).value.order == None && SettledEntryProjection(plan, e.view).value.fillSeen
    ensures Unsettling(plan, e)
  {
    hide SettledEntryProjection;
  }

  lemma FaultsUnsettle(plan: Plan)
    ensures forall e: Event :: e.Faulted? ==> Unsettling(plan, e)
  {
  }

  predicate UnsettlingSince(plan: Plan, log: seq<Event>, n: nat) {
    exists k :: n <= k < |log| && Unsettling(plan, log[k])
  }

  /** The cancellation was answered, but not by the entry order's own CANCELED. */
  predicate CancelRefused(w: World) {
    && CancelEntry in w.effects && Settled(w.effects[CancelEntry].status)
    && w.effects[CancelEntry].payload != Some(CancelPayload(Some(w.plan.EntryId()), CANCELED))
  }

  /** The last read still lists the entry order, or cannot tell. */
  predicate LastStillOpen(w: World) {
    |w.log| > 0 && w.log[|w.log| - 1].Observed? && FindOrder(w.log[|w.log| - 1].view, w.plan.EntryId()) != Done(None)
  }

  /** Why an entry could not be settled. */
  predicate Unsettled(w: World, n: nat) {
    UnsettlingSince(w.plan, w.log, n) || CancelUnderWay(w) || CancelRefused(w) || LastStillOpen(w)
  }

  // ------------------------------------------------------- one reconciliation

  /** The account is readable where the entry is concerned. */
  predicate EntryReadable(plan: Plan, view: Snapshot) {
    && FindOrder(view, plan.EntryId()).Done?
    && (FindOrder(view, plan.EntryId()).value.Some? ==> ValidateEntry(plan, FindOrder(view, plan.EntryId()).value.value).Done?)
  }

  /** From `n` on: the position in `view` becomes the first fill, dated by the venue's stamps, and is protected. */
  ghost predicate Adopted(w: World, before: Trade, view: Snapshot, n: nat, stamps: seq<int>, now: int, r: Outcome<()>)
    requires PositionForTrade(w.plan, view).Done?
  {
    var at := ResponseTime(stamps, w.plan.eligibleAt, now, w.plan.eligibleAt);
    if !FillSource(w.plan, view).Done? || !at.Done? then r == Raised && |w.log| == n
    else
      Moves(w.log, n,
        before.(state := PROTECTING, filled := PositionForTrade(w.plan, view).value, firstFill := Some(at.value)),
        r.Raised?, ProtectionFrom(w, n + 1, r))
  }

  /** For some stamps of the venue's. */
  ghost predicate FirstFillAdopted(w: World, before: Trade, view: Snapshot, n: nat, now: int, r: Outcome<()>)
    requires PositionForTrade(w.plan, view).Done?
  {
    exists stamps :: Adopted(w, before, view, n, stamps, now, r)
  }

  lemma AdoptedFirst(w: World, before: Trade, view: Snapshot, n: nat, stamps: seq<int>, now: int, r: Outcome<()>)
    requires PositionForTrade(w.plan, view).Done? && Adopted(w, before, view, n, stamps, now, r)
    ensures FirstFillAdopted(w, before, view, n, now, r)
  {
  }

  /** From `n` on: a position beyond the approval becomes a fill of the approved quantity, if there was none, and is
      closed, whatever the entry did. */
  ghost predicate ExcessClosed(w: World, before: Trade, n: nat, r: Outcome<()>) {
    if before.state == ENTRY_PENDING then
      Moves(w.log, n, before.(state := PROTECTING, filled := w.plan.quantity, firstFill := Some(w.plan.eligibleAt)),
        r.Raised?, EmergencyFrom(w, n + 1))
    else if before.state in {PROTECTING, ACTIVE} then EmergencyFrom(w, n)
    else r == Raised && |w.log| == n
  }

  /** The trade held a position, and the view shows neither that nor an open entry order. */
  predicate GoneBeside(plan: Plan, before: Trade, view: Snapshot) {
    && before.state in {PROTECTING, ACTIVE}
    && FindOrder(view, plan.EntryId()) == Done(None) && PositionForTrade(plan, view) == Done(0.0)
  }

  /** From `n` on: a position that is gone is put down to the one protection that is proven to have fired. */
  predicate ExitAttributed(w: World, before: Trade, view: Snapshot, events: seq<TpslRecord>, n: nat, raised: bool) {
    var found := ProvenTrigger(w.plan, view, events, before.stopId, before.targetId, before.filled);
    if found.Done? && found.value.Some? then ExitEntered(w.log, n, TriggerState(found.value.value.leg))
    else raised && |w.log| == n
  }

  lemma ReadableEntry(plan: Plan, view: Snapshot)
    ensures EntryReadable(plan, view) <==>
      && FindOrder(view, plan.EntryId()).Done?
      && (FindOrder(view, plan.EntryId()).value.Some? ==> ValidateEntry(plan, FindOrder(view, plan.EntryId()).value.value).Done?)
  {
  }

  /** The trade is not finished, and its entry was at least prepared. */
  predicate MayHold(log: seq<Event>, before: Trade) {
    || (before.state == ENTRY_PENDING && WasPrepared(log, PlaceEntry))
    || before.state in {PROTECTING, ACTIVE} || TriggerExiting(before.state) || ManualExiting(before.state)
  }

  /** What is decided about an entry that is neither open nor in the position: a placement reconciled as absent, or a
      terminal record without a fill, cancels the trade; no record at all leaves it pending; anything else is refused. */
  ghost predicate UnfilledDecided(w: World, view: Snapshot, n: nat, r: Outcome<()>)
    requires n <= |w.log|
  {
    var past := FindHistorical(view, w.plan.EntryId());
    if LastOutcome(w.log[..n], PlaceEntry) == Some(AbsentAndFlat) then TakenUp(w.log, n, CANCELLED)
    else if past == Done(None) then r == Done(()) && |w.log| == n
    else if past.Done? && ValidateEntry(w.plan, past.value.value).Done?
            && ValidateEntry(w.plan, past.value.value).value.filled <= 0.0
            && past.value.value.status in {CANCELED, REJECTED, EXPIRED, REPLACED} then
      TakenUp(w.log, n, CANCELLED)
    else r == Raised && |w.log| == n
  }

  /** What becomes of a pending entry without a position: an open order works until its window closes, and is then
      cancelled; one that is not open is decided. */
  ghost predicate PendingKept(w: World, view: Snapshot, n: nat, now: int, r: Outcome<()>) {
    && n <= |w.log|
    && if FindOrder(view, w.plan.EntryId()) == Done(None) then UnfilledDecided(w, view, n, r)
       else if now < w.plan.expiresAt then r == Done(()) && |w.log| == n
       else n < |w.log| || CancelUnderWay(w)
  }

  /** What the next pass does about a trade on its way out: an exit the venue makes is waited for while it fills; any
      other is taken further, on a fresh read; and a position that is still open is closed. */
  ghost predicate ExitContinued(w: World, before: Trade, view: Snapshot, n: nat, r: Outcome<()>)
    requires PositionForTrade(w.plan, view).Done?
  {
    && n <= |w.log|
    && var position, exit := PositionForTrade(w.plan, view).value, ExitOf(before.state);
       if TriggerExiting(before.state) then
         if position > 0.0 then r == Done(()) && |w.log| == n else ReadAt(w.log, n)
       else if position > 0.0 then
         ReadAt(w.log, n) && (!WasPrepared(w.log[..n], ClosePosition(exit)) ==> ExitResumed(w, n, exit))
       else WasPrepared(w.log[..n], ClosePosition(exit)) ==> ReadAt(w.log, n)
  }

  /** What one pass, begun at `n` with a clock reading, does about an unfinished trade on a view it can read: more than
      was approved is closed; a first fill is adopted; a fill without protection is protected; behind live protection
      the trade stays as it is until its time is up, and is then closed; and an entry or an exit under way is decided. */
  ghost predicate HoldingAnswered(w: World, before: Trade, view: Snapshot, n: nat, r: Outcome<()>) {
    && n < |w.log| && w.log[n].Clocked?
    && (EntryReadable(w.plan, view) && PositionForTrade(w.plan, view).Done? && MayHold(w.log[..n], before) ==>
          var position := PositionForTrade(w.plan, view).value;
          if position > w.plan.quantity + w.plan.Slack() then ExcessClosed(w, before, n + 1, r)
          else if before.state == ENTRY_PENDING then
            if position > 0.0 then FirstFillAdopted(w, before, view, n + 1, w.log[n].now, r)
            else PendingKept(w, view, n + 1, w.log[n].now, r)
          else if before.state == PROTECTING then
            position > 0.0 && FillReadable(w.plan, before, view) ==>
              MoveFaulted(w.log, n) || exists m :: n < m && ProtectionFrom(w, m, r)
          else if before.state == ACTIVE then
            HoldsBehind(w.plan, before, view) ==> HeldOrClosed(w, before, n, w.log[n].now, r)
          else ExitContinued(w, before, view, n + 1, r))
  }

  ghost predicate HeldOrClosed(w: World, before: Trade, n: nat, now: int, r: Outcome<()>) {
    && before.firstFill.Some?
    && if now < before.firstFill.value + w.plan.maxHolding then r.Done? || MoveFaulted(w.log, n)
       else TimedOut(w, n)
  }

  /** Where the view cannot be read, or the trade is finished, nothing is owed. */
  lemma NothingOwed(w: World, before: Trade, view: Snapshot, n: nat)
    requires n < |w.log| && w.log[n].Clocked?
    requires !(EntryReadable(w.plan, view) && PositionForTrade(w.plan, view).Done? && MayHold(w.log[..n], before))
    ensures forall r :: HoldingAnswered(w, before, view, n, r)
  {
    hide PositionForTrade, EntryReadable, MayHold;
  }

  lemma ExcessAnswered(w: World, before: Trade, view: Snapshot, n: nat, r: Outcome<()>)
    requires n < |w.log| && w.log[n].Clocked? && PositionForTrade(w.plan, view).Done?
    requires PositionForTrade(w.plan, view).value > w.plan.quantity + w.plan.Slack() && ExcessClosed(w, before, n + 1, r)
    ensures HoldingAnswered(w, before, view, n, r)
  {
    hide PositionForTrade, EntryReadable, MayHold, ExcessClosed;
  }

  /** A whole pass was made from `start` on: the account was read, and then acted on. */
  ghost predicate PassMade(w: World, before: Trade, start: nat, r: Outcome<()>) {
    exists n, view :: start <= n <= |w.log| && Observed(view) in w.log[start..n] && HoldingAnswered(w, before, view, n, r)
  }

  lemma PassSince(w: World, before: Trade, start: nat, r: Outcome<()>)
    requires PassMade(w, before, start, r)
    ensures forall earlier: nat :: earlier <= start ==> PassMade(w, before, earlier, r)
  {
    hide HoldingAnswered;
    var n: nat, view :| start <= n <= |w.log| && Observed(view) in w.log[start..n] && HoldingAnswered(w, before, view, n, r);
    forall earlier: nat | earlier <= start ensures PassMade(w, before, earlier, r) {
      assert w.log[earlier..n] == w.log[earlier..start] + w.log[start..n];
    }
  }

  lemma PassIsMade(w: World, before: Trade, start: nat, n: nat, view: Snapshot, r: Outcome<()>)
    requires start <= n <= |w.log| && Observed(view) in w.log[start..n] && HoldingAnswered(w, before, view, n, r)
    ensures PassMade(w, before, start, r)
  {
  }
}
