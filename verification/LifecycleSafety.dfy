/** What the invariant means for a reader who knows neither the journal nor the proof: the safety of whole runs. */
module LifecycleSafety {
  import opened Outcomes
  import opened Amounts
  import opened VenueRecords
  import opened LifecycleLog
  import opened LifecycleWorld

  /** Every venue call of the run went out once, after its journal row was durable. */
  ghost predicate EachSentOnce(log: seq<Event>) {
    forall i :: 0 <= i < |log| && log[i].Sent? ==>
      && (exists k :: 0 <= k < i && log[k].Prepared? && log[k].id == log[i].id)
      && forall j :: 0 <= j < |log| && j != i ==> log[j] != log[i]
  }

  /** Nothing is confirmed that was not sent. */
  ghost predicate ConfirmedWasSent(log: seq<Event>) {
    forall i :: 0 <= i < |log| && log[i].Confirmed? ==> Sent(log[i].id) in log[..i]
  }

  /** Before any target went out, a stop was read back live with the planned price and side and then reconciled. */
  ghost predicate TargetsBehindStops(plan: Plan, log: seq<Event>) {
    forall n :: 0 <= n < |log| && log[n] == Sent(Create(TargetLeg)) ==>
      exists i, j :: 0 <= i < j < n && log[i].ReadBack? && log[i].record.status in {WAIT_ORDER, ACTIVE_TPSL}
                  && PlannedTpsl(plan, StopLeg, log[i].record)
                  && log[i].record.price.Number? && Close(log[i].record.price.value, plan.stopPrice, REL_TOL)
                  && log[j] == Reconciled(Create(StopLeg), TpslPayload(log[i].record.id))
  }

  /** Every close asked for exactly the position of the last account read before it, which no longer listed the
      entry order. */
  ghost predicate ClosesMeasured(plan: Plan, log: seq<Event>) {
    forall n :: 0 <= n < |log| && log[n].Prepared? && log[n].id.ClosePosition? ==>
      && log[n].request.CloseRequest? && log[n].request.quantity > 0.0
      && exists i ::
           && 0 <= i < n && log[i].Observed? && (forall j :: i < j < n ==> !log[j].Observed?)
           && FindOrder(log[i].view, plan.EntryId()) == Done(None)
           && PositionForTrade(plan, log[i].view) == Done(log[n].request.quantity)
  }

  /** Every cancellation of a protection names the very order this trade created. */
  ghost predicate CancelsOwnOrders(w: World) {
    forall leg :: CancelLeg(leg) in w.effects ==>
      && w.effects[CancelLeg(leg)].request.CancelRequest?
      && IsId(w.truth.Of(leg), w.effects[CancelLeg(leg)].request.tpsl)
  }

  /** Rows change only along declared edges, lose nothing, and stay where they are once terminal. */
  ghost predicate RowsMonotone(plan: Plan, log: seq<Event>) {
    && (forall i :: 0 <= i < |log| && log[i].Moved? ==>
          RowOk(plan, log[i].after) && Declared(log[i].before.state, log[i].after.state))
    && (forall i, j :: 0 <= i < j < |log| && log[i].Moved? && log[j].Moved? ==>
          RowAdvanced(log[i].after, log[j].after) && !Terminal(log[i].after.state))
  }

  /** A finished trade leaves nothing of its own working at the venue. */
  ghost predicate TerminalIsClean(w: World) {
    && (w.trade.state == FLAT ==> Harmless(w.truth.stop) && Harmless(w.truth.target))
    && (w.trade.state == FLAT && ClosedManually(w.plan, w.trade) ==> w.truth.entry == Closed)
    && (w.trade.state == CANCELLED ==>
          w.truth.entry in {Unsent, Closed} && w.truth.stop.NotSent? && w.truth.target.NotSent?)
  }

  /** The entry went out while its window was open, by the clock. */
  ghost predicate EntriesInWindow(plan: Plan, log: seq<Event>) {
    forall n :: 0 <= n < |log| && log[n] == Sent(PlaceEntry) ==>
      exists i :: 0 <= i < n && log[i].Clocked? && plan.eligibleAt <= log[i].now <= plan.expiresAt
  }

  /** Every recorded fill had been seen, was dated as it may be, and no trade was cancelled unless its entry was seen to
      be over without a fill, or timed out before its time. */
  ghost predicate MovesAreShown(plan: Plan, log: seq<Event>) {
    forall n :: 0 <= n < |log| && log[n].Moved? ==> MoveShown(plan, log[..n], log[n].before, log[n].after)
  }

  ghost predicate Safe(w: World) {
    && EachSentOnce(w.log)
    && EntriesInWindow(w.plan, w.log)
    && MovesAreShown(w.plan, w.log)
    && ConfirmedWasSent(w.log)
    && TargetsBehindStops(w.plan, w.log)
    && ClosesMeasured(w.plan, w.log)
    && CancelsOwnOrders(w)
    && RowsMonotone(w.plan, w.log)
    && TerminalIsClean(w)
  }

  /** The invariant kept by every step implies the safety of the whole run. */
  lemma InvIsSafe(w: World)
    requires Inv(w)
    ensures Safe(w)
  {
    OrdersAreSettled(w);
    hide Legal, EntriesInWindow, MovesAreShown, EachSentOnce, ConfirmedWasSent, TargetsBehindStops, ClosesMeasured, RowsMonotone, CancelsOwnOrders,
      TerminalIsClean, OrdersOk, JournalOk;
    AllSentOnce(w.plan, w.log);
    AllMovesShown(w.plan, w.log);
    AllConfirmedSent(w.plan, w.log);
    AllTargetsBehindStops(w.plan, w.log);
    AllClosesMeasured(w.plan, w.log);
    AllRowsMonotone(w.plan, w.log);
  }

  /** What the invariant says about this trade's orders at the venue. */
  lemma OrdersAreSettled(w: World)
    requires Inv(w)
    ensures CancelsOwnOrders(w) && TerminalIsClean(w)
  {
    hide Legal, JournalOk;
    assert w.truth.Of(StopLeg) == w.truth.stop && w.truth.Of(TargetLeg) == w.truth.target;
    assert LegOk(w, StopLeg) && LegOk(w, TargetLeg);
    forall leg | CancelLeg(leg) in w.effects
      ensures w.effects[CancelLeg(leg)].request.CancelRequest?
      ensures IsId(w.truth.Of(leg), w.effects[CancelLeg(leg)].request.tpsl)
    {
      assert LegOk(w, leg);
    }
  }

  lemma AllClosesMeasured(plan: Plan, log: seq<Event>)
    requires Legal(plan, log)
    ensures ClosesMeasured(plan, log)
  {
    forall n | 0 <= n < |log| && log[n].Prepared? && log[n].id.ClosePosition?
      ensures log[n].request.CloseRequest? && log[n].request.quantity > 0.0
      ensures exists i ::
        && 0 <= i < n && log[i].Observed? && (forall j :: i < j < n ==> !log[j].Observed?)
        && FindOrder(log[i].view, plan.EntryId()) == Done(None)
        && PositionForTrade(plan, log[i].view) == Done(log[n].request.quantity)
    {
      CloseIsMeasured(plan, log, n);
    }
  }

  lemma AllMovesShown(plan: Plan, log: seq<Event>)
    requires Legal(plan, log)
    ensures EntriesInWindow(plan, log) && MovesAreShown(plan, log)
  {
    hide Legal, MoveShown;
    forall n | 0 <= n < |log| && log[n] == Sent(PlaceEntry)
      ensures exists i :: 0 <= i < n && log[i].Clocked? && plan.eligibleAt <= log[i].now <= plan.expiresAt
    {
      EntrySentInWindow(plan, log, n);
    }
    forall n | 0 <= n < |log| && log[n].Moved? ensures MoveShown(plan, log[..n], log[n].before, log[n].after) {
      MoveWasShown(plan, log, n);
    }
  }

  lemma AllSentOnce(plan: Plan, log: seq<Event>)
    requires Legal(plan, log)
    ensures EachSentOnce(log)
  {
  }

  lemma AllConfirmedSent(plan: Plan, log: seq<Event>)
    requires Legal(plan, log)
    ensures ConfirmedWasSent(log)
  {
    forall i | 0 <= i < |log| && log[i].Confirmed? ensures Sent(log[i].id) in log[..i] {
      assert StepOk(plan, log[..i], log[i]);
    }
  }

  lemma AllTargetsBehindStops(plan: Plan, log: seq<Event>)
    requires Legal(plan, log)
    ensures TargetsBehindStops(plan, log)
  {
  }

  lemma AllRowsMonotone(plan: Plan, log: seq<Event>)
    requires Legal(plan, log)
    ensures RowsMonotone(plan, log)
  {
    hide Legal, RowAdvanced, RowOk;
    forall i | 0 <= i < |log| && log[i].Moved?
      ensures RowOk(plan, log[i].after) && Declared(log[i].before.state, log[i].after.state)
    {
      MovedStep(plan, log, i);
    }
    forall i, j | 0 <= i < j < |log| && log[i].Moved? && log[j].Moved?
      ensures RowAdvanced(log[i].after, log[j].after) && !Terminal(log[i].after.state)
    {
      MovesAdvance(plan, log, i, j);
    }
  }

  lemma MovesAdvance(plan: Plan, log: seq<Event>, i: nat, j: nat)
    requires Legal(plan, log) && i < j < |log| && log[i].Moved? && log[j].Moved?
    ensures RowAdvanced(log[i].after, log[j].after) && !Terminal(log[i].after.state)
  {
    LegalPrefix(plan, log, j);
    assert log[..j][i] == log[i];
    RowsOnlyAdvance(plan, log[..j], i);
    MovedStep(plan, log, j);
    RowStepAdvances(plan, log[i].after, log[j].before, log[j].after);
  }
}
