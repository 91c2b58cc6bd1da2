/** The protected lifecycle of one trade, method by method. Every method may end in an
    exception or a crash at any of its awaits; `Inv` holds in each case. */
module PaperEngine {
  import opened Outcomes
  import opened Amounts
  import opened VenueRecords
  import opened LifecycleLog
  import opened LifecycleWorld
  import opened LifecyclePorts
  import opened LifecycleEvidence
  import opened EntrySettlement
  import opened LifecycleSafety
  import opened LifecycleCompensation
  import Account = AccountAudit
  import Recovery = AccountRecovery

  /** How long a decision that is not yet eligible may be waited for, in milliseconds. */
  const MAX_ELIGIBILITY_WAIT: int := 2000

  /** What may happen to the process: a decision is delivered (again), the periodic pass runs, or it starts up.
      `eligible` are the journal rows whose grace has passed by then; `others` are the other trades of the account
      and `steps` what their own recovery came to. */
  datatype Command =
    | Deliver(eligible: seq<EffectId>)
    | Reconcile
    | Start(eligible: seq<EffectId>, steps: seq<Outcome<()>>, others: seq<Account.Owned>)
    | OperatorFails(effect: EffectId)

  /** A row without outcome that is not yet due for recovery. */
  predicate Unripe(effects: map<EffectId, Effect>, eligible: seq<EffectId>) {
    exists id :: id in effects && !Settled(effects[id].status) && id !in eligible
  }

  /** Where a normal reconciliation may leave a trade: waiting for its entry, protected by both legs, settling an
      exit the venue triggered, or finished. Never unprotected, never in the middle of a close of the engine's own. */
  predicate Converged(s: TradeState) {
    s in {ENTRY_PENDING, ACTIVE, EXITING_STOP, EXITING_TARGET, FLAT, CANCELLED}
  }

  /** What a caller that caught an exception may still hold of the row: a transition that raised may have been
      committed, and the only one of those whose failure is handled on the spot makes the trade ACTIVE. */
  predicate Remembers(known: TradeState, durable: TradeState) {
    known == durable || (known == PROTECTING && durable == ACTIVE)
  }

  /** Unless it is finished, the trade is among those the audit judges, with the row it has now. */
  predicate AccountedFor(w: World, trades: seq<Account.Owned>) {
    w.trade.state !in {FLAT, CANCELLED} ==>
      Account.Owned(w.plan, w.trade, true) in trades || Account.Owned(w.plan, w.trade, false) in trades
  }

  /** A clean account shows the stop of a listed trade live. */
  lemma AccountedIsProtected(w: World, e: Recovery.Evidence)
    requires Account.Clean(e.view, e.trades) && AccountedFor(w, e.trades) && w.trade.state in {PROTECTING, ACTIVE}
    ensures Account.HasPosition(e.view.snapshot.positions, w.plan.symbol) ==>
              LegShownLive(w.plan, w.trade, e.view.snapshot, StopLeg)
  {
    var t := if Account.Owned(w.plan, w.trade, true) in e.trades then Account.Owned(w.plan, w.trade, true)
             else Account.Owned(w.plan, w.trade, false);
    if Account.HasPosition(e.view.snapshot.positions, w.plan.symbol) {
      Account.CleanExposureIsProtected(e.view, e.trades, t);
    }
  }

  /** The placement went out and its outcome is not on record. */
  predicate Unanswered(w: World) {
    Sent(PlaceEntry) in w.log && (PlaceEntry in w.effects ==> !Settled(w.effects[PlaceEntry].status))
  }

  /** The placement did not go out: an await before it raised, which is the last thing on record. */
  predicate NotPlaced(w: World, r: Outcome<()>) {
    r == Raised && |w.log| > 0 && w.log[|w.log| - 1] in {Faulted(Admitting), Faulted(Journalling(PlaceEntry))}
  }

  /** What becomes of a trade submitted at `now`: an expired one is cancelled; otherwise the answer is recorded for
      what it says, or, when it could not be taken at its word, the exposure is closed. */
  ghost predicate NewTradeAnswered(w: World, now: int, ambiguous: bool, revoked: Outcome<()>, r: Outcome<()>) {
    var cancelled, pending := NewTrade.(state := CANCELLED), NewTrade.(state := ENTRY_PENDING);
    if r.Crashed? then true
    else if now > w.plan.expiresAt then
      (r.Done? && w.trade == cancelled) || (r.Raised? && |w.log| > 0 && w.log[|w.log| - 1] == Faulted(Moving(cancelled)))
    else if ambiguous then revoked.Done? ==> ExposureAnswered(w, pending, r)
    else
      || AnswerRecorded(w, pending, r) || NotPlaced(w, r)
      || (r.Raised? && |w.log| > 0 && w.log[|w.log| - 1] == Faulted(Moving(pending)))
  }

  /** The read at `n` shows a position, or an entry order that is still open. */
  predicate SeesOpen(w: World, n: nat) {
    && n < |w.log| && w.log[n].Observed?
    && PositionQuantity(w.plan, w.log[n].view.positions).Done?
    && (PositionQuantity(w.plan, w.log[n].view.positions).value > 0.0
        || (FindOrder(w.log[n].view, w.plan.EntryId()).Done? && FindOrder(w.log[n].view, w.plan.EntryId()).value.Some?))
  }

  /** The last event is this read, and it shows the entry order gone, which it is. */
  ghost predicate GoneAt(w: World, view: Snapshot) {
    && EntrySeenGone(w.plan, w.log) && w.truth.entry == Closed
    && LastRead(w.log) == Some(view) && FindOrder(view, w.plan.EntryId()) == Done(None) && StillCounts(w.log, view)
    && |w.log| > 0 && w.log[|w.log| - 1] == Observed(view)
    && (PositionQuantity(w.plan, view.positions) == Done(0.0) ==> ZeroSeen(w.plan, w.log))
  }

  lemma GoneIsSeen(w: World, view: Snapshot)
    requires EntrySeenGone(w.plan, w.log) && w.truth.entry == Closed
    requires LastRead(w.log) == Some(view) && FindOrder(view, w.plan.EntryId()) == Done(None) && StillCounts(w.log, view)
    requires |w.log| > 0 && w.log[|w.log| - 1] == Observed(view)
    requires PositionQuantity(w.plan, view.positions) == Done(0.0) ==> ZeroSeen(w.plan, w.log)
    ensures GoneAt(w, view)
  {
  }

  /** An ambiguous entry leaves the account closed, unless the revocation itself fails, which nothing survives. */
  predicate RevokedIf(ambiguous: bool, revoked: Outcome<()>, r: Outcome<()>, closed: bool) {
    ambiguous ==> if revoked.Done? then closed else r == revoked
  }

  class PaperEngine {
    const desk: Desk
    const gate: Recovery.AccountGate

    constructor (desk: Desk, gate: Recovery.AccountGate)
      ensures this.desk == desk && this.gate == gate
    {
      this.desk, this.gate := desk, gate;
    }

    /** `_tpsl_effect`: create one protective order, once. */
    method TpslEffect(leg: Leg) returns (r: Outcome<Option<TpslId>>)
      requires Inv(desk.w) && desk.w.trade.state == PROTECTING
      requires leg == TargetLeg ==> StopArmed(desk.w.plan, desk.w.log)
      modifies desk
      ensures Inv(desk.w) && Calm(old(desk.w), desk.w)
      ensures r.Done? && r.value.Some? ==>
        Create(leg) in desk.w.effects && IsId(desk.w.truth.Of(leg), r.value.value)
      ensures NoReads(desk.w.log, |old(desk.w.log)|, |desk.w.log|)
      ensures Create(leg) !in old(desk.w.effects) && !r.Crashed? ==>
        Undertaken(desk.w.log, |old(desk.w.log)|, Create(leg), PlainRequest)
    {
      hide Inv, Advances, Quiet, Calm, FreshFrom, StopArmed;
      Transitivity();
      Reflexivity(desk.w);
      var id := Create(leg);
      var preparation :- desk.Prepare(id, PlainRequest);
      if Settled(preparation.effect.status) {
        LegFacts(desk.w, leg);
        var payload := preparation.effect.payload.value;
        return Done(if payload.TpslPayload? then payload.tpsl else None);
      }
      if !preparation.created { return Raised; }
      if leg == TargetLeg { StopArmedStays(desk.w.plan, old(desk.w.log), desk.w.log); }
      ghost var prepared := desk.w.log;
      r := SendPrepared(leg);
      assert |desk.w.log| > |prepared| ==> desk.w.log[|prepared| - 1] == prepared[|prepared| - 1];
    }

    /** The create itself, of a row that was just prepared. */
    method SendPrepared(leg: Leg) returns (r: Outcome<Option<TpslId>>)
      requires Inv(desk.w) && desk.w.trade.state == PROTECTING && Create(leg) in desk.w.effects
      requires desk.w.effects[Create(leg)].status == PREPARED && Sent(Create(leg)) !in desk.w.log
      requires leg == TargetLeg ==> StopArmed(desk.w.plan, desk.w.log)
      modifies desk
      ensures Inv(desk.w) && Calm(old(desk.w), desk.w)
      ensures r.Done? && r.value.Some? ==>
        Create(leg) in desk.w.effects && IsId(desk.w.truth.Of(leg), r.value.value)
      ensures NoReads(desk.w.log, |old(desk.w.log)|, |desk.w.log|)
      ensures !r.Crashed? ==>
        && |desk.w.log| > |old(desk.w.log)|
        && (desk.w.log[|old(desk.w.log)|].Faulted? || desk.w.log[|old(desk.w.log)|] == Sent(Create(leg)))
    {
      hide Inv, Advances, Quiet, Calm, FreshFrom, StopArmed;
      Transitivity();
      ghost var start := desk.w.log;
      var _ :- desk.Await();
      if leg == TargetLeg { StopArmedStays(desk.w.plan, start, desk.w.log); }
      var answer :- desk.SendCreate(leg);
      if answer == None { return Raised; }
      var _ :- desk.Finish(Create(leg), CONFIRMED, answer, TpslPayload(answer));
      return Done(answer);
    }

    /** What `_protect` does with a created leg: record its identity, read it back live with the planned
        price and side, and reconcile the journal. */
    method ConfirmLeg(leg: Leg, id: TpslId) returns (r: Outcome<()>)
      requires Inv(desk.w) && desk.w.trade.state == PROTECTING
      requires Create(leg) in desk.w.effects && IsId(desk.w.truth.Of(leg), id)
      modifies desk
      ensures Inv(desk.w) && Advances(old(desk.w), desk.w) && desk.w.trade.state == PROTECTING
      ensures r.Done? ==> desk.w.trade.LegId(leg) == Some(id)
      ensures r.Done? && leg == TargetLeg ==> desk.w.trade.stopId == old(desk.w.trade.stopId)
      ensures r.Done? && leg == StopLeg ==> StopArmed(desk.w.plan, desk.w.log)
      ensures NoReads(desk.w.log, |old(desk.w.log)|, |desk.w.log|)
    {
      hide Inv, Advances, Quiet, Calm, FreshFrom, StopArmed, LegOk, MayPrepare, Evolves, FillShown, DateShown,
        HeldTooLong, UnfilledShown, FlatProven, ExitFillSeen, ZeroSeen;
      Transitivity();
      Reflexivity(desk.w);
      var plan := desk.w.plan;
      RowFacts(desk.w);
      var _ :- desk.Transition(desk.w.trade.WithLeg(leg, plan.LegClientId(leg), id));
      IdFacts(desk.w, leg);
      r := VerifyLeg(leg, id);
    }

    /** The read-back: only a live record of the plan is reconciled. */
    method VerifyLeg(leg: Leg, id: TpslId) returns (r: Outcome<()>)
      requires Inv(desk.w) && Create(leg) in desk.w.effects && IsId(desk.w.truth.Of(leg), id)
      modifies desk
      ensures Inv(desk.w) && Calm(old(desk.w), desk.w)
      ensures r.Done? && leg == StopLeg ==> StopArmed(desk.w.plan, desk.w.log)
      ensures NoReads(desk.w.log, |old(desk.w.log)|, |desk.w.log|)
    {
      hide Inv, Advances, Quiet, Calm, FreshFrom, StopArmed, LegOk, Evolves, PlannedTpsl, LiveTpsl;
      Transitivity();
      ghost var before, log := desk.w.truth, desk.w.log;
      var found :- desk.FindTpslRecord(leg, id);
      if found == None || !ValidTpsl(desk.w.plan, leg, found.value, true, false) { return Raised; }
      EvolvesKeeps(before, desk.w.truth, leg);
      var _ :- desk.Finish(Create(leg), RECONCILED, Some(id), TpslPayload(found.value.id));
      if leg == StopLeg {
        JustArmed(desk.w.plan, log, found.value, OutcomeEvent(Create(leg), RECONCILED, TpslPayload(found.value.id)));
      }
      return Done(());
    }

    /** First half of `_protect`: the stop is created, recorded, read back live and reconciled. */
    method ArmStop() returns (r: Outcome<()>)
      requires Inv(desk.w) && desk.w.trade.state == PROTECTING
      modifies desk
      ensures Inv(desk.w) && Advances(old(desk.w), desk.w) && desk.w.trade.state == PROTECTING
      ensures r.Done? ==> StopArmed(desk.w.plan, desk.w.log) && desk.w.trade.stopId.Some?
      ensures NoReads(desk.w.log, |old(desk.w.log)|, |desk.w.log|)
      ensures Create(StopLeg) !in old(desk.w.effects) && !r.Crashed? ==>
        Undertaken(desk.w.log, |old(desk.w.log)|, Create(StopLeg), PlainRequest)
    {
      hide Inv, Advances, Quiet, Calm, FreshFrom, StopArmed, LegOk, Evolves;
      Transitivity();
      var answer :- TpslEffect(StopLeg);
      if answer == None { return Raised; }
      var _ :- ConfirmLeg(StopLeg, answer.value);
      ghost var armed := desk.w.log;
      RowFacts(desk.w);
      var _ :- desk.Transition(desk.w.trade);
      StopArmedStays(desk.w.plan, armed, desk.w.log);
      return Done(());
    }

    /** Second half of `_protect`: the target, only ever behind an armed stop. */
    method ArmTarget() returns (r: Outcome<()>)
      requires Inv(desk.w) && desk.w.trade.state == PROTECTING && desk.w.trade.stopId.Some?
      requires StopArmed(desk.w.plan, desk.w.log)
      modifies desk
      ensures Inv(desk.w) && Advances(old(desk.w), desk.w)
      ensures r.Done? ==> desk.w.trade.state == ACTIVE
      ensures r.Raised? ==> desk.w.trade.state in {PROTECTING, ACTIVE}
      ensures NoReads(desk.w.log, |old(desk.w.log)|, |desk.w.log|)
      ensures r.Raised? && desk.w.trade.state == ACTIVE ==> desk.w.log[|desk.w.log| - 1].Faulted?
    {
      hide Inv, Advances, Quiet, Calm, FreshFrom, StopArmed, LegOk, Evolves;
      Transitivity();
      var answer :- TpslEffect(TargetLeg);
      if answer == None { return Raised; }
      var _ :- ConfirmLeg(TargetLeg, answer.value);
      RowFacts(desk.w);
      var _ :- desk.Transition(desk.w.trade.(state := ACTIVE));
      return Done(());
    }

    /** `_protect`: stop before target, and an emergency close when either cannot be proven. */
    method Protect() returns (r: Outcome<()>)
      requires Inv(desk.w) && desk.w.trade.state == PROTECTING
      modifies desk
      ensures Inv(desk.w) && Advances(old(desk.w), desk.w)
      ensures r.Done? ==> desk.w.trade.state in {ACTIVE, FLAT}
      ensures !r.Crashed? ==> ProtectionFrom(desk.w, |old(desk.w.log)|, r)
      ensures Create(StopLeg) !in old(desk.w.effects) && !r.Crashed? ==>
        Undertaken(desk.w.log, |old(desk.w.log)|, Create(StopLeg), PlainRequest)
    {
      hide Inv, Advances, StopArmed, EmergencyFrom, Quiet, Calm, ActiveAt, IsRead, ProtectionFrom;
      Transitivity();
      Reflexivity(desk.w);
      ghost var n := |desk.w.log|;
      var stop := ArmStop();
      if stop.Crashed? { return stop; }
      RowFacts(desk.w);
      NotActiveYet(desk.w, n);
      ghost var armed := desk.w;
      if stop.Raised? {
        r := EmergencyClose(PROTECTING);
        if !r.Crashed? { EmergencyProtects(armed, desk.w, n, r); }
        return;
      }
      var target := ArmTarget();
      assert NoReads(desk.w.log, n, |desk.w.log|);
      if !target.Raised? {
        if target.Done? { ArmedProtects(desk.w, n, target); }
        return target;
      }
      RowFacts(desk.w);
      NotActiveYet(desk.w, n);
      ghost var failed := desk.w;
      r := EmergencyClose(PROTECTING);
      if !r.Crashed? { EmergencyProtects(failed, desk.w, n, r); }
    }

    /** `_cancel_entry_effect`: cancel the entry remainder, once. */
    method CancelEntryOrder() returns (r: Outcome<Payload>)
      requires Inv(desk.w) && desk.w.trade.state !in {RECEIVED, CANCELLED, FLAT}
      modifies desk
      ensures Inv(desk.w) && Calm(old(desk.w), desk.w) && Evolves(old(desk.w.truth), desk.w.truth)
      ensures Reads(desk.w.log) == Reads(old(desk.w.log)) && Sends(desk.w.log) <= Sends(old(desk.w.log)) + 1
      ensures r.Done? ==>
        && CancelEntry in desk.w.effects && Settled(desk.w.effects[CancelEntry].status)
        && desk.w.effects[CancelEntry].payload == Some(r.value)
      ensures NoReads(desk.w.log, |old(desk.w.log)|, |desk.w.log|)
      ensures r.Raised? ==>
        CancelUnderWay(desk.w) || (|desk.w.log| > |old(desk.w.log)| && desk.w.log[|desk.w.log| - 1].Faulted?)
    {
      hide Inv, Advances, Quiet, Calm, FreshFrom, Evolves, Reads, Sends;
      Transitivity();
      EvolvesTransitivity();
      CountFaults();
      ghost var start := desk.w.log;
      CountAppend(start, Prepared(CancelEntry, PlainRequest));
      CancelIssuesNothing(desk.w.truth, CancelEntry);
      var preparation :- desk.Prepare(CancelEntry, PlainRequest);
      if Settled(preparation.effect.status) { return Done(preparation.effect.payload.value); }
      if !preparation.created { return Raised; }
      var _ :- desk.Await();
      CancelIssuesNothing(desk.w.truth, CancelEntry);
      CountAppend(desk.w.log, Sent(CancelEntry));
      var answer :- desk.SendCancelEntry();
      CountAppend(desk.w.log, OutcomeEvent(CancelEntry, CONFIRMED, answer));
      var _ :- desk.Finish(CancelEntry, CONFIRMED, None, answer);
      return Done(answer);
    }

    /** Cancel a listed entry remainder and read the account again without it. */
    method CancelListedEntry() returns (r: Outcome<Snapshot>)
      requires Inv(desk.w) && desk.w.trade.state !in {RECEIVED, CANCELLED, FLAT}
      modifies desk
      ensures Inv(desk.w) && Calm(old(desk.w), desk.w) && Evolves(old(desk.w.truth), desk.w.truth)
      ensures r.Done? ==> Sighted(desk.w, r.value) && FindOrder(r.value, desk.w.plan.EntryId()) == Done(None)
      ensures r.Done? ==>
        && |desk.w.log| > |old(desk.w.log)| && desk.w.log[|desk.w.log| - 1] == Observed(r.value)
        && Faithful(desk.w.plan, r.value, desk.w.truth)
        && NeverGone(desk.w.plan, desk.w.log, |old(desk.w.log)|, |desk.w.log| - 1)
      ensures r.Raised? ==>
        && (|desk.w.log| > |old(desk.w.log)| || CancelUnderWay(desk.w))
        && NeverGone(desk.w.plan, desk.w.log, |old(desk.w.log)|, |desk.w.log|)
    {
      hide Inv, Advances, Quiet, Calm, FreshFrom, Evolves, Sighted, Faithful, Reads, Sends, FindOrder;
      Transitivity();
      EvolvesTransitivity();
      var _ :- CancelEntryOrder();
      ghost var before := desk.w.log;
      var view :- desk.Fetch();
      JustSighted(before, desk.w, view);
      var again :- FindOrder(view, desk.w.plan.EntryId());
      if again.Some? { return Raised; }
      return Done(view);
    }

    /** The account view behind a withdrawn entry remainder. */
    method WithdrawnView() returns (r: Outcome<Snapshot>)
      requires Inv(desk.w) && desk.w.trade.state in {PROTECTING, ACTIVE, EXITING_TIMEOUT, EXITING_EMERGENCY}
      modifies desk
      ensures Inv(desk.w) && Calm(old(desk.w), desk.w)
      ensures r.Done? ==> |desk.w.log| > |old(desk.w.log)| && GoneAt(desk.w, r.value)
      ensures r.Done? ==> NeverGone(desk.w.plan, desk.w.log, |old(desk.w.log)|, |desk.w.log| - 1)
      ensures r.Raised? ==>
        && (|desk.w.log| > |old(desk.w.log)| || CancelUnderWay(desk.w))
        && NeverGone(desk.w.plan, desk.w.log, |old(desk.w.log)|, |desk.w.log|)
    {
      hide Inv, Advances, Quiet, Calm, FreshFrom, EntrySeenGone, ZeroSeen, Faithful, PositionQuantity, FindOrder, Sighted,
        StillCounts, LastRead, NeverGone, Evolves;
      Transitivity();
      r := CancelListedEntry();
      if r.IsFailure() { return; }
      RowFacts(desk.w);
      UnlistedMeansClosed(desk.w.plan, r.value, desk.w.truth);
      JustSeen(desk.w.plan, desk.w.log[..|desk.w.log| - 1], r.value, desk.w.trade);
      assert desk.w.log == desk.w.log[..|desk.w.log| - 1] + [Observed(r.value)];
    }

    /** The reads that open `_cancel_entry_and_measure_position`: cancel a listed entry remainder
        and return an account view in which the entry is gone. */
    method EntryGoneView() returns (r: Outcome<Snapshot>)
      requires Inv(desk.w) && desk.w.trade.state in {PROTECTING, ACTIVE, EXITING_TIMEOUT, EXITING_EMERGENCY}
      modifies desk
      ensures Inv(desk.w) && Calm(old(desk.w), desk.w)
      ensures r.Done? ==> |desk.w.log| > |old(desk.w.log)| && GoneAt(desk.w, r.value)
      ensures r.Done? ==> NeverGone(desk.w.plan, desk.w.log, |old(desk.w.log)|, |desk.w.log| - 1)
      ensures !r.Crashed? ==> OpensAt(desk.w, |old(desk.w.log)|)
      ensures r.Raised? ==> NeverGone(desk.w.plan, desk.w.log, |old(desk.w.log)|, |desk.w.log|)
    {
      hide Inv, Advances, Quiet, Calm, FreshFrom, EntrySeenGone, ZeroSeen, Faithful, PositionQuantity, FindOrder, StillCounts,
        LastRead, NeverGone, Evolves, GoneAt;
      Transitivity();
      var plan := desk.w.plan;
      ghost var log := desk.w.log;
      var read := desk.Fetch();
      OneRead(plan, log, desk.w.log);
      if read.IsFailure() { return read; }
      var view := read.value;
      var found :- FindOrder(view, plan.EntryId());
      if found == None {
        RowFacts(desk.w);
        UnlistedMeansClosed(plan, view, desk.w.truth);
        JustSeen(plan, log, view, desk.w.trade);
        GoneIsSeen(desk.w, view);
        return Done(view);
      }
      ghost var listed := desk.w.log;
      r := WithdrawnView();
      if !r.Crashed? { StillGoneOn(plan, listed, desk.w.log, |log|); }
    }

    /** The first half of `_cancel_entry_and_measure_position`: the position beside which the entry is gone. */
    method MeasureGone() returns (r: Outcome<(Snapshot, real)>)
      requires Inv(desk.w) && desk.w.trade.state in {PROTECTING, ACTIVE, EXITING_TIMEOUT, EXITING_EMERGENCY}
      modifies desk
      ensures Inv(desk.w) && Calm(old(desk.w), desk.w)
      ensures r.Done? ==>
        && EntrySeenGone(desk.w.plan, desk.w.log) && desk.w.truth.entry == Closed
        && r.value.1 >= 0.0 && Measured(desk.w.plan, desk.w.log, r.value.1)
        && (r.value.1 == 0.0 ==> ZeroSeen(desk.w.plan, desk.w.log))
        && StillCounts(desk.w.log, r.value.0) && PositionForTrade(desk.w.plan, r.value.0) == Done(r.value.1)
        && |desk.w.log| > |old(desk.w.log)|
        && MeasuredAt(desk.w.plan, desk.w.log, |old(desk.w.log)|, |desk.w.log| - 1, r.value.1)
      ensures !r.Crashed? ==> OpensAt(desk.w, |old(desk.w.log)|)
      ensures r.Raised? ==> forall i: nat :: !FirstMeasure(desk.w.plan, desk.w.log, |old(desk.w.log)|, i)
    {
      hide Inv, Advances, Quiet, Calm, FreshFrom, EntrySeenGone, ZeroSeen, PositionQuantity, PositionForTrade, LastRead,
        StillCounts, FirstMeasure, OpensAt, NeverGone, FindOrder;
      ghost var n := |desk.w.log|;
      var gone := EntryGoneView();
      var plan := desk.w.plan;
      if gone.IsFailure() {
        if gone.Raised? { NeverMeasured(plan, desk.w.log, n); }
        return gone.PropagateFailure();
      }
      var view := gone.value;
      MeasuredLast(plan, desk.w.log, n, view);
      var quantity :- PositionForTrade(plan, view);
      if quantity == 0.0 { ZeroForTradeIsZero(plan, view); }
      return Done((view, quantity));
    }

    /** `_cancel_entry_and_measure_position`: no close is measured while the entry can still fill. `known` is the
        state the caller last saw; the repository refuses a late fill that would take the row back to it. */
    method CancelEntryAndMeasure(known: TradeState) returns (r: Outcome<real>)
      requires Inv(desk.w) && desk.w.trade.state in {PROTECTING, ACTIVE, EXITING_TIMEOUT, EXITING_EMERGENCY}
      requires Remembers(known, desk.w.trade.state)
      modifies desk
      ensures Inv(desk.w) && Advances(old(desk.w), desk.w) && desk.w.trade.state == old(desk.w.trade.state)
      ensures old(desk.w.trade.state) in {EXITING_TIMEOUT, EXITING_EMERGENCY} ==> Quiet(old(desk.w), desk.w)
      ensures r.Done? ==>
        && EntrySeenGone(desk.w.plan, desk.w.log) && desk.w.truth.entry == Closed
        && r.value >= 0.0 && Measured(desk.w.plan, desk.w.log, r.value)
        && (r.value == 0.0 ==> ZeroSeen(desk.w.plan, desk.w.log))
      ensures !r.Crashed? ==> OpensAt(desk.w, |old(desk.w.log)|)
      ensures r.Done? ==>
        exists i: nat :: MeasuredAt(desk.w.plan, desk.w.log, |old(desk.w.log)|, i, r.value)
      ensures r.Raised? ==>
        forall i: nat :: FirstMeasure(desk.w.plan, desk.w.log, |old(desk.w.log)|, i) ==>
          i + 1 < |desk.w.log| && desk.w.log[|desk.w.log| - 1].Faulted? && desk.w.log[|desk.w.log| - 1].call.Moving?
      ensures r.Raised? && known !in {PROTECTING, ACTIVE} ==>
        forall i: nat :: !FirstMeasure(desk.w.plan, desk.w.log, |old(desk.w.log)|, i)
      ensures forall exit :: ClosePosition(exit) in desk.w.effects <==> ClosePosition(exit) in old(desk.w.effects)
      ensures r.Done? ==>
        var before, approved, slack := old(desk.w.trade), desk.w.plan.quantity, desk.w.plan.Slack();
        if before.filled + slack < r.value <= approved + slack && known in {PROTECTING, ACTIVE}
        then desk.w.trade == before.(filled := Min(r.value, approved))
        else desk.w.trade == before
    {
      hide Inv, Advances, Quiet, Calm, FreshFrom, EntrySeenGone, ZeroSeen, PositionForTrade, LastRead, StillCounts,
        FirstMeasure, OpensAt, FindOrder, MeasuredAt, PositionQuantity;
      Transitivity();
      Reflexivity(desk.w);
      ghost var n, start := |desk.w.log|, desk.w;
      var measure := MeasureGone();
      CalmSameCloses(start, desk.w);
      if measure.IsFailure() { return measure.PropagateFailure(); }
      var view, quantity := measure.value.0, measure.value.1;
      ghost var i, seen := |desk.w.log| - 1, desk.w;
      RowFacts(desk.w);
      var recorded := RecordLateFill(known, view, quantity);
      OpensStill(seen, desk.w, n, i, quantity);
      SeenStays(seen.plan, seen.log, desk.w.log);
      if recorded.IsFailure() { return recorded.PropagateFailure(); }
      return Done(quantity);
    }

    /** A fill that arrived since the row was last written is recorded before anything is closed. */
    method RecordLateFill(known: TradeState, view: Snapshot, quantity: real) returns (r: Outcome<()>)
      requires Inv(desk.w) && desk.w.trade.state in {PROTECTING, ACTIVE, EXITING_TIMEOUT, EXITING_EMERGENCY}
      requires Remembers(known, desk.w.trade.state) && desk.w.truth.entry == Closed
      requires StillCounts(desk.w.log, view) && PositionForTrade(desk.w.plan, view) == Done(quantity)
      modifies desk
      ensures Inv(desk.w) && Advances(old(desk.w), desk.w) && desk.w.trade.state == old(desk.w.trade.state)
      ensures desk.w.truth.entry == Closed && LastRead(desk.w.log) == LastRead(old(desk.w.log))
      ensures desk.w.effects == old(desk.w.effects)
      ensures NoReads(desk.w.log, |old(desk.w.log)|, |desk.w.log|)
      ensures r.Raised? ==>
        |desk.w.log| > |old(desk.w.log)| && desk.w.log[|desk.w.log| - 1].Faulted? && desk.w.log[|desk.w.log| - 1].call.Moving?
      ensures
        var before, approved, slack := old(desk.w.trade), desk.w.plan.quantity, desk.w.plan.Slack();
        if before.filled + slack < quantity <= approved + slack && known in {PROTECTING, ACTIVE}
        then r.Done? ==> desk.w.trade == before.(filled := Min(quantity, approved))
        else r.Done? && desk.w == old(desk.w)
    {
      hide Inv, Advances, Quiet, Calm, FreshFrom, PositionForTrade, LastRead, StillCounts, FillShown;
      Transitivity();
      Reflexivity(desk.w);
      RowFacts(desk.w);
      var plan, trade := desk.w.plan, desk.w.trade;
      var slack := plan.Slack();
      ghost var start := desk.w;
      if quantity <= trade.filled + slack || quantity > plan.quantity + slack || known !in {PROTECTING, ACTIVE} {
        return Done(());
      }
      var late := trade.(state := known, filled := Min(quantity, plan.quantity));
      LastReadAppend(start.log, Faulted(Moving(late)));
      LastReadAppend(start.log, Moved(trade, late));
      LastReadAppend(start.log + [Moved(trade, late)], Faulted(Moving(late)));
      if !Declared(trade.state, known) {
        r := desk.Fail(Moving(late));
        return;
      }
      ReadShowsFill(plan, start.log, view, late.filled);
      r := desk.Transition(late);
      ClosedStays(start, desk.w);
    }

    /** `_close_effect`: close a measured quantity, once. */
    method CloseEffect(exit: ManualExit, quantity: real) returns (r: Outcome<OrderRecord>)
      requires Inv(desk.w) && ManualExiting(desk.w.trade.state) && exit == ExitOf(desk.w.trade.state)
      requires Measured(desk.w.plan, desk.w.log, quantity) && desk.w.truth.entry == Closed
      modifies desk
      ensures Inv(desk.w) && Quiet(old(desk.w), desk.w)
      ensures r.Done? ==>
        && ClosePosition(exit) in desk.w.effects
        && Settled(desk.w.effects[ClosePosition(exit)].status)
        && desk.w.effects[ClosePosition(exit)].payload == Some(OrderPayload(r.value))
      ensures !r.Crashed? && quantity > 0.0 && ClosePosition(exit) !in old(desk.w.effects) ==>
        Undertaken(desk.w.log, |old(desk.w.log)|, ClosePosition(exit), CloseRequest(quantity))
    {
      hide Inv, Advances, Quiet, Calm, FreshFrom, Measured;
      Transitivity();
      Reflexivity(desk.w);
      if quantity <= 0.0 { return Raised; }
      RowFacts(desk.w);
      var client := desk.w.trade.closeClient.value;
      var id := ClosePosition(exit);
      var preparation :- desk.Prepare(id, CloseRequest(quantity));
      if Settled(preparation.effect.status) {
        var payload := preparation.effect.payload.value;
        if !payload.OrderPayload? { return Raised; }
        var _ :- ValidateClose(payload.order, client, quantity);
        return Done(payload.order);
      }
      if !preparation.created { return Raised; }
      var _ :- desk.Await();
      var answer :- desk.SendClose(exit);
      var _ :- ValidateClose(answer, client, quantity);
      var _ :- desk.Finish(id, CONFIRMED, None, OrderPayload(answer));
      return Done(answer);
    }

    /** `_assert_manual_close_won`: the close filled in full and no stop or target fired beside it, both judged on one
        account read, taken with the close in place and after the position was seen gone. */
    method AssertManualCloseWon(exit: ManualExit, response: Option<OrderRecord>) returns (r: Outcome<()>)
      requires Inv(desk.w) && ManualExiting(desk.w.trade.state) && exit == ExitOf(desk.w.trade.state)
      requires ZeroSeen(desk.w.plan, desk.w.log)
      requires response.Some? ==>
        && ClosePosition(exit) in desk.w.effects
        && Settled(desk.w.effects[ClosePosition(exit)].status)
        && desk.w.effects[ClosePosition(exit)].payload == Some(OrderPayload(response.value))
      modifies desk
      ensures Inv(desk.w) && Calm(old(desk.w), desk.w)
      ensures r.Done? ==>
        && ClosePosition(exit) in desk.w.effects && desk.w.effects[ClosePosition(exit)].request.CloseRequest?
        && CloseWon(desk.w.plan, desk.w.log, desk.w.trade, exit, desk.w.effects[ClosePosition(exit)].request.quantity)
      ensures r.Done? ==> desk.w.log != old(desk.w.log)
      ensures desk.w.log != old(desk.w.log) ==>
        && ClosePosition(exit) in desk.w.effects
        && (desk.w.log == old(desk.w.log) + [Faulted(Reading)]
            || (LastRead(desk.w.log).Some? && desk.w.log == old(desk.w.log) + [Observed(LastRead(desk.w.log).value)]))
      ensures desk.w.log != old(desk.w.log) && desk.w.log != old(desk.w.log) + [Faulted(Reading)] ==>
        (r.Done? <==> WonHere(desk.w, LastRead(desk.w.log).value, exit))
      ensures ClosePosition(exit) in old(desk.w.effects) && !r.Crashed? ==> desk.w.log != old(desk.w.log)
    {
      hide Inv, Advances, Quiet, Calm, FreshFrom, CloseWon, Faithful, ProvenTrigger, Legal, ZeroSeen, FilledInFull, LastRead;
      Transitivity();
      Reflexivity(desk.w);
      var id := ClosePosition(exit);
      if id !in desk.w.effects { return Raised; }
      RowFacts(desk.w);
      CloseFacts(desk.w, exit);
      var effect, plan, trade := desk.w.effects[id], desk.w.plan, desk.w.trade;
      var requested, client := effect.request.quantity, trade.closeClient.value;
      ghost var log := desk.w.log;
      ClosePayloadIsEvidence(desk.w, exit, client, requested);
      var view :- desk.Fetch();
      LastReadAppend(log, Observed(view));
      ClosePayloadIsEvidence(desk.w, exit, client, requested);
      var historical :- FindHistorical(view, client);
      var record: Option<OrderRecord> := None;
      if historical.Some? {
        record := historical;
      } else if response.Some? {
        record := response;
      } else if effect.payload.Some? && effect.payload.value.OrderPayload? {
        record := Some(effect.payload.value.order);
      }
      if record == None || !FilledInFull(record.value, client, requested) { return Raised; }
      var trigger :- ProvenTrigger(plan, view, [], trade.stopId, trade.targetId, trade.filled);
      if trigger.Some? { return Raised; }
      Judged(plan, log, view, trade, exit, requested);
      return Done(());
    }

    /** The single identity under which the cleanup knows this leg's order: the trade row, the journal and
        the listing must not disagree, and a create without any identity cannot be cleaned up. */
    method IdentifyLeg(leg: Leg, view: Snapshot, ghost seen: World) returns (r: Outcome<Option<TpslId>>)
      requires Inv(desk.w) && Inv(seen) && Faithful(seen.plan, view, seen.truth)
      requires seen.plan == desk.w.plan && seen.trade == desk.w.trade && SameLegRows(seen, desk.w, leg)
      requires Evolves(seen.truth, desk.w.truth)
      modifies desk
      ensures Inv(desk.w) && Calm(old(desk.w), desk.w) && Evolves(old(desk.w.truth), desk.w.truth)
      ensures SendsNothing(old(desk.w.log), desk.w.log)
      ensures SameLegRows(old(desk.w), desk.w, Other(leg))
      ensures r == Done(None) ==> desk.w.truth.Of(leg).NotSent?
      ensures r.Done? && r.value.Some? ==>
        && IsId(seen.truth.Of(leg), r.value.value) && !BeforeFill(desk.w.trade.state)
        && (Create(leg) in desk.w.effects && desk.w.effects[Create(leg)].status == RECONCILED ==> Indexed(seen.truth.Of(leg)))
    {
      hide Inv, Advances, Quiet, Calm, FreshFrom, Faithful, FindTpsl, PlannedTpsl, Evolves, LegOk;
      Transitivity();
      Reflexivity(desk.w);
      EvolvesTransitivity();
      EvolvesKeeps(seen.truth, desk.w.truth, leg);
      var plan, id := desk.w.plan, Create(leg);
      var created := id in desk.w.effects;
      var responseId := StoredResponseId(desk.w, leg);
      var geometry :- FindTpsl(plan, view, leg);
      SourcesAreOurs(seen, view, leg, geometry);
      if geometry.Some? {
        if !ValidTpsl(plan, leg, geometry.value, false, true) { return Raised; }
        ValidHasId(plan, leg, geometry.value, false, true);
      }
      var geometryId := if geometry.Some? then geometry.value.id else None;
      if created && geometry.Some? && !Settled(desk.w.effects[id].status) {
        var _ :- desk.Finish(id, RECONCILED, geometryId, TpslPayload(geometryId));
      }
      r := OnlyId([desk.w.trade.LegId(leg), StoredExchangeId(desk.w, leg), responseId, geometryId]);
      if r == Done(None) && created { return Raised; }
      EvolvesKeeps(seen.truth, desk.w.truth, leg);
      LegFacts(desk.w, leg);
    }

    /** One pass of the loop in `_cancel_remaining_protection`: after a normal return the order
        this leg created, if any, is not live and never will be. */
    method CancelLegRemaining(leg: Leg, view: Snapshot, completed: bool, ghost seen: World) returns (r: Outcome<()>)
      requires Inv(desk.w) && Inv(seen) && Faithful(seen.plan, view, seen.truth)
      requires seen.plan == desk.w.plan && seen.trade == desk.w.trade && SameLegRows(seen, desk.w, leg)
      requires Evolves(seen.truth, desk.w.truth)
      requires completed ==> desk.w.truth.Of(leg).Gone?
      modifies desk
      ensures Inv(desk.w) && Calm(old(desk.w), desk.w) && Evolves(old(desk.w.truth), desk.w.truth)
      ensures SendsOnlyCancels(old(desk.w.log), desk.w.log)
      ensures SameLegRows(old(desk.w), desk.w, Other(leg))
      ensures r.Done? ==> Harmless(desk.w.truth.Of(leg))
    {
      hide Inv, Advances, Quiet, Calm, FreshFrom, Faithful, FindTpsl, PlannedTpsl, Evolves, LegOk;
      Transitivity();
      Reflexivity(desk.w);
      EvolvesTransitivity();
      ghost var start := desk.w;
      var tpsl :- IdentifyLeg(leg, view, seen);
      EvolvesKeeps(start.truth, desk.w.truth, leg);
      EvolvesKeeps(seen.truth, desk.w.truth, leg);
      if tpsl == None { return Done(()); }
      var found :- FindTpslById(view, tpsl);
      var created := Create(leg) in desk.w.effects;
      var status := if created then desk.w.effects[Create(leg)].status else PREPARED;
      if found.Some? && !ValidTpsl(desk.w.plan, leg, found.value, false, !Settled(status)) { return Raised; }
      if if found.Some? then !LiveTpsl(found.value) else !completed && created && status == RECONCILED {
        NotLiveMeansGone(desk.w.plan, view, seen.truth, leg, tpsl.value);
        return Done(());
      }
      if found == None && completed { return Done(()); }
      r := CancelLegOrder(leg, tpsl.value);
    }

    /** The cancellation itself, once. A settled cancellation names an order the venue has indexed. */
    method CancelLegOnce(leg: Leg, tpsl: TpslId) returns (r: Outcome<()>)
      requires Inv(desk.w) && IsId(desk.w.truth.Of(leg), tpsl) && !BeforeFill(desk.w.trade.state)
      modifies desk
      ensures Inv(desk.w) && Calm(old(desk.w), desk.w) && Evolves(old(desk.w.truth), desk.w.truth)
      ensures SendsOnlyCancels(old(desk.w.log), desk.w.log)
      ensures SameLegRows(old(desk.w), desk.w, leg) && SameLegRows(old(desk.w), desk.w, Other(leg))
      ensures r.Done? ==> Indexed(desk.w.truth.Of(leg))
    {
      hide Inv, Advances, Quiet, Calm, FreshFrom, Faithful, Evolves, LegOk, SendsOnlyCancels;
      CancelsChain();
      Transitivity();
      Reflexivity(desk.w);
      EvolvesTransitivity();
      var id := CancelLeg(leg);
      CancelIssuesNothing(desk.w.truth, id);
      var preparation :- desk.Prepare(id, CancelRequest(tpsl));
      if Settled(preparation.effect.status) {
        CancelSettled(desk.w, leg);
        return Done(());
      }
      if !preparation.created { return Raised; }
      var _ :- desk.Await();
      CancelIssuesNothing(desk.w.truth, id);
      var _ :- desk.SendCancelLeg(leg);
      ghost var sent := desk.w.truth;
      var _ :- desk.Finish(id, CONFIRMED, Some(tpsl), LegCancelPayload);
      EvolvesKeeps(sent, desk.w.truth, leg);
      return Done(());
    }

    /** The cancellation with the read that verifies it. */
    method CancelLegOrder(leg: Leg, tpsl: TpslId) returns (r: Outcome<()>)
      requires Inv(desk.w) && IsId(desk.w.truth.Of(leg), tpsl) && !BeforeFill(desk.w.trade.state)
      modifies desk
      ensures Inv(desk.w) && Calm(old(desk.w), desk.w) && Evolves(old(desk.w.truth), desk.w.truth)
      ensures SendsOnlyCancels(old(desk.w.log), desk.w.log)
      ensures SameLegRows(old(desk.w), desk.w, leg) && SameLegRows(old(desk.w), desk.w, Other(leg))
      ensures r.Done? ==> desk.w.truth.Of(leg).Gone?
    {
      hide Inv, Advances, Quiet, Calm, FreshFrom, Faithful, Evolves, LegOk;
      Transitivity();
      Reflexivity(desk.w);
      EvolvesTransitivity();
      ghost var start := desk.w.truth;
      var _ :- CancelLegOnce(leg, tpsl);
      ghost var cancelled := desk.w.truth;
      var verified :- desk.Fetch();
      EvolvesKeeps(start, desk.w.truth, leg);
      EvolvesKeeps(cancelled, desk.w.truth, leg);
      var found :- FindTpslById(verified, Some(tpsl));
      if found.Some? && LiveTpsl(found.value) { return Raised; }
      NotLiveMeansGone(desk.w.plan, verified, desk.w.truth, leg, tpsl);
      return Done(());
    }

    /** `_cancel_remaining_protection`: a normal return leaves no stop or target of this trade live. */
    method CancelRemaining(completed: Option<Leg>) returns (r: Outcome<()>)
      requires Inv(desk.w)
      requires completed.Some? ==> desk.w.truth.Of(completed.value).Gone?
      modifies desk
      ensures Inv(desk.w) && Calm(old(desk.w), desk.w) && Evolves(old(desk.w.truth), desk.w.truth)
      ensures SendsOnlyCancels(old(desk.w.log), desk.w.log)
      ensures r.Done? ==> Harmless(desk.w.truth.stop) && Harmless(desk.w.truth.target)
      ensures !r.Crashed? ==> ReadAt(desk.w.log, |old(desk.w.log)|)
    {
      hide Inv, Advances, Quiet, Calm, FreshFrom, Faithful, Evolves;
      Transitivity();
      Reflexivity(desk.w);
      EvolvesTransitivity();
      ghost var start := desk.w.truth;
      var view :- desk.Fetch();
      ghost var seen := desk.w;
      if completed.Some? { EvolvesKeeps(start, seen.truth, completed.value); }
      var _ :- CancelLegRemaining(StopLeg, view, completed == Some(StopLeg), seen);
      assert SameLegRows(seen, desk.w, TargetLeg);
      ghost var halfway := desk.w.truth;
      EvolvesKeeps(seen.truth, halfway, TargetLeg);
      var _ :- CancelLegRemaining(TargetLeg, view, completed == Some(TargetLeg), seen);
      EvolvesKeeps(halfway, desk.w.truth, StopLeg);
      return Done(());
    }

    /** `_finish_venue_exit` for a timeout or emergency exit. */
    method FinishManualExit(exit: ManualExit, response: Option<OrderRecord>) returns (r: Outcome<()>)
      requires Inv(desk.w) && ManualExiting(desk.w.trade.state) && exit == ExitOf(desk.w.trade.state)
      requires ZeroSeen(desk.w.plan, desk.w.log)
      requires response.Some? ==>
        && ClosePosition(exit) in desk.w.effects
        && Settled(desk.w.effects[ClosePosition(exit)].status)
        && desk.w.effects[ClosePosition(exit)].payload == Some(OrderPayload(response.value))
      modifies desk
      ensures Inv(desk.w) && Advances(old(desk.w), desk.w)
      ensures r.Done? ==> desk.w.trade.state == FLAT
      ensures r.Done? ==> ClosePosition(exit) in old(desk.w.effects)
      ensures !r.Crashed? && ClosePosition(exit) in old(desk.w.effects) ==> ReadAt(desk.w.log, |old(desk.w.log)|)
    {
      hide Inv, Advances, Quiet, Calm, FreshFrom, ZeroSeen, CloseWon, FlatProven, LastRead, WonHere,
        EntrySeenGone, Evolves;
      Transitivity();
      Reflexivity(desk.w);
      ghost var start := desk.w;
      var _ :- AssertManualCloseWon(exit, response);
      CalmSameClose(start, desk.w, exit);
      ghost var won := desk.w;
      var _ :- CancelRemaining(None);
      CalmSameClose(won, desk.w, exit);
      CalmKeepsClose(won, desk.w, exit, won.effects[ClosePosition(exit)].request.quantity);
      RowFacts(desk.w);
      ClosedFlat(desk.w, exit);
      var _ :- desk.Transition(desk.w.trade.(state := FLAT));
      return Done(());
    }

    /** The account read that follows a close: anything left open blocks the trade for the operator. */
    method MustBeFlat() returns (r: Outcome<()>)
      requires Inv(desk.w) && ManualExiting(desk.w.trade.state)
      modifies desk
      ensures Inv(desk.w) && Advances(old(desk.w), desk.w)
      ensures r.Done? ==> Calm(old(desk.w), desk.w) && ZeroSeen(desk.w.plan, desk.w.log)
      ensures !r.Crashed? ==> |desk.w.log| > |old(desk.w.log)| && IsRead(desk.w.log[|old(desk.w.log)|])
      ensures r.Raised? && SeesOpen(desk.w, |old(desk.w.log)|) ==>
        TakenUp(desk.w.log, |old(desk.w.log)|, FAILED_BLOCKED)
    {
      hide Inv, Advances, Quiet, Calm, FreshFrom, ZeroSeen, EntrySeenGone, PositionQuantity, StillCounts,
        LastRead, Faithful, Evolves;
      Transitivity();
      ghost var start := desk.w;
      var plan := desk.w.plan;
      var view :- desk.Fetch();
      JustSeen(plan, start.log, view, desk.w.trade);
      var flat :- SeenFlat(plan, view);
      if flat { return Done(()); }
      ghost var read := desk.w.log;
      r := BlockTrade();
      assert desk.w.log[|start.log|] == read[|start.log|];
    }

    /** What is left open is blocked for the operator, and raised. */
    method BlockTrade() returns (r: Outcome<()>)
      requires Inv(desk.w) && ManualExiting(desk.w.trade.state)
      modifies desk
      ensures Inv(desk.w) && Advances(old(desk.w), desk.w) && r.IsFailure()
      ensures r.Raised? ==> TakenUp(desk.w.log, |old(desk.w.log)|, FAILED_BLOCKED)
    {
      hide Inv, Advances, Quiet, Calm, FreshFrom, TakenUp;
      Transitivity();
      RowFacts(desk.w);
      ghost var start := desk.w.log;
      r := desk.Transition(desk.w.trade.(state := FAILED_BLOCKED));
      if !r.Crashed? { TakenLast(start, desk.w.log, FAILED_BLOCKED); }
      if r.Done? { r := Raised; }
    }

    /** `_emergency_close`: reached only from PROTECTING or ACTIVE, perhaps with a row read before the last commit. */
    method EmergencyClose(known: TradeState) returns (r: Outcome<()>)
      requires Inv(desk.w) && desk.w.trade.state in {PROTECTING, ACTIVE} && Remembers(known, desk.w.trade.state)
      modifies desk
      ensures Inv(desk.w) && Advances(old(desk.w), desk.w)
      ensures r.Done? ==> desk.w.trade.state == FLAT
      ensures !r.Crashed? ==> EmergencyFrom(desk.w, |old(desk.w.log)|)
    {
      hide Inv, Advances, Quiet, Calm, FreshFrom, ZeroSeen, EntrySeenGone, CloseWon, FlatProven,
        LastRead, PositionForTrade, FirstMeasure, OpensAt, ClosingFrom;
      Transitivity();
      Reflexivity(desk.w);
      ghost var n := |desk.w.log|;
      var measure := CancelEntryAndMeasure(known);
      if measure.IsFailure() {
        if measure.Raised? { MeasureFaulted(desk.w, n); }
        return measure.PropagateFailure();
      }
      var quantity := measure.value;
      ghost var i: nat :| MeasuredAt(desk.w.plan, desk.w.log, n, i, quantity);
      ghost var seen := desk.w;
      r := TakeExit(quantity);
      OpensStill(seen, desk.w, n, i, quantity);
      if !r.Crashed? {
        ghost var k: nat :| |seen.log| <= k < |desk.w.log| && IsExit(desk.w.log, k, quantity);
        ExitFollows(seen.log, desk.w, n, i, k, quantity);
      }
    }

    /** The exit itself: the row goes to EXITING_EMERGENCY, and the measured position is closed. */
    method TakeExit(quantity: real) returns (r: Outcome<()>)
      requires Inv(desk.w) && desk.w.trade.state in {PROTECTING, ACTIVE} && quantity >= 0.0
      requires EntrySeenGone(desk.w.plan, desk.w.log) && desk.w.truth.entry == Closed
      requires Measured(desk.w.plan, desk.w.log, quantity)
      modifies desk
      ensures Inv(desk.w) && Advances(old(desk.w), desk.w)
      ensures r.Done? ==> desk.w.trade.state == FLAT
      ensures !r.Crashed? ==> exists k :: |old(desk.w.log)| <= k < |desk.w.log| && IsExit(desk.w.log, k, quantity)
    {
      hide Inv, Advances, Quiet, Calm, FreshFrom, ZeroSeen, EntrySeenGone, CloseWon, FlatProven, LastRead, PositionForTrade,
        ClosingFrom;
      Transitivity();
      Reflexivity(desk.w);
      ghost var start := desk.w;
      var day := desk.Clock();
      RowFacts(desk.w);
      CloseFacts(desk.w, EmergencyExit);
      ghost var read := desk.w;
      LastReadAppend(start.log, Clocked(day));
      var client := Deterministic(desk.w.plan.trade, CloseClient(EmergencyExit), day);
      var moved := desk.Transition(desk.w.trade.(state := EXITING_EMERGENCY, closeClient := Some(client)));
      ghost var k := |desk.w.log| - 1;
      if moved.IsFailure() {
        assert moved.Raised? ==> IsExit(desk.w.log, k, quantity);
        return moved;
      }
      SeenStays(start.plan, start.log, desk.w.log);
      LastReadAppend(read.log, Moved(read.trade, desk.w.trade));
      ClosedStays(start, desk.w);
      ghost var exiting := desk.w.log;
      r := CloseOrFinish(quantity);
      assert desk.w.log[k] == exiting[k];
      assert !r.Crashed? ==> IsExit(desk.w.log, k, quantity);
    }

    /** What an emergency exit does about the measured position. */
    method CloseOrFinish(quantity: real) returns (r: Outcome<()>)
      requires Inv(desk.w) && desk.w.trade.state == EXITING_EMERGENCY && quantity >= 0.0
      requires EntrySeenGone(desk.w.plan, desk.w.log) && desk.w.truth.entry == Closed
      requires Measured(desk.w.plan, desk.w.log, quantity) && ClosePosition(EmergencyExit) !in desk.w.effects
      modifies desk
      ensures Inv(desk.w) && Advances(old(desk.w), desk.w)
      ensures r.Done? ==> desk.w.trade.state == FLAT
      ensures !r.Crashed? ==> ClosingFrom(desk.w.log, |old(desk.w.log)|, EmergencyExit, quantity)
    {
      hide Inv, Advances, Quiet, Calm, FreshFrom, EntrySeenGone, Measured, Undertaken;
      if quantity > 0.0 {
        r := CloseMeasured(EmergencyExit, quantity);
      } else {
        r := FinishUnclosedExit();
      }
    }

    /** Send the close of a measured position and finish the exit once the account reads flat. */
    method CloseMeasured(exit: ManualExit, quantity: real) returns (r: Outcome<()>)
      requires Inv(desk.w) && ManualExiting(desk.w.trade.state) && exit == ExitOf(desk.w.trade.state)
      requires Measured(desk.w.plan, desk.w.log, quantity) && desk.w.truth.entry == Closed
      modifies desk
      ensures Inv(desk.w) && Advances(old(desk.w), desk.w)
      ensures r.Done? ==> desk.w.trade.state == FLAT
      ensures !r.Crashed? && quantity > 0.0 && ClosePosition(exit) !in old(desk.w.effects) ==>
        Undertaken(desk.w.log, |old(desk.w.log)|, ClosePosition(exit), CloseRequest(quantity))
    {
      hide Inv, Advances, Quiet, Calm, FreshFrom, ZeroSeen, Measured, CloseWon, FlatProven;
      Transitivity();
      Reflexivity(desk.w);
      var answer :- CloseEffect(exit, quantity);
      ghost var closed := desk.w;
      var _ :- MustBeFlat();
      CalmSameClose(closed, desk.w, exit);
      r := FinishManualExit(exit, Some(answer));
    }

    /** The end of `_emergency_close` when nothing was left to close. */
    method FinishUnclosedExit() returns (r: Outcome<()>)
      requires Inv(desk.w) && desk.w.trade.state == EXITING_EMERGENCY && EntrySeenGone(desk.w.plan, desk.w.log)
      requires desk.w.truth.entry == Closed && ClosePosition(EmergencyExit) !in desk.w.effects
      modifies desk
      ensures Inv(desk.w) && Advances(old(desk.w), desk.w)
      ensures r.Done? ==> desk.w.trade.state == FLAT
      ensures !r.Crashed? ==> |desk.w.log| > |old(desk.w.log)| && IsRead(desk.w.log[|old(desk.w.log)|])
    {
      hide Inv, Advances, Quiet, Calm, FreshFrom, ZeroSeen, EntrySeenGone, CloseWon, FlatProven;
      Transitivity();
      Reflexivity(desk.w);
      ghost var start := desk.w;
      var _ :- MustBeFlat();
      CalmSameClose(start, desk.w, EmergencyExit);
      CalmKeepsEvidence(start, desk.w);
      ghost var flat := desk.w;
      var _ :- CancelRemaining(None);
      CalmKeepsEvidence(flat, desk.w);
      CalmSameClose(flat, desk.w, EmergencyExit);
      RowFacts(desk.w);
      UnclosedFlat(desk.w);
      ClosedStays(start, desk.w);
      var _ :- desk.Transition(desk.w.trade.(state := FLAT));
      return Done(());
    }

    // ------------------------------------------------------------- exits

    /** `_resume_close_exit`: measure again, then close or finish. */
    method ResumeCloseExit(exit: ManualExit) returns (r: Outcome<()>)
      requires Inv(desk.w) && ManualExiting(desk.w.trade.state) && exit == ExitOf(desk.w.trade.state)
      modifies desk
      ensures Inv(desk.w) && Advances(old(desk.w), desk.w)
      ensures r.Done? ==> desk.w.trade.state == FLAT
      ensures !r.Crashed? && ClosePosition(exit) !in old(desk.w.effects) ==> ExitResumed(desk.w, |old(desk.w.log)|, exit)
      ensures !r.Crashed? ==> ReadAt(desk.w.log, |old(desk.w.log)|)
    {
      hide Inv, Advances, Quiet, Calm, FreshFrom, ZeroSeen, EntrySeenGone, FirstMeasure, OpensAt, Undertaken;
      Transitivity();
      ghost var n := |desk.w.log|;
      var measure := CancelEntryAndMeasure(desk.w.trade.state);
      if !measure.Crashed? { ReadOpens(desk.w, n); }
      if measure.IsFailure() { return measure.PropagateFailure(); }
      var quantity := measure.value;
      ghost var i: nat :| MeasuredAt(desk.w.plan, desk.w.log, n, i, quantity);
      ghost var seen := desk.w;
      if quantity > 0.0 {
        r := CloseMeasured(exit, quantity);
      } else {
        r := FinishManualExit(exit, None);
      }
      OpensStill(seen, desk.w, n, i, quantity);
      if !r.Crashed? && (quantity > 0.0 ==> Undertaken(desk.w.log, |seen.log|, ClosePosition(exit), CloseRequest(quantity))) {
        ResumedAt(seen, desk.w, n, i, |seen.log|, exit, quantity);
      }
    }

    /** `_timeout_close`. */
    method TimeoutClose() returns (r: Outcome<()>)
      requires Inv(desk.w) && desk.w.trade.state == ACTIVE && HeldTooLong(desk.w.plan, desk.w.log, desk.w.trade)
      modifies desk
      ensures Inv(desk.w) && Advances(old(desk.w), desk.w)
      ensures r.Done? ==> desk.w.trade.state == FLAT
      ensures !r.Crashed? ==> TimedOut(desk.w, |old(desk.w.log)|)
    {
      hide Inv, Advances, Quiet, Calm, FreshFrom, HeldTooLong, ExitResumed;
      Transitivity();
      CloseFacts(desk.w, TimeoutExit);
      ghost var before := desk.w;
      var day := desk.Clock();
      HeldStays(desk.w.plan, before.log, desk.w.log, desk.w.trade);
      RowFacts(desk.w);
      var client := Deterministic(desk.w.plan.trade, CloseClient(TimeoutExit), day);
      var moved := desk.Transition(desk.w.trade.(state := EXITING_TIMEOUT, closeClient := Some(client)));
      ghost var k := |desk.w.log| - 1;
      if moved.IsFailure() {
        assert moved.Raised? ==> desk.w.log[k].Faulted?;
        return moved;
      }
      assert desk.w.log[k].Moved? && desk.w.log[k].after.state == EXITING_TIMEOUT;
      r := ResumeCloseExit(TimeoutExit);
      assert !r.Crashed? ==> IsTimeout(desk.w, k);
    }

    /** `_transition_venue_exit`: the position is gone and one protective order is proven to have filled. */
    method TransitionVenueExit(view: Snapshot, events: seq<TpslRecord>) returns (r: Outcome<Trigger>)
      requires Inv(desk.w) && desk.w.trade.state in {PROTECTING, ACTIVE} && Sighted(desk.w, view)
      requires EventsSettled(desk.w.trade, events, desk.w.truth)
      requires PositionForTrade(desk.w.plan, view) == Done(0.0)
      modifies desk
      ensures Inv(desk.w) && Advances(old(desk.w), desk.w)
      ensures r.Done? ==>
        && desk.w.trade.state == TriggerState(r.value.leg) && desk.w.truth.Of(r.value.leg).Gone?
        && ExitFillSeen(desk.w.plan, desk.w.log, desk.w.trade.filled)
      ensures !r.Crashed? ==>
        var found := ProvenTrigger(desk.w.plan, view, events, old(desk.w.trade.stopId), old(desk.w.trade.targetId),
                                   old(desk.w.trade.filled));
        if !found.Done? || found.value == None then r.Raised? && desk.w == old(desk.w)
        else if r.Raised? then MoveFaulted(desk.w.log, |old(desk.w.log)|)
        else
          && r.value == found.value.value && |desk.w.log| == |old(desk.w.log)| + 1
          && desk.w.log[|old(desk.w.log)|].Moved? && desk.w.log[|old(desk.w.log)|].after.state == TriggerState(r.value.leg)
    {
      hide Inv, Advances, Quiet, Calm, FreshFrom, ProvenTrigger, PositionForTrade, ExitFilled, ExitFillSeen, ZeroSeen,
        Sighted, EventsSettled, Evolves;
      Transitivity();
      Reflexivity(desk.w);
      var t := desk.w.trade;
      var found :- ProvenTrigger(desk.w.plan, view, events, t.stopId, t.targetId, t.filled);
      if found == None { return Raised; }
      var leg := found.value.leg;
      RowFacts(desk.w);
      TriggerFacts(desk.w, view, events);
      SightedFacts(desk.w, view);
      ghost var before := desk.w;
      var moved := desk.Transition(t.(state := TriggerState(leg), closeClient := t.LegClient(leg)));
      if moved.IsFailure() {
        assert moved.Raised? ==> desk.w.log[|desk.w.log| - 1].Faulted?;
        return moved.PropagateFailure();
      }
      assert desk.w.log[|before.log|].Moved?;
      EvolvesKeeps(before.truth, desk.w.truth, leg);
      ExitFillStays(desk.w.plan, before.log, desk.w.log, t.filled);
      return Done(found.value);
    }

    /** `_finish_venue_exit` for a stop or target exit whose trigger is proven. */
    method FinishTriggered(leg: Leg) returns (r: Outcome<()>)
      requires Inv(desk.w) && desk.w.trade.state == TriggerState(leg) && desk.w.truth.Of(leg).Gone?
      requires ExitFillSeen(desk.w.plan, desk.w.log, desk.w.trade.filled)
      modifies desk
      ensures Inv(desk.w) && Advances(old(desk.w), desk.w)
      ensures r.Done? ==> desk.w.trade.state == FLAT
      ensures !r.Crashed? ==> ReadAt(desk.w.log, |old(desk.w.log)|)
    {
      hide Inv, Advances, Quiet, Calm, FreshFrom, ExitFillSeen, Evolves;
      Transitivity();
      ghost var before := desk.w.log;
      var _ :- CancelRemaining(Some(leg));
      ExitFillStays(desk.w.plan, before, desk.w.log, desk.w.trade.filled);
      RowFacts(desk.w);
      var _ :- desk.Transition(desk.w.trade.(state := FLAT));
      return Done(());
    }

    /** `_finish_venue_exit` resumed for a recorded stop or target exit: the trigger is proven again. */
    method ResumeTriggered(leg: Leg, events: seq<TpslRecord>) returns (r: Outcome<()>)
      requires Inv(desk.w) && desk.w.trade.state == TriggerState(leg)
      requires EventsSettled(desk.w.trade, events, desk.w.truth)
      modifies desk
      ensures Inv(desk.w) && Advances(old(desk.w), desk.w)
      ensures r.Done? ==> desk.w.trade.state == FLAT
      ensures !r.Crashed? ==> ReadAt(desk.w.log, |old(desk.w.log)|)
    {
      hide Inv, Advances, Quiet, Calm, FreshFrom, ProvenTrigger, ExitFilled, ExitFillSeen, Sighted, EventsSettled, Evolves,
        Faithful;
      Transitivity();
      ghost var before := desk.w;
      var t := desk.w.trade;
      var view :- desk.Fetch();
      JustSighted(before.log, desk.w, view);
      SettledStays(before, desk.w, events);
      var found :- ProvenTrigger(desk.w.plan, view, events, t.stopId, t.targetId, t.filled);
      if found == None || found.value.leg != leg { return Raised; }
      TriggerFacts(desk.w, view, events);
      r := FinishTriggered(leg);
    }

    /** `_record_cumulative_fill`: a later fill of the entry remainder raises the recorded quantity. */
    method RecordCumulativeFill(view: Snapshot, quantity: real) returns (r: Outcome<()>)
      requires Inv(desk.w) && desk.w.trade.state in {PROTECTING, ACTIVE}
      requires StillCounts(desk.w.log, view) && PositionForTrade(desk.w.plan, view) == Done(quantity)
      modifies desk
      ensures Inv(desk.w) && Advances(old(desk.w), desk.w) && desk.w.trade.state == old(desk.w.trade.state)
      ensures r.Done? ==>
        && desk.w.trade == old(desk.w.trade).(filled := desk.w.trade.filled)
        && Evolves(old(desk.w.truth), desk.w.truth)
      ensures r.Done? ==>
        var slack := desk.w.plan.Slack();
        && desk.w.trade.filled - slack <= quantity <= desk.w.trade.filled + slack
        && desk.w.trade.filled in {old(desk.w.trade.filled), quantity}
      ensures r.Raised? && FillReadable(desk.w.plan, old(desk.w.trade), view) ==>
        MoveFaulted(desk.w.log, |old(desk.w.log)|)
      ensures NoReads(desk.w.log, |old(desk.w.log)|, |desk.w.log|)
    {
      hide Inv, Advances, Quiet, Calm, FreshFrom, Evolves, FillSource, StillCounts, FillShown, PositionForTrade;
      Transitivity();
      EvolvesTransitivity();
      Reflexivity(desk.w);
      var plan, trade := desk.w.plan, desk.w.trade;
      var slack := plan.Slack();
      if quantity < trade.filled - slack { return Raised; }
      if quantity <= trade.filled + slack { return Done(()); }
      var _ :- FillSource(plan, view);
      RowFacts(desk.w);
      ReadShowsFill(plan, desk.w.log, view, quantity);
      r := desk.Transition(trade.(filled := quantity));
      assert r.Raised? ==> desk.w.log[|desk.w.log| - 1] == Faulted(Moving(trade.(filled := quantity)));
    }

    // ------------------------------------------------------------- entry

    /** One read of `_settle_or_cancel_ioc_entry`. */
    method SettleRead() returns (r: Outcome<(Snapshot, Settlement)>)
      requires Inv(desk.w)
      modifies desk
      ensures Inv(desk.w) && Calm(old(desk.w), desk.w) && Evolves(old(desk.w.truth), desk.w.truth)
      ensures Reads(desk.w.log) <= Reads(old(desk.w.log)) + 1 && Sends(desk.w.log) == Sends(old(desk.w.log))
      ensures r.Done? ==>
        && |desk.w.log| > 0 && desk.w.log[|desk.w.log| - 1] == Observed(r.value.0)
        && Faithful(desk.w.plan, r.value.0, desk.w.truth)
        && SettledEntryProjection(desk.w.plan, r.value.0) == Done(r.value.1)
      ensures !r.Crashed? ==> |desk.w.log| == |old(desk.w.log)| + 1
      ensures r.Raised? ==> Unsettling(desk.w.plan, desk.w.log[|old(desk.w.log)|])
    {
      hide Inv, Advances, Quiet, Calm, FreshFrom, Evolves, Reads, Sends, Faithful, SettledEntryProjection;
      Transitivity();
      CountFaults();
      ghost var before := desk.w.log;
      var view :- desk.Fetch();
      CountAppend(before, Observed(view));
      var s :- SettledEntryProjection(desk.w.plan, view);
      return Done((view, s));
    }

    /** `_settle_or_cancel_ioc_entry`: at most eight reads and one cancellation decide what the entry became. */
    method SettleOrCancelEntry(acknowledged: OrderRecord) returns (r: Outcome<OrderRecord>)
      requires Inv(desk.w) && desk.w.trade.state == ENTRY_PENDING
      requires ValidateEntry(desk.w.plan, acknowledged).Done? && EntryRecordFaithful(acknowledged, desk.w.truth.entry)
      modifies desk
      ensures Inv(desk.w) && Calm(old(desk.w), desk.w)
      ensures Reads(desk.w.log) <= Reads(old(desk.w.log)) + 2 * SETTLE_ATTEMPTS
      ensures Sends(desk.w.log) <= Sends(old(desk.w.log)) + 1
      ensures r.Done? ==>
        && EntryRecordFaithful(r.value, desk.w.truth.entry)
        && |desk.w.log| > 0 && desk.w.log[|desk.w.log| - 1].Observed?
        && SettledBy(desk.w.plan, desk.w.log[|desk.w.log| - 1].view, acknowledged, r.value)
        && (StillFillable(r.value.status) <==> WorkingCover(desk.w.plan, desk.w.log[|desk.w.log| - 1].view))
      ensures r.Raised? ==> Unsettled(desk.w, |old(desk.w.log)|)
    {
      hide Inv, Advances, Quiet, Calm, FreshFrom, Evolves, Reads, Sends, Faithful, SettledEntryProjection, CoversPosition,
        UnfilledAndFlat, NothingLeft, EntryRecordFaithful, WorkingCover, Unsettling, SettledBy, CancelUnderWay,
        CancelRefused, LastStillOpen;
      Transitivity();
      EvolvesTransitivity();
      Reflexivity(desk.w);
      ghost var start := desk.w;
      var plan := desk.w.plan;
      var attempt: nat, fillSeen := 0, false;
      while attempt < SETTLE_ATTEMPTS
        invariant attempt <= SETTLE_ATTEMPTS
        invariant Inv(desk.w) && Calm(start, desk.w) && Evolves(start.truth, desk.w.truth)
        invariant Reads(desk.w.log) <= Reads(start.log) + attempt && Sends(desk.w.log) == Sends(start.log)
        invariant fillSeen ==> UnsettlingSince(plan, desk.w.log, |start.log|)
      {
        ghost var seen := |desk.w.log|;
        var read :- SettleRead();
        if read.1.order.Some? {
          SettledRecord(plan, read.0, desk.w.truth, acknowledged);
          SettledButStillFillable(plan, read.0, acknowledged, read.1.order.value);
          return Done(read.1.order.value);
        }
        if read.1.fillSeen { FillUnsettles(plan, desk.w.log[seen]); }
        fillSeen := fillSeen || read.1.fillSeen;
        attempt := attempt + 1;
      }
      if fillSeen { return Raised; }
      RecordStays(start.truth, desk.w.truth, acknowledged);
      r := CancelAndProve(acknowledged);
    }

    /** The second half: one cancellation, then reads until the order is settled or provably gone. */
    method CancelAndProve(acknowledged: OrderRecord) returns (r: Outcome<OrderRecord>)
      requires Inv(desk.w) && desk.w.trade.state == ENTRY_PENDING && EntryRecordFaithful(acknowledged, desk.w.truth.entry)
      modifies desk
      ensures Inv(desk.w) && Calm(old(desk.w), desk.w)
      ensures Reads(desk.w.log) <= Reads(old(desk.w.log)) + SETTLE_ATTEMPTS
      ensures Sends(desk.w.log) <= Sends(old(desk.w.log)) + 1
      ensures r.Done? ==>
        && EntryRecordFaithful(r.value, desk.w.truth.entry)
        && |desk.w.log| > 0 && desk.w.log[|desk.w.log| - 1].Observed?
        && SettledBy(desk.w.plan, desk.w.log[|desk.w.log| - 1].view, acknowledged, r.value)
        && (StillFillable(r.value.status) <==> WorkingCover(desk.w.plan, desk.w.log[|desk.w.log| - 1].view))
      ensures r.Raised? ==> Unsettled(desk.w, |old(desk.w.log)|)
    {
      hide Inv, Advances, Quiet, Calm, FreshFrom, Evolves, Reads, Sends, Faithful, SettledEntryProjection, CoversPosition,
        UnfilledAndFlat, NothingLeft, EntryRecordFaithful, SettledBy, WorkingCover, Unsettling;
      Transitivity();
      EvolvesTransitivity();
      Reflexivity(desk.w);
      ghost var start := desk.w;
      var plan := desk.w.plan;
      FaultsUnsettle(plan);
      var answer :- CancelEntryOrder();
      if !answer.CancelPayload? || answer.id != Some(plan.EntryId()) || answer.status != CANCELED { return Raised; }
      var attempt: nat := 0;
      while true
        invariant attempt < SETTLE_ATTEMPTS
        invariant Inv(desk.w) && Calm(start, desk.w) && Evolves(start.truth, desk.w.truth)
        invariant Reads(desk.w.log) <= Reads(start.log) + attempt && Sends(desk.w.log) <= Sends(start.log) + 1
        decreases SETTLE_ATTEMPTS - attempt
      {
        ghost var seen := |desk.w.log|;
        var read :- SettleRead();
        if read.1.order.Some? {
          SettledRecord(plan, read.0, desk.w.truth, acknowledged);
          SettledButStillFillable(plan, read.0, acknowledged, read.1.order.value);
          return Done(read.1.order.value);
        }
        if read.1.fillSeen {
          FillUnsettles(plan, desk.w.log[seen]);
          return Raised;
        }
        var open := FindOrder(read.0, plan.EntryId());
        if attempt + 1 == SETTLE_ATTEMPTS {
          if open != Done(None) { return Raised; }
          RecordStays(start.truth, desk.w.truth, acknowledged);
          CancelledForGood(plan, read.0, desk.w.truth, acknowledged);
          SettledButStillFillable(plan, read.0, acknowledged, acknowledged.(status := CANCELED));
          return Done(acknowledged.(status := CANCELED));
        }
        attempt := attempt + 1;
      }
    }

    /** `_entry_effect`: send the prepared entry, once, after every admission check was repeated. */
    method EntryEffect(preparation: Preparation) returns (r: Outcome<OrderRecord>)
      requires Inv(desk.w) && desk.w.trade.state == ENTRY_PENDING
      requires PlaceEntry in desk.w.effects && preparation.effect == desk.w.effects[PlaceEntry]
      requires preparation.created ==> preparation.effect.status == PREPARED && Sent(PlaceEntry) !in desk.w.log
      requires InWindow(desk.w.plan, desk.w.log)
      modifies desk
      ensures Inv(desk.w) && Calm(old(desk.w), desk.w)
      ensures r.Done? ==>
        && ValidateEntry(desk.w.plan, r.value).Done? && EntryRecordFaithful(r.value, desk.w.truth.entry)
        && PlaceEntry in desk.w.effects && Settled(desk.w.effects[PlaceEntry].status)
        && EntryAnswered(desk.w.log, r.value)
    {
      hide Inv, Advances, Quiet, Calm, FreshFrom, Evolves, ValidateEntry, EntryRecordFaithful, InWindow;
      Transitivity();
      Reflexivity(desk.w);
      var plan := desk.w.plan;
      if Settled(preparation.effect.status) {
        PlacementFacts(desk.w);
        JournalAnswers(desk.w);
        var payload := preparation.effect.payload.value;
        if !payload.OrderPayload? { return Raised; }
        var _ :- ValidateEntry(plan, payload.order);
        return Done(payload.order);
      }
      if !preparation.created { return Raised; }
      ghost var checked := desk.w.log;
      var _ :- desk.Await();
      WindowStays(plan, checked, desk.w.log);
      var answer :- desk.SendEntry();
      var ack :- ValidateEntry(plan, answer);
      ValidatedIsEntry(plan, answer);
      ghost var sent := desk.w.truth;
      var _ :- desk.Finish(PlaceEntry, CONFIRMED, None, OrderPayload(answer));
      assert IsAnswer(desk.w.log[|desk.w.log| - 1], answer);
      RecordStays(sent, desk.w.truth, answer);
      return Done(answer);
    }

    /** The guarded part of `_handle_once`: send the entry and settle an acknowledgement that is still open. */
    method SubmitEntry(preparation: Preparation) returns (r: Outcome<OrderRecord>)
      requires Inv(desk.w) && desk.w.trade.state == ENTRY_PENDING
      requires PlaceEntry in desk.w.effects && preparation.effect == desk.w.effects[PlaceEntry]
      requires preparation.created ==> preparation.effect.status == PREPARED && Sent(PlaceEntry) !in desk.w.log
      requires InWindow(desk.w.plan, desk.w.log)
      modifies desk
      ensures Inv(desk.w) && Calm(old(desk.w), desk.w)
      ensures r.Done? ==>
        && ValidateEntry(desk.w.plan, r.value).Done? && EntryRecordFaithful(r.value, desk.w.truth.entry)
        && PlaceEntry in desk.w.effects && Settled(desk.w.effects[PlaceEntry].status)
        && EntryShown(desk.w.plan, desk.w.log, r.value)
    {
      hide Inv, Advances, Quiet, Calm, FreshFrom, Evolves, ValidateEntry, EntryRecordFaithful, SettledBy, Reads, Sends,
        EntryAnswered, EntryShown, InWindow;
      Transitivity();
      var answer :- EntryEffect(preparation);
      AnswerIsShown(desk.w.plan, desk.w.log, answer);
      var ack := ValidateEntry(desk.w.plan, answer).value;
      if ack.filled > 0.0 || TerminalOrder(ack.status) { return Done(answer); }
      ghost var placed := desk.w;
      var settled :- SettleOrCancelEntry(answer);
      OutcomeStays(placed, desk.w, PlaceEntry);
      AnsweredStays(placed.log, desk.w.log, answer);
      SettledIsShown(desk.w.plan, desk.w.log, answer, settled);
      var _ :- ValidateEntry(desk.w.plan, settled);
      return Done(settled);
    }

    /** The handler of an ambiguous entry: entries are revoked before anything is read, and exposure found now is
        closed now. Where the revocation itself fails, nothing further is done. */
    method CompensateAmbiguousEntry() returns (r: Outcome<()>, revoked: Outcome<()>)
      requires Inv(desk.w) && desk.w.trade.state == ENTRY_PENDING && gate.Valid()
      modifies desk, gate
      ensures Inv(desk.w) && Advances(old(desk.w), desk.w) && gate.Valid()
      ensures r.Done? ==> desk.w.trade.state == FLAT
      ensures revoked.Done? ==> gate.Closed()
      ensures revoked.IsFailure() ==> r == revoked && desk.w == old(desk.w) && gate.blockers == old(gate.blockers)
      ensures revoked.Done? && !r.Crashed? ==> ExposureClosed(desk.w, old(desk.w.trade), |old(desk.w.log)|, r)
    {
      hide Inv, Advances, Quiet, Calm, FreshFrom, Evolves;
      Transitivity();
      Reflexivity(desk.w);
      revoked := gate.Block();
      if revoked.IsFailure() { return revoked, revoked; }
      r := CloseExposure();
    }

    /** What the handler does once entries are revoked: the account is read, and an open position is closed. */
    method CloseExposure() returns (r: Outcome<()>)
      requires Inv(desk.w) && desk.w.trade.state == ENTRY_PENDING
      modifies desk
      ensures Inv(desk.w) && Advances(old(desk.w), desk.w)
      ensures r.Done? ==> desk.w.trade.state == FLAT
      ensures !r.Crashed? ==> ExposureClosed(desk.w, old(desk.w.trade), |old(desk.w.log)|, r)
    {
      hide Inv, Advances, Quiet, Calm, FreshFrom, Evolves, Faithful, PositionQuantity, StillCounts, FillShown, EmergencyFrom, ZeroSeen, EntrySeenGone, LastRead, FindOrder;
      Transitivity();
      ghost var before := desk.w.log;
      var view :- desk.Fetch();
      var plan := desk.w.plan;
      var exposed :- PositionQuantity(plan, view.positions);
      if exposed <= 0.0 { return Raised; }
      ExposureMeansBorn(plan, view, desk.w.truth);
      RowFacts(desk.w);
      JustSeen(plan, before, view, desk.w.trade);
      ReadShowsFill(plan, desk.w.log, view, Min(exposed, plan.quantity));
      var _ :- desk.Transition(desk.w.trade.(
        state := PROTECTING, filled := Min(exposed, plan.quantity), firstFill := Some(plan.eligibleAt)));
      r := EmergencyClose(PROTECTING);
    }

    /** The row moves to PROTECTING with its first observed fill. */
    method FirstFill(filled: real, at: int) returns (r: Outcome<()>)
      requires Inv(desk.w) && desk.w.trade.state == ENTRY_PENDING && filled > 0.0 && Born(desk.w.truth.entry)
      requires FillShown(desk.w.plan, desk.w.log, filled) && DateShown(desk.w.plan, desk.w.log, at)
      modifies desk
      ensures Inv(desk.w) && Advances(old(desk.w), desk.w)
      ensures r.Done? ==>
        && desk.w.trade == old(desk.w.trade).(state := PROTECTING, filled := filled, firstFill := Some(at))
        && desk.w.log == old(desk.w.log) + [Moved(old(desk.w.trade), desk.w.trade)]
      ensures r.Raised? ==>
        Halted(desk.w.log, |old(desk.w.log)|, old(desk.w.trade).(state := PROTECTING, filled := filled, firstFill := Some(at)))
    {
      hide Inv, Advances, Quiet, Calm, FreshFrom, Evolves, FillShown, DateShown;
      Transitivity();
      RowFacts(desk.w);
      r := desk.Transition(desk.w.trade.(state := PROTECTING, filled := filled, firstFill := Some(at)));
    }

    /** The first fill is recorded and protected. */
    method ProtectFill(filled: real, at: int) returns (r: Outcome<()>)
      requires Inv(desk.w) && desk.w.trade.state == ENTRY_PENDING && filled > 0.0 && Born(desk.w.truth.entry)
      requires FillShown(desk.w.plan, desk.w.log, filled) && DateShown(desk.w.plan, desk.w.log, at)
      modifies desk
      ensures Inv(desk.w) && Advances(old(desk.w), desk.w)
      ensures r.Done? ==> desk.w.trade.state in {ACTIVE, FLAT} && desk.w.trade.firstFill == Some(at)
      ensures !r.Crashed? ==>
        Moves(desk.w.log, |old(desk.w.log)|, old(desk.w.trade).(state := PROTECTING, filled := filled, firstFill := Some(at)),
              r.Raised?, ProtectionFrom(desk.w, |old(desk.w.log)| + 1, r))
    {
      hide Inv, Advances, Quiet, Calm, FreshFrom, Evolves, FillShown, DateShown, ProtectionFrom;
      Transitivity();
      ghost var before := desk.w;
      var _ :- FirstFill(filled, at);
      ghost var held := desk.w.trade;
      r := Protect();
      FillTimeStays(before.log, before.trade, held, desk.w);
    }

    /** What `_handle_once` does with a validated entry answer: `stamps` are the venue's own times in it, and the clock
        reads `observed`. */
    method RecordEntryAnswer(answer: OrderRecord, stamps: seq<int>, observed: int) returns (r: Outcome<()>)
      requires Inv(desk.w) && desk.w.trade.state == ENTRY_PENDING
      requires ValidateEntry(desk.w.plan, answer).Done? && EntryRecordFaithful(answer, desk.w.truth.entry)
      requires EntryShown(desk.w.plan, desk.w.log, answer) && Clocked(observed) in desk.w.log
      modifies desk
      ensures Inv(desk.w) && Advances(old(desk.w), desk.w)
      ensures !r.Crashed? ==> Recorded(desk.w, old(desk.w.trade), |old(desk.w.log)|, answer, stamps, observed, r)
      ensures r.Done? ==>
        var ack := ValidateEntry(desk.w.plan, answer).value;
        desk.w.trade.state in
          if ack.filled > 0.0 then {ACTIVE, FLAT} else if TerminalOrder(ack.status) then {CANCELLED} else {ENTRY_PENDING}
      ensures r.Done? && ValidateEntry(desk.w.plan, answer).value.filled > 0.0 ==>
        FillDated(desk.w.plan, desk.w.trade, observed)
    {
      hide Inv, Advances, Quiet, Calm, FreshFrom, Evolves, ValidateEntry, EntryShown, FillShown, UnfilledShown, DateShown,
        ProtectionFrom;
      Transitivity();
      Reflexivity(desk.w);
      ValidatedStatus(desk.w.plan, answer);
      RowFacts(desk.w);
      EntryDecides(desk.w.plan, desk.w.log, answer);
      ghost var start := desk.w.log;
      assert forall log :: start <= log ==> log[..|start|] == start;
      var ack := ValidateEntry(desk.w.plan, answer).value;
      if ack.filled <= 0.0 && TerminalOrder(ack.status) {
        r := desk.Transition(desk.w.trade.(state := CANCELLED));
        return;
      }
      if ack.filled <= 0.0 {
        r := desk.Transition(desk.w.trade);
        return;
      }
      var at :- ResponseTime(stamps, observed, observed, desk.w.plan.eligibleAt);
      ReadingDates(desk.w.plan, desk.w.log, stamps, observed, observed);
      r := ProtectFill(ack.filled, at);
    }

    /** `_handle_once` from the moment the placement may be prepared. `ambiguous` is an entry whose answer could not be
        taken at its word: entries are then revoked, whatever the account shows. */
    method PlacePending() returns (r: Outcome<()>, ambiguous: bool, revoked: Outcome<()>)
      requires Inv(desk.w) && desk.w.trade.state == ENTRY_PENDING && Sent(PlaceEntry) !in desk.w.log && gate.Valid()
      requires InWindow(desk.w.plan, desk.w.log)
      modifies desk, gate
      ensures Inv(desk.w) && Advances(old(desk.w), desk.w) && gate.Valid()
      ensures r.Done? ==> desk.w.trade.state in {ENTRY_PENDING, ACTIVE, FLAT, CANCELLED} && PlaceEntry in desk.w.effects
      ensures Unanswered(desk.w) && !r.Crashed? ==> ambiguous
      ensures RevokedIf(ambiguous, revoked, r, gate.Closed())
      ensures ambiguous && revoked.Done? && !r.Crashed? ==> ExposureAnswered(desk.w, old(desk.w.trade), r)
      ensures !ambiguous && !r.Crashed? ==> AnswerRecorded(desk.w, old(desk.w.trade), r) || NotPlaced(desk.w, r)
      ensures !ambiguous ==> gate.blockers == old(gate.blockers) && gate.allowed == old(gate.allowed)
    {
      hide Inv, Advances, Quiet, Calm, FreshFrom, Evolves, InWindow, AnswerRecorded, ExposureAnswered;
      Transitivity();
      ghost var checked := desk.w.log;
      ambiguous, revoked := false, Done(());
      var admitted := desk.Await();
      if admitted.IsFailure() {
        assert admitted.Raised? ==> desk.w.log[|desk.w.log| - 1] == Faulted(Admitting);
        return admitted, false, revoked;
      }
      var preparation := desk.Prepare(PlaceEntry, PlainRequest);
      if preparation.IsFailure() {
        assert preparation.Raised? ==> desk.w.log[|desk.w.log| - 1] == Faulted(Journalling(PlaceEntry));
        return preparation.PropagateFailure(), false, revoked;
      }
      ghost var prepared := desk.w;
      WindowStays(desk.w.plan, checked, desk.w.log);
      r, ambiguous, revoked := PlacePrepared(preparation.value);
      OutcomeStays(prepared, desk.w, PlaceEntry);
    }

    /** The guarded submission and what follows it. */
    method PlacePrepared(preparation: Preparation) returns (r: Outcome<()>, ambiguous: bool, revoked: Outcome<()>)
      requires Inv(desk.w) && desk.w.trade.state == ENTRY_PENDING && gate.Valid() && InWindow(desk.w.plan, desk.w.log)
      requires PlaceEntry in desk.w.effects && preparation.effect == desk.w.effects[PlaceEntry]
      requires preparation.created ==> preparation.effect.status == PREPARED && Sent(PlaceEntry) !in desk.w.log
      modifies desk, gate
      ensures Inv(desk.w) && Advances(old(desk.w), desk.w) && gate.Valid()
      ensures r.Done? ==> desk.w.trade.state in {ENTRY_PENDING, ACTIVE, FLAT, CANCELLED}
      ensures Unanswered(desk.w) && !r.Crashed? ==> ambiguous
      ensures RevokedIf(ambiguous, revoked, r, gate.Closed())
      ensures ambiguous && revoked.Done? && !r.Crashed? ==> ExposureAnswered(desk.w, old(desk.w.trade), r)
      ensures !ambiguous && !r.Crashed? ==> AnswerRecorded(desk.w, old(desk.w.trade), r)
      ensures !ambiguous ==> gate.blockers == old(gate.blockers) && gate.allowed == old(gate.allowed)
    {
      hide Inv, Advances, Quiet, Calm, FreshFrom, Evolves, ValidateEntry, EntryRecordFaithful, InWindow, EntryShown,
        Recorded, ExposureClosed;
      Transitivity();
      ambiguous, revoked := false, Done(());
      ghost var before := desk.w.trade;
      var answer := SubmitEntry(preparation);
      if answer.Crashed? { return Crashed, false, revoked; }
      ghost var submitted := desk.w;
      ghost var n := |desk.w.log|;
      if answer.Raised? {
        ambiguous := true;
        r, revoked := CompensateAmbiguousEntry();
        assert revoked.Done? && !r.Crashed? ==> ExposureClosed(desk.w, before, n, r);
      } else {
        var observed := desk.Clock();
        var stamps: seq<int> := *;
        EntryShownStays(submitted, desk.w, answer.value);
        n := |desk.w.log|;
        r := RecordEntryAnswer(answer.value, stamps, observed);
        if !r.Crashed? { RecordedAnswer(desk.w, before, n, answer.value, stamps, observed, r); }
        OutcomeStays(submitted, desk.w, PlaceEntry);
      }
    }

    /** `_handle_once` for a trade that is still RECEIVED. */
    method SubmitNewTrade(now: int) returns (r: Outcome<()>, ambiguous: bool, revoked: Outcome<()>)
      requires Inv(desk.w) && desk.w.trade.state == RECEIVED && gate.Valid()
      requires Clocked(now) in desk.w.log && desk.w.plan.eligibleAt <= now
      modifies desk, gate
      ensures Inv(desk.w) && Advances(old(desk.w), desk.w) && gate.Valid()
      ensures r.Done? && now > desk.w.plan.expiresAt ==> desk.w.trade.state == CANCELLED
      ensures now > desk.w.plan.expiresAt ==> SendsNothing(old(desk.w.log), desk.w.log)
      ensures r.Done? && now <= desk.w.plan.expiresAt ==> PlaceEntry in desk.w.effects
      ensures r.Done? ==> desk.w.trade.state in {ENTRY_PENDING, ACTIVE, FLAT, CANCELLED}
      ensures Unanswered(desk.w) && !r.Crashed? ==> ambiguous
      ensures RevokedIf(ambiguous, revoked, r, gate.Closed())
      ensures NewTradeAnswered(desk.w, now, ambiguous, revoked, r)
      ensures !ambiguous ==> gate.blockers == old(gate.blockers) && gate.allowed == old(gate.allowed)
    {
      hide Inv, Advances, Quiet, Calm, FreshFrom, Evolves, ExposureAnswered, AnswerRecorded;
      Transitivity();
      ghost var checked := desk.w.log;
      RowFacts(desk.w);
      NothingSent(desk.w);
      JournalFacts(desk.w, PlaceEntry);
      ambiguous, revoked := false, Done(());
      if now > desk.w.plan.expiresAt {
        r := desk.Transition(desk.w.trade.(state := CANCELLED));
        return;
      }
      r := desk.Transition(desk.w.trade.(state := ENTRY_PENDING));
      if r.IsFailure() { return; }
      WindowStays(desk.w.plan, checked, desk.w.log);
      assert InWindow(desk.w.plan, desk.w.log);
      r, ambiguous, revoked := PlacePending();
    }

    // ----------------------------------------------------------- recovery

    /** `_recover_pre_mutation_gap`: a trade without a placement row never reached the venue. */
    method RecoverPreMutationGap(view: Snapshot) returns (r: Outcome<()>)
      requires Inv(desk.w)
      modifies desk
      ensures Inv(desk.w) && Advances(old(desk.w), desk.w)
      ensures r.Done? ==> (Calm(old(desk.w), desk.w) && desk.w.trade.state != RECEIVED) || desk.w.trade.state == CANCELLED
      ensures r.Done? && desk.w.trade.state == ENTRY_PENDING ==> PlaceEntry in desk.w.effects
      ensures r.Done? && old(desk.w.trade.state) == ENTRY_PENDING && desk.w.trade.state == CANCELLED ==>
        && PlaceEntry !in old(desk.w.effects)
        && FindOrder(view, desk.w.plan.EntryId()) == Done(None) && FindHistorical(view, desk.w.plan.EntryId()) == Done(None)
        && PositionForTrade(desk.w.plan, view) == Done(0.0)
      ensures r.Done? && desk.w.trade.state != CANCELLED ==> desk.w == old(desk.w)
      ensures old(desk.w.trade.state) != RECEIVED && PlaceEntry in old(desk.w.effects) ==> r == Done(()) && desk.w == old(desk.w)
      ensures old(desk.w.trade.state) == RECEIVED && !r.Crashed? ==> TakenUp(desk.w.log, |old(desk.w.log)|, CANCELLED)
    {
      hide Inv, Advances, Quiet, Calm, FreshFrom, Evolves;
      Transitivity();
      Reflexivity(desk.w);
      RowFacts(desk.w);
      NothingSent(desk.w);
      JournalFacts(desk.w, PlaceEntry);
      var plan := desk.w.plan;
      if desk.w.trade.state == RECEIVED {
        ghost var start := desk.w.log;
        r := desk.Transition(desk.w.trade.(state := CANCELLED));
        if !r.Crashed? { TakenLast(start, desk.w.log, CANCELLED); }
        return;
      }
      if desk.w.trade.state != ENTRY_PENDING || PlaceEntry in desk.w.effects { return Done(()); }
      var open :- FindOrder(view, plan.EntryId());
      if open.Some? { return Raised; }
      var past :- FindHistorical(view, plan.EntryId());
      if past.Some? { return Raised; }
      var position :- PositionForTrade(plan, view);
      if position > 0.0 { return Raised; }
      r := desk.Transition(desk.w.trade.(state := CANCELLED));
    }

    /** `_reconcile_effect` for the entry placement. */
    method ReconcilePlacement(view: Snapshot) returns (r: Outcome<()>)
      requires Inv(desk.w) && PlaceEntry in desk.w.effects
      requires Faithful(desk.w.plan, view, desk.w.truth) && desk.w.truth.entry != InFlight
      modifies desk
      ensures Inv(desk.w) && Calm(old(desk.w), desk.w)
      ensures r.Done? ==>
        && PlaceEntry in desk.w.effects && desk.w.effects[PlaceEntry].status == RECONCILED
        && PlacementShown(desk.w.plan, view, desk.w.effects[PlaceEntry].payload)
      ensures SendsNothing(old(desk.w.log), desk.w.log)
    {
      hide Inv, Advances, Quiet, Calm, FreshFrom, Evolves, ValidateEntry, PositionQuantity, Faithful;
      Transitivity();
      Reflexivity(desk.w);
      var plan := desk.w.plan;
      var open :- FindOrder(view, plan.EntryId());
      var past :- FindHistorical(view, plan.EntryId());
      var quantity :- PositionQuantity(plan, view.positions);
      ListedRecordsAreOurs(plan, view, desk.w.truth);
      var payload := AbsentAndFlat;
      if open.Some? || past.Some? {
        var record := if open.Some? then open.value else past.value;
        var _ :- ValidateEntry(plan, record);
        payload := OrderPayload(record);
      } else if quantity > 0.0 {
        return Raised;
      }
      r := desk.Finish(PlaceEntry, RECONCILED, None, payload);
    }

    /** `_reconcile_effect` for a protective create: a listed order is adopted, and cleaned up when flat. */
    method ReconcileCreate(leg: Leg, view: Snapshot) returns (r: Outcome<()>)
      requires Inv(desk.w) && Create(leg) in desk.w.effects && Faithful(desk.w.plan, view, desk.w.truth)
      modifies desk
      ensures Inv(desk.w) && Calm(old(desk.w), desk.w)
      ensures r.Done? ==>
        && Indexed(desk.w.truth.Of(leg))
        && Create(leg) in desk.w.effects && Settled(desk.w.effects[Create(leg)].status)
      ensures r.Done? && PositionQuantity(desk.w.plan, view.positions) == Done(0.0) ==>
        Harmless(desk.w.truth.stop) && Harmless(desk.w.truth.target)
      ensures SendsOnlyCancels(old(desk.w.log), desk.w.log)
    {
      hide Inv, Advances, Quiet, Calm, FreshFrom, Evolves, PositionQuantity, Faithful, FindTpsl, PlannedTpsl, LegOk;
      Transitivity();
      EvolvesTransitivity();
      Reflexivity(desk.w);
      var plan := desk.w.plan;
      var found :- FindTpsl(plan, view, leg);
      var quantity :- PositionQuantity(plan, view.positions);
      if found == None { return Raised; }
      var record := found.value;
      if !ValidTpsl(plan, leg, record, quantity > 0.0, true) { return Raised; }
      ValidHasId(plan, leg, record, quantity > 0.0, true);
      SourcesAreOurs(desk.w, view, leg, found);
      ghost var before := desk.w.truth;
      var _ :- desk.Finish(Create(leg), RECONCILED, record.id, TpslPayload(record.id));
      EvolvesKeeps(before, desk.w.truth, leg);
      ghost var adopted := desk.w;
      if quantity <= 0.0 {
        var _ :- CancelRemaining(None);
        EvolvesKeeps(before, desk.w.truth, leg);
        OutcomeStays(adopted, desk.w, Create(leg));
      }
      return Done(());
    }

    /** `_reconcile_effect` for the two kinds of cancellation and the two kinds of close. */
    method ReconcileOther(id: EffectId, view: Snapshot) returns (r: Outcome<()>)
      requires Inv(desk.w) && id in desk.w.effects && id != PlaceEntry && !id.Create?
      requires id.CancelLeg? ==> Indexed(desk.w.truth.Of(id.cancelled))
      modifies desk
      ensures Inv(desk.w) && Quiet(old(desk.w), desk.w)
      ensures r.Done? ==>
        && id in desk.w.effects && desk.w.effects[id].status == RECONCILED
        && OutcomeShown(desk.w.plan, view, id, desk.w.effects[id].request)
      ensures SendsNothing(old(desk.w.log), desk.w.log)
    {
      hide Inv, Advances, Quiet, Calm, FreshFrom, Evolves, PositionQuantity;
      Transitivity();
      Reflexivity(desk.w);
      var plan := desk.w.plan;
      var payload := if id.ClosePosition? then PositionFlat else Inactive;
      match id {
        case CancelEntry =>
          var open :- FindOrder(view, plan.EntryId());
          if open.Some? { return Raised; }
        case CancelLeg(leg) =>
          var request := desk.w.effects[id].request;
          if !request.CancelRequest? { return Raised; }
          var found :- FindTpslById(view, Some(request.tpsl));
          if found.Some? && (LiveTpsl(found.value) || found.value.status == UNKNOWN_TPSL) { return Raised; }
        case ClosePosition(exit) =>
          var quantity :- PositionQuantity(plan, view.positions);
          if quantity > 0.0 { return Raised; }
        case _ =>
      }
      r := desk.Finish(id, RECONCILED, None, payload);
    }

    /** `_recover_effect_locked`, for a row whose grace has passed: it reads the venue and may cancel other
        orders, but never sends the recovered effect again. */
    method RecoverEffect(id: EffectId) returns (r: Outcome<()>)
      requires Inv(desk.w)
      modifies desk
      ensures Inv(desk.w) && Quiet(old(desk.w), desk.w)
      ensures SendsOnlyCancels(old(desk.w.log), desk.w.log) && (Sent(id) in desk.w.log ==> Sent(id) in old(desk.w.log))
      ensures r.Done? && id in desk.w.effects ==> Settled(desk.w.effects[id].status)
      ensures !r.Crashed? && id in old(desk.w.effects) && !Settled(old(desk.w.effects)[id].status) ==>
        ReadAt(desk.w.log, |old(desk.w.log)|)
    {
      hide Inv, Advances, Quiet, Calm, FreshFrom, Evolves, Faithful;
      Transitivity();
      Reflexivity(desk.w);
      if id !in desk.w.effects || Settled(desk.w.effects[id].status) { return Done(()); }
      desk.Grace(id);
      ghost var ripe := desk.w;
      var view :- desk.Fetch();
      EvolvesKeeps(ripe.truth, desk.w.truth, StopLeg);
      if desk.w.effects[id].status == FAILED { return Raised; }
      match id {
        case PlaceEntry =>
          r := ReconcilePlacement(view);
        case Create(leg) =>
          r := ReconcileCreate(leg, view);
        case CancelLeg(leg) =>
          LegFacts(ripe, leg);
          EvolvesKeeps(ripe.truth, desk.w.truth, leg);
          r := ReconcileOther(id, view);
        case _ =>
          r := ReconcileOther(id, view);
      }
    }

    /** `_reconcile_trade` when the position exceeds what was approved: close it, whatever the entry did. */
    method ReconcileExcess(view: Snapshot) returns (r: Outcome<()>)
      requires Inv(desk.w) && Sighted(desk.w, view)
      requires PositionForTrade(desk.w.plan, view).Done?
      requires PositionForTrade(desk.w.plan, view).value > desk.w.plan.quantity + desk.w.plan.Slack()
      modifies desk
      ensures Inv(desk.w) && Advances(old(desk.w), desk.w)
      ensures r.Done? ==> desk.w.trade.state == FLAT
      ensures !r.Crashed? ==> ExcessClosed(desk.w, old(desk.w.trade), |old(desk.w.log)|, r)
    {
      hide Inv, Advances, Quiet, Calm, FreshFrom, Evolves, Sighted, PositionForTrade, FillShown, EmergencyFrom;
      Transitivity();
      Reflexivity(desk.w);
      SightedFacts(desk.w, view);
      RowFacts(desk.w);
      if desk.w.trade.state == ENTRY_PENDING {
        SightedCounts(desk.w, view);
        ReadShowsFill(desk.w.plan, desk.w.log, view, desk.w.plan.quantity);
        var _ :- FirstFill(desk.w.plan.quantity, desk.w.plan.eligibleAt);
      }
      if desk.w.trade.state !in {PROTECTING, ACTIVE} { return Raised; }
      r := EmergencyClose(desk.w.trade.state);
    }

    /** A pending entry with an open position: adopt the fill and protect it. */
    method AdoptFill(view: Snapshot, position: real, stamps: seq<int>, now: int) returns (r: Outcome<()>)
      requires Inv(desk.w) && desk.w.trade.state == ENTRY_PENDING && Sighted(desk.w, view)
      requires PositionForTrade(desk.w.plan, view) == Done(position) && position > 0.0 && Clocked(now) in desk.w.log
      modifies desk
      ensures Inv(desk.w) && Advances(old(desk.w), desk.w)
      ensures r.Done? ==> desk.w.trade.state in {ACTIVE, FLAT} && FillDated(desk.w.plan, desk.w.trade, now)
      ensures !r.Crashed? ==> Adopted(desk.w, old(desk.w.trade), view, |old(desk.w.log)|, stamps, now, r)
    {
      hide Inv, Advances, Quiet, Calm, FreshFrom, Evolves, Sighted, PositionForTrade, FillSource, FillShown, DateShown,
        ProtectionFrom, ResponseTime;
      Transitivity();
      Reflexivity(desk.w);
      var plan := desk.w.plan;
      var _ :- FillSource(plan, view);
      SightedFacts(desk.w, view);
      var at :- ResponseTime(stamps, plan.eligibleAt, now, plan.eligibleAt);
      ReadingDates(plan, desk.w.log, stamps, plan.eligibleAt, now);
      SightedCounts(desk.w, view);
      ReadShowsFill(plan, desk.w.log, view, position);
      r := ProtectFill(position, at);
    }

    /** A pending entry that is neither open nor in the position: only terminal proof cancels the trade. */
    method CancelUnfilled(view: Snapshot) returns (r: Outcome<()>)
      requires Inv(desk.w) && desk.w.trade.state == ENTRY_PENDING && Sighted(desk.w, view)
      modifies desk
      ensures Inv(desk.w) && Advances(old(desk.w), desk.w)
      ensures r.Done? ==> desk.w.trade.state in {ENTRY_PENDING, CANCELLED}
      ensures r.Done? && desk.w.trade.state == CANCELLED ==> desk.w.truth.entry in {Unsent, Closed}
      ensures !r.Crashed? ==> UnfilledDecided(desk.w, view, |old(desk.w.log)|, r)
    {
      hide Inv, Advances, Quiet, Calm, FreshFrom, Evolves, ValidateEntry, UnfilledShown, FillShown, EntryShown, TakenUp, LastOutcome,
        FindHistorical;
      Transitivity();
      Reflexivity(desk.w);
      RowFacts(desk.w);
      var plan := desk.w.plan;
      ghost var start := desk.w.log;
      PlacementOutcome(desk.w);
      assert forall log :: start <= log ==> log[..|start|] == start;
      if PlaceEntry in desk.w.effects && desk.w.effects[PlaceEntry].payload == Some(AbsentAndFlat) {
        AbsentMeansOver(desk.w);
        JournalAnswers(desk.w);
        r := desk.Transition(desk.w.trade.(state := CANCELLED));
        if !r.Crashed? { TakenLast(start, desk.w.log, CANCELLED); }
        CancelledFacts(desk.w);
        return;
      }
      var past :- FindHistorical(view, plan.EntryId());
      if past == None { return Done(()); }
      var ack :- ValidateEntry(plan, past.value);
      ValidatedStatus(plan, past.value);
      if ack.filled > 0.0 || !TerminalOrder(ack.status) { return Raised; }
      ReadShowsEntry(plan, desk.w.log, view, past.value);
      EntryDecides(plan, desk.w.log, past.value);
      r := desk.Transition(desk.w.trade.(state := CANCELLED));
      if !r.Crashed? { TakenLast(start, desk.w.log, CANCELLED); }
      CancelledFacts(desk.w);
    }

    /** `_reconcile_trade` for ENTRY_PENDING. */
    method ReconcilePending(view: Snapshot, events: seq<TpslRecord>, now: int) returns (r: Outcome<()>)
      requires Inv(desk.w) && desk.w.trade.state == ENTRY_PENDING && Sighted(desk.w, view)
      requires EventsSettled(desk.w.trade, events, desk.w.truth)
      requires PositionForTrade(desk.w.plan, view).Done? && FindOrder(view, desk.w.plan.EntryId()).Done?
      requires Clocked(now) in desk.w.log
      modifies desk
      ensures Inv(desk.w) && Advances(old(desk.w), desk.w)
      ensures r.Done? ==> desk.w.trade.state in {ENTRY_PENDING, ACTIVE, FLAT, CANCELLED}
      ensures r.Done? && PositionForTrade(old(desk.w.plan), view).value > 0.0 ==> desk.w.trade.state in {ACTIVE, FLAT}
      ensures !r.Crashed? && PositionForTrade(desk.w.plan, view) == Done(0.0) ==>
        PendingKept(desk.w, view, |old(desk.w.log)|, now, r)
      ensures PositionForTrade(desk.w.plan, view).value > 0.0 && !r.Crashed? ==>
        FirstFillAdopted(desk.w, old(desk.w.trade), view, |old(desk.w.log)|, now, r)
      decreases if FindOrder(view, desk.w.plan.EntryId()) == Done(None) then 0 else 1, 0
    {
      hide Inv, Advances, Quiet, Calm, FreshFrom, Evolves, Sighted, EventsSettled, PositionForTrade, PositionQuantity, Adopted;
      Transitivity();
      Reflexivity(desk.w);
      var plan := desk.w.plan;
      var position := PositionForTrade(plan, view).value;
      if position > 0.0 {
        var stamps: seq<int> := *;
        r := AdoptFill(view, position, stamps, now);
        if !r.Crashed? { AdoptedFirst(desk.w, old(desk.w.trade), view, |old(desk.w.log)|, stamps, now, r); }
        return;
      }
      var open := FindOrder(view, plan.EntryId()).value;
      if open == None {
        r := CancelUnfilled(view);
        return;
      }
      if now < plan.expiresAt { return Done(()); }
      ghost var before := desk.w;
      var later :- CancelListedEntry();
      SettledStays(before, desk.w, events);
      var quantity :- PositionQuantity(plan, later.positions);
      if quantity > 0.0 {
        r := ReconcileTrade(later, events);
      } else {
        r := CancelUnfilled(later);
      }
    }

    /** `_reconcile_trade` when the account is flat: the exit must be attributed to a fired protection. */
    method ReconcileGone(view: Snapshot, events: seq<TpslRecord>) returns (r: Outcome<()>)
      requires Inv(desk.w) && desk.w.trade.state in {PROTECTING, ACTIVE} && Sighted(desk.w, view)
      requires EventsSettled(desk.w.trade, events, desk.w.truth) && PositionForTrade(desk.w.plan, view) == Done(0.0)
      modifies desk
      ensures Inv(desk.w) && Advances(old(desk.w), desk.w)
      ensures r.Done? ==> desk.w.trade.state == FLAT
      ensures !r.Crashed? ==> ExitAttributed(desk.w, old(desk.w.trade), view, events, |old(desk.w.log)|, r.Raised?)
    {
      hide Inv, Advances, Quiet, Calm, FreshFrom, Evolves, Sighted, EventsSettled, PositionForTrade, ExitFillSeen,
        ProvenTrigger;
      Transitivity();
      var trigger :- TransitionVenueExit(view, events);
      ghost var exiting := desk.w.log;
      r := FinishTriggered(trigger.leg);
      assert forall k :: 0 <= k < |exiting| ==> desk.w.log[k] == exiting[k];
    }

    /** The first half of `_reconcile_trade` for ACTIVE: record late fills and cancel an expired remainder. */
    method RefreshActive(view: Snapshot, events: seq<TpslRecord>, now: int) returns (r: Outcome<Snapshot>)
      requires Inv(desk.w) && desk.w.trade.state == ACTIVE && Sighted(desk.w, view)
      requires EventsSettled(desk.w.trade, events, desk.w.truth)
      modifies desk
      ensures Inv(desk.w) && Advances(old(desk.w), desk.w)
      ensures r.Done? ==>
        && desk.w.trade.state == ACTIVE && EventsSettled(desk.w.trade, events, desk.w.truth)
        && PositionForTrade(desk.w.plan, r.value).Done?
        && (PositionForTrade(desk.w.plan, r.value) == Done(0.0) ==> Sighted(desk.w, r.value))
        && (now >= desk.w.plan.expiresAt ==> FindOrder(r.value, desk.w.plan.EntryId()) == Done(None))
      ensures old(desk.w.log) <= desk.w.log
      ensures r.Done? && FindOrder(view, desk.w.plan.EntryId()) == Done(None) ==> r.value == view
      ensures r.Raised? && FindOrder(view, desk.w.plan.EntryId()) == Done(None)
              && FillReadable(desk.w.plan, old(desk.w.trade), view) ==>
        MoveFaulted(desk.w.log, |old(desk.w.log)|)
      ensures r.Done? ==> desk.w.trade == old(desk.w.trade).(filled := desk.w.trade.filled)
      ensures now < desk.w.plan.expiresAt ==> NoReads(desk.w.log, |old(desk.w.log)|, |desk.w.log|)
      ensures GoneBeside(desk.w.plan, old(desk.w.trade), view) ==> r == Done(view) && desk.w == old(desk.w)
    {
      hide Inv, Advances, Quiet, Calm, FreshFrom, Evolves, Sighted, EventsSettled, PositionForTrade;
      Transitivity();
      Reflexivity(desk.w);
      var plan := desk.w.plan;
      var position :- PositionForTrade(plan, view);
      var open :- FindOrder(view, plan.EntryId());
      ghost var before := desk.w;
      SightedCounts(desk.w, view);
      if position > 0.0 {
        var _ :- RecordCumulativeFill(view, position);
        SameIdsSettled(before, desk.w, events);
      }
      if open == None || now < plan.expiresAt { return Done(view); }
      before := desk.w;
      var later :- CancelListedEntry();
      SettledStays(before, desk.w, events);
      position :- PositionForTrade(plan, later);
      SightedCounts(desk.w, later);
      if position > 0.0 {
        before := desk.w;
        var _ :- RecordCumulativeFill(later, position);
        SameIdsSettled(before, desk.w, events);
      }
      return Done(later);
    }

    /** `_reconcile_trade` for ACTIVE: the trade stays ACTIVE only behind a stop and a target both listed live. */
    method ReconcileActive(view: Snapshot, events: seq<TpslRecord>, now: int) returns (r: Outcome<Option<Snapshot>>)
      requires Inv(desk.w) && desk.w.trade.state == ACTIVE && Sighted(desk.w, view)
      requires EventsSettled(desk.w.trade, events, desk.w.truth) && Clocked(now) in desk.w.log
      modifies desk
      ensures Inv(desk.w) && Advances(old(desk.w), desk.w)
      ensures HoldsBehind(desk.w.plan, old(desk.w.trade), view) && !r.Crashed? ==>
        && old(desk.w.trade.firstFill).Some?
        && if now < old(desk.w.trade.firstFill).value + desk.w.plan.maxHolding
           then r == Done(Some(view)) || MoveFaulted(desk.w.log, |old(desk.w.log)|)
           else TimedOut(desk.w, |old(desk.w.log)|)
      ensures !r.Crashed? && GoneBeside(desk.w.plan, old(desk.w.trade), view) ==>
        ExitAttributed(desk.w, old(desk.w.trade), view, events, |old(desk.w.log)|, r.Raised?)
      ensures r.Done? && r.value == None ==> desk.w.trade.state == FLAT
      ensures r.Done? && r.value.Some? ==>
        && desk.w.trade.state == ACTIVE
        && LegShownLive(desk.w.plan, desk.w.trade, r.value.value, StopLeg)
        && LegShownLive(desk.w.plan, desk.w.trade, r.value.value, TargetLeg)
        && desk.w.trade.firstFill.Some? && now < desk.w.trade.firstFill.value + desk.w.plan.maxHolding
    {
      hide Inv, Advances, Quiet, Calm, FreshFrom, Evolves, Sighted, EventsSettled, PositionForTrade, PlannedTpsl;
      Transitivity();
      RowFacts(desk.w);
      var plan := desk.w.plan;
      var current :- RefreshActive(view, events, now);
      var position := PositionForTrade(plan, current).value;
      if position <= 0.0 {
        var _ :- ReconcileGone(current, events);
        return Done(None);
      }
      var trade := desk.w.trade;
      RowFacts(desk.w);
      var stop :- FindTpslById(current, trade.stopId);
      if stop == None || !ValidTpsl(plan, StopLeg, stop.value, true, false) { return Raised; }
      var target :- FindTpslById(current, trade.targetId);
      if target == None || !ValidTpsl(plan, TargetLeg, target.value, true, false) { return Raised; }
      if now >= trade.firstFill.value + plan.maxHolding {
        var _ :- TimeoutClose();
        return Done(None);
      }
      return Done(Some(current));
    }

    /** `_reconcile_trade` for the four exiting states. */
    method ReconcileExiting(view: Snapshot, events: seq<TpslRecord>) returns (r: Outcome<()>)
      requires Inv(desk.w) && (TriggerExiting(desk.w.trade.state) || ManualExiting(desk.w.trade.state))
      requires Sighted(desk.w, view) && EventsSettled(desk.w.trade, events, desk.w.truth)
      modifies desk
      ensures Inv(desk.w) && Advances(old(desk.w), desk.w)
      ensures r.Done? && desk.w.trade.state != FLAT ==>
        TriggerExiting(old(desk.w.trade.state)) && desk.w == old(desk.w)
        && PositionForTrade(desk.w.plan, view).Done? && PositionForTrade(desk.w.plan, view).value > 0.0
      ensures r.Done? && ManualExiting(old(desk.w.trade.state)) && PositionForTrade(old(desk.w.plan), view) == Done(0.0) ==>
        ClosePosition(ExitOf(old(desk.w.trade.state))) in old(desk.w.effects)
      ensures !r.Crashed? && PositionForTrade(desk.w.plan, view).Done? ==>
        ExitContinued(desk.w, old(desk.w.trade), view, |old(desk.w.log)|, r)
    {
      hide Inv, Advances, Quiet, Calm, FreshFrom, Evolves, Sighted, EventsSettled, PositionForTrade, ZeroSeen,
        ExitResumed, WasPrepared;
      Transitivity();
      Reflexivity(desk.w);
      var position :- PositionForTrade(desk.w.plan, view);
      var state := desk.w.trade.state;
      ghost var start := desk.w.log;
      JournalFacts(desk.w, ClosePosition(ExitOf(state)));
      assert forall log :: start <= log ==> log[..|start|] == start;
      SightedFacts(desk.w, view);
      if TriggerExiting(state) {
        if position > 0.0 { return Done(()); }
        r := ResumeTriggered(if state == EXITING_STOP then StopLeg else TargetLeg, events);
      } else if position <= 0.0 {
        r := FinishManualExit(ExitOf(state), None);
      } else {
        r := ResumeCloseExit(ExitOf(state));
      }
    }

    /** `_reconcile_trade`: converge one trade from an account read. */
    method ReconcileTrade(view: Snapshot, events: seq<TpslRecord>) returns (r: Outcome<()>)
      requires Inv(desk.w) && Sighted(desk.w, view) && EventsSettled(desk.w.trade, events, desk.w.truth)
      modifies desk
      ensures Inv(desk.w) && Advances(old(desk.w), desk.w)
      ensures r.Done? ==> Converged(desk.w.trade.state)
      ensures r.Done? && old(desk.w.trade.state) in {RECEIVED, ENTRY_PENDING} ==>
        desk.w.trade.state in {ENTRY_PENDING, ACTIVE, FLAT, CANCELLED}
      ensures r.Done? && old(desk.w.trade.state) in {ENTRY_PENDING, PROTECTING} && desk.w.trade.state != CANCELLED
              && PositionForTrade(old(desk.w.plan), view).Done? && PositionForTrade(old(desk.w.plan), view).value > 0.0 ==>
        desk.w.trade.state in {ACTIVE, FLAT}
      ensures r.Done? && ManualExiting(old(desk.w.trade.state)) && PositionForTrade(old(desk.w.plan), view) == Done(0.0) ==>
        ClosePosition(ExitOf(old(desk.w.trade.state))) in old(desk.w.effects)
      ensures !r.Crashed? ==> HoldingAnswered(desk.w, old(desk.w.trade), view, |old(desk.w.log)|, r)
      ensures !r.Crashed? && GoneBeside(desk.w.plan, old(desk.w.trade), view) ==>
        ExitAttributed(desk.w, old(desk.w.trade), view, events, |old(desk.w.log)| + 1, r.Raised?)
      decreases if FindOrder(view, desk.w.plan.EntryId()) == Done(None) then 0 else 1, 3
    {
      hide Inv, Advances, Quiet, Calm, FreshFrom, Evolves, Sighted, EventsSettled, PositionForTrade, HoldingAnswered,
        EntryReadable, WasPrepared, FindOrder, FindHistorical, ExitAttributed;
      Transitivity();
      Reflexivity(desk.w);
      var plan := desk.w.plan;
      ghost var n, before := |desk.w.log|, desk.w;
      var now := desk.Clock();
      SightedStays(before, desk.w, view);
      SettledStays(before, desk.w, events);
      assert desk.w.log[..n] == before.log;
      ghost var owed := EntryReadable(plan, view) && PositionForTrade(plan, view).Done? && MayHold(before.log, before.trade);
      if !owed { NothingOwed(desk.w, before.trade, view, n); }
      ReadableEntry(plan, view);
      var position :- PositionForTrade(plan, view);
      var open :- FindOrder(view, plan.EntryId());
      ghost var read := desk.w;
      if desk.w.trade.state in {RECEIVED, ENTRY_PENDING} {
        JournalFacts(before, PlaceEntry);
        r := RecoverPreMutationGap(view);
        assert desk.w.log[..n] == before.log;
        if !owed { NothingOwed(desk.w, before.trade, view, n); }
        if r.IsFailure() || desk.w.trade.state == CANCELLED { return; }
        SightedStays(read, desk.w, view);
        SettledStays(read, desk.w, events);
      }
      r := ReconcilePosition(view, events, now, position);
    }

    /** What `_reconcile_trade` does once the position is read: the open entry order must be valid, and more than was
        approved is closed whatever the state. */
    method ReconcilePosition(view: Snapshot, events: seq<TpslRecord>, now: int, position: real) returns (r: Outcome<()>)
      requires Inv(desk.w) && Sighted(desk.w, view) && EventsSettled(desk.w.trade, events, desk.w.truth)
      requires PositionForTrade(desk.w.plan, view) == Done(position) && FindOrder(view, desk.w.plan.EntryId()).Done?
      requires desk.w.trade.state != RECEIVED && |desk.w.log| > 0 && desk.w.log[|desk.w.log| - 1] == Clocked(now)
      modifies desk
      ensures Inv(desk.w) && Advances(old(desk.w), desk.w)
      ensures r.Done? ==> Converged(desk.w.trade.state)
      ensures r.Done? && old(desk.w.trade.state) == ENTRY_PENDING ==>
        desk.w.trade.state in {ENTRY_PENDING, ACTIVE, FLAT, CANCELLED}
      ensures r.Done? && old(desk.w.trade.state) in {ENTRY_PENDING, PROTECTING} && desk.w.trade.state != CANCELLED
              && position > 0.0 ==>
        desk.w.trade.state in {ACTIVE, FLAT}
      ensures r.Done? && ManualExiting(old(desk.w.trade.state)) && position == 0.0 ==>
        ClosePosition(ExitOf(old(desk.w.trade.state))) in old(desk.w.effects)
      ensures !r.Crashed? ==> HoldingAnswered(desk.w, old(desk.w.trade), view, |old(desk.w.log)| - 1, r)
      ensures !r.Crashed? && GoneBeside(desk.w.plan, old(desk.w.trade), view) ==>
        ExitAttributed(desk.w, old(desk.w.trade), view, events, |old(desk.w.log)|, r.Raised?)
      decreases if FindOrder(view, desk.w.plan.EntryId()) == Done(None) then 0 else 1, 2
    {
      hide Inv, Advances, Quiet, Calm, FreshFrom, Evolves, Sighted, EventsSettled, PositionForTrade, ValidateEntry,
        HoldingAnswered, ExcessClosed, EntryReadable, MayHold, ExitAttributed;
      Transitivity();
      Reflexivity(desk.w);
      var plan := desk.w.plan;
      ghost var n, row := |desk.w.log| - 1, desk.w.trade;
      RowFacts(desk.w);
      var open := FindOrder(view, plan.EntryId()).value;
      if open.Some? && !ValidateEntry(plan, open.value).Done? {
        ReadableEntry(plan, view);
        NothingOwed(desk.w, row, view, n);
        return Raised;
      }
      if position > plan.quantity + plan.Slack() {
        r := ReconcileExcess(view);
        if !r.Crashed? { ExcessAnswered(desk.w, row, view, n, r); }
        return;
      }
      r := ReconcileState(view, events, now, position);
    }

    /** What `_reconcile_trade` does in each state, when the position is within the approval. */
    method ReconcileState(view: Snapshot, events: seq<TpslRecord>, now: int, position: real) returns (r: Outcome<()>)
      requires Inv(desk.w) && Sighted(desk.w, view) && EventsSettled(desk.w.trade, events, desk.w.truth)
      requires PositionForTrade(desk.w.plan, view) == Done(position) && position <= desk.w.plan.quantity + desk.w.plan.Slack()
      requires FindOrder(view, desk.w.plan.EntryId()).Done? && desk.w.trade.state != RECEIVED
      requires |desk.w.log| > 0 && desk.w.log[|desk.w.log| - 1] == Clocked(now)
      modifies desk
      ensures Inv(desk.w) && Advances(old(desk.w), desk.w)
      ensures r.Done? ==> Converged(desk.w.trade.state)
      ensures r.Done? && old(desk.w.trade.state) == ENTRY_PENDING ==>
        desk.w.trade.state in {ENTRY_PENDING, ACTIVE, FLAT, CANCELLED}
      ensures r.Done? && old(desk.w.trade.state) in {ENTRY_PENDING, PROTECTING} && desk.w.trade.state != CANCELLED
              && position > 0.0 ==>
        desk.w.trade.state in {ACTIVE, FLAT}
      ensures r.Done? && ManualExiting(old(desk.w.trade.state)) && position == 0.0 ==>
        ClosePosition(ExitOf(old(desk.w.trade.state))) in old(desk.w.effects)
      ensures !r.Crashed? ==> HoldingAnswered(desk.w, old(desk.w.trade), view, |old(desk.w.log)| - 1, r)
      ensures !r.Crashed? && GoneBeside(desk.w.plan, old(desk.w.trade), view) ==>
        ExitAttributed(desk.w, old(desk.w.trade), view, events, |old(desk.w.log)|, r.Raised?)
      decreases if FindOrder(view, desk.w.plan.EntryId()) == Done(None) then 0 else 1, 1
    {
      hide Inv, Advances, Quiet, Calm, FreshFrom, Evolves, Sighted, EventsSettled, PositionForTrade, EntryReadable,
        Adopted, ProtectionFrom, FillReadable, HoldsBehind, ExitAttributed, FindOrder;
      Transitivity();
      Reflexivity(desk.w);
      ghost var n, row, log := |desk.w.log| - 1, desk.w.trade, desk.w.log;
      match desk.w.trade.state {
        case ENTRY_PENDING =>
          r := ReconcilePending(view, events, now);
          assert desk.w.log[n] == log[n];
        case PROTECTING =>
          if position <= 0.0 {
            r := ReconcileGone(view, events);
            assert desk.w.log[n] == log[n];
          } else {
            r := ResumeProtection(view, position);
            assert desk.w.log[n] == log[n];
          }
        case ACTIVE =>
          var active := ReconcileActive(view, events, now);
          assert desk.w.log[n] == log[n];
          r := if active.Done? then Done(()) else active.PropagateFailure();
        case EXITING_STOP => r := ReconcileExiting(view, events);
        case EXITING_TARGET => r := ReconcileExiting(view, events);
        case EXITING_TIMEOUT => r := ReconcileExiting(view, events);
        case EXITING_EMERGENCY => r := ReconcileExiting(view, events);
        case FAILED_BLOCKED => return Raised;
        case _ => return Done(());
      }
      assert desk.w.log[n] == log[n];
    }

    /** A fill that is not protected yet: recorded as far as it has come, and protected. */
    method ResumeProtection(view: Snapshot, position: real) returns (r: Outcome<()>)
      requires Inv(desk.w) && desk.w.trade.state == PROTECTING && Sighted(desk.w, view)
      requires PositionForTrade(desk.w.plan, view) == Done(position)
      modifies desk
      ensures Inv(desk.w) && Advances(old(desk.w), desk.w)
      ensures r.Done? ==> desk.w.trade.state in {ACTIVE, FLAT}
      ensures !r.Crashed? && FillReadable(desk.w.plan, old(desk.w.trade), view) ==>
        MoveFaulted(desk.w.log, |old(desk.w.log)|) || exists m :: |old(desk.w.log)| <= m && ProtectionFrom(desk.w, m, r)
    {
      hide Inv, Advances, Quiet, Calm, FreshFrom, Evolves, Sighted, PositionForTrade, ProtectionFrom, FillReadable;
      Transitivity();
      SightedCounts(desk.w, view);
      var _ :- RecordCumulativeFill(view, position);
      r := Protect();
    }

    // ---------------------------------------------------------- whole runs

    /** The reads that precede `_reconcile_trade`: the account, then the event stream. */
    method ReadAndReconcile(earlier: seq<TpslRecord>) returns (r: Outcome<()>)
      requires Inv(desk.w) && EventsSettled(desk.w.trade, earlier, desk.w.truth)
      modifies desk
      ensures Inv(desk.w) && Advances(old(desk.w), desk.w)
      ensures r.Done? ==> Converged(desk.w.trade.state)
      ensures !r.Crashed? ==>
        || PassMade(desk.w, old(desk.w.trade), |old(desk.w.log)|, r)
        || (r.Raised? && |desk.w.log| > 0 && desk.w.log[|desk.w.log| - 1] in {Faulted(Reading), Faulted(Streaming)})
    {
      hide Inv, Advances, Quiet, Calm, FreshFrom, Evolves, Faithful, Sighted, EventsSettled, EventsFaithful,
        HoldingAnswered, PassMade;
      Transitivity();
      ghost var from, row := |desk.w.log|, desk.w.trade;
      desk.Begin();
      ghost var start := desk.w;
      var view :- desk.Fetch();
      JustSighted(start.log, desk.w, view);
      ghost var read := desk.w;
      var events :- desk.Drain();
      DrainSettles(desk.w, events);
      SightedStays(read, desk.w, view);
      SettledStays(start, desk.w, earlier);
      SettledTogether(desk.w.trade, earlier, events, desk.w.truth);
      ghost var n := |desk.w.log|;
      assert desk.w.log[|start.log|] == Observed(view);
      r := ReconcileTrade(view, earlier + events);
      assert desk.w.log[from..n][|start.log| - from] == Observed(view);
      if !r.Crashed? { PassIsMade(desk.w, row, from, n, view, r); }
    }

    /** Recover every due row; the first failure ends the pass. */
    method RecoverEffects(eligible: seq<EffectId>) returns (r: Outcome<()>)
      requires Inv(desk.w)
      modifies desk
      ensures Inv(desk.w) && Quiet(old(desk.w), desk.w)
      ensures SendsOnlyCancels(old(desk.w.log), desk.w.log)
      ensures r.Done? ==>
        forall id :: id in eligible && id in old(desk.w.effects) ==>
          id in desk.w.effects && Settled(desk.w.effects[id].status)
    {
      hide Inv, Advances, Quiet, Calm, FreshFrom;
      Transitivity();
      Reflexivity(desk.w);
      for i := 0 to |eligible|
        invariant Inv(desk.w) && Quiet(old(desk.w), desk.w)
        invariant SendsOnlyCancels(old(desk.w.log), desk.w.log)
        invariant forall k :: 0 <= k < i && eligible[k] in old(desk.w.effects) ==>
                    eligible[k] in desk.w.effects && Settled(desk.w.effects[eligible[k]].status)
      {
        ghost var before := desk.w;
        if eligible[i] in old(desk.w.effects) { OutcomeStays(old(desk.w), desk.w, eligible[i]); }
        var _ :- RecoverEffect(eligible[i]);
        forall k | 0 <= k <= i && eligible[k] in old(desk.w.effects)
          ensures eligible[k] in desk.w.effects && Settled(desk.w.effects[eligible[k]].status)
        {
          OutcomeStays(before, desk.w, eligible[k]);
        }
      }
      return Done(());
    }

    /** `_reconcile_redelivery_locked`: a decision seen before never repeats a venue call. */
    method ReconcileRedelivery(eligible: seq<EffectId>) returns (r: Outcome<()>)
      requires Inv(desk.w)
      modifies desk
      ensures Inv(desk.w) && Advances(old(desk.w), desk.w)
      ensures r.Done? ==> Converged(desk.w.trade.state)
      ensures r.Done? ==>
        desk.w.trade.state in {FLAT, CANCELLED} || PassMade(desk.w, old(desk.w.trade), |old(desk.w.log)|, r)
    {
      hide Inv, Advances, Quiet, Calm, FreshFrom, Evolves, PassMade;
      Transitivity();
      Reflexivity(desk.w);
      ghost var row := desk.w.trade;
      var _ :- desk.Await();
      var view :- desk.Fetch();
      if desk.w.trade.state in {FLAT, CANCELLED} { return Done(()); }
      var _ :- RecoverPreMutationGap(view);
      if desk.w.trade.state in {FLAT, CANCELLED} { return Done(()); }
      var _ :- RecoverEffects(eligible);
      if Unripe(desk.w.effects, eligible) { return Raised; }
      NoEventsSettled(desk.w);
      ghost var from := |desk.w.log|;
      r := ReadAndReconcile([]);
      if r.Done? { PassSince(desk.w, row, from, r); }
    }

    /** The bounded wait of `_handle_once` for a decision that is not yet eligible. Only the last reading decides. */
    method AwaitEligibility() returns (r: Outcome<int>)
      requires Inv(desk.w)
      modifies desk
      ensures Inv(desk.w) && Calm(old(desk.w), desk.w) && Evolves(old(desk.w.truth), desk.w.truth)
      ensures desk.w == old(desk.w).(truth := desk.w.truth, log := desk.w.log)
      ensures |old(desk.w.log)| < |desk.w.log| <= |old(desk.w.log)| + 2
      ensures forall k :: |old(desk.w.log)| <= k < |desk.w.log| ==> desk.w.log[k].Clocked?
      ensures r == if desk.w.log[|desk.w.log| - 1].now < desk.w.plan.eligibleAt then Raised
                   else Done(desk.w.log[|desk.w.log| - 1].now)
    {
      hide Inv, Advances, Quiet, Calm, FreshFrom, Evolves;
      Transitivity();
      Reflexivity(desk.w);
      EvolvesTransitivity();
      var now := desk.Clock();
      if now < desk.w.plan.eligibleAt && desk.w.plan.eligibleAt - now <= MAX_ELIGIBILITY_WAIT {
        desk.Drift();
        now := desk.Clock();
      }
      if now < desk.w.plan.eligibleAt { return Raised; }
      return Done(now);
    }

    /** `handle`: admit the decision, create or find its trade, and submit it once. Behind a closed gate nothing
        happens at all. `admitted` is the clock reading on which a new trade was submitted. */
    method Handle(eligible: seq<EffectId>)
      returns (r: Outcome<()>, ghost admitted: Option<int>, ambiguous: bool, revoked: Outcome<()>)
      requires Inv(desk.w) && gate.Valid()
      modifies desk, gate
      ensures Inv(desk.w) && Advances(old(desk.w), desk.w) && gate.Valid()
      ensures r.Done? ==> Converged(desk.w.trade.state)
      ensures !old(gate.Open()) ==> r.IsFailure() && desk.w == old(desk.w) && !ambiguous
      ensures old(desk.w.trade.state) == RECEIVED && Sent(PlaceEntry) in desk.w.log ==>
        && old(gate.Open()) && admitted.Some?
        && desk.w.plan.eligibleAt <= admitted.value <= desk.w.plan.expiresAt
      ensures old(desk.w.trade.state) == RECEIVED && Unanswered(desk.w) && !r.Crashed? ==> ambiguous
      ensures RevokedIf(ambiguous, revoked, r, gate.Closed())
      ensures old(desk.w.trade.state) == RECEIVED ==>
        if admitted.Some? then NewTradeAnswered(desk.w, admitted.value, ambiguous, revoked, r) else r.IsFailure()
      ensures old(desk.w.trade.state) != RECEIVED && r.Done? ==>
        desk.w.trade.state in {FLAT, CANCELLED} || PassMade(desk.w, old(desk.w.trade), |old(desk.w.log)|, r)
      ensures !ambiguous ==> gate.blockers == old(gate.blockers) && gate.allowed == old(gate.allowed)
    {
      hide Inv, Advances, Quiet, Calm, FreshFrom, Evolves, NewTradeAnswered, PassMade;
      Transitivity();
      Reflexivity(desk.w);
      admitted, ambiguous, revoked := None, false, Done(());
      NothingSent(desk.w);
      JournalFacts(desk.w, PlaceEntry);
      if !gate.Open() {
        var lost: bool := *;
        r := if lost then Crashed else Raised;
        return;
      }
      var now := AwaitEligibility();
      ghost var read := desk.w.log;
      if now.IsFailure() {
        r := now.PropagateFailure();
        return;
      }
      r := desk.Await();
      if r.IsFailure() { return; }
      if desk.w.trade.state != RECEIVED {
        ghost var from, row := |desk.w.log|, desk.w.trade;
        r := ReconcileRedelivery(eligible);
        if r.Done? && desk.w.trade.state !in {FLAT, CANCELLED} { PassSince(desk.w, row, from, r); }
        return;
      }
      admitted := Some(now.value);
      WindowStays(desk.w.plan, read, desk.w.log);
      r, ambiguous, revoked := SubmitNewTrade(now.value);
    }

    /** `_reconcile_once_unlocked` for this trade: nothing is reconciled beside an effect without outcome. Done(false)
        is the early return of a process that has not recovered, or whose account is closed to entries. */
    method ReconcileUnlocked() returns (r: Outcome<bool>)
      requires Inv(desk.w) && gate.Valid()
      modifies desk, gate`blockers
      ensures Inv(desk.w) && Advances(old(desk.w), desk.w) && gate.Valid()
      ensures r == Done(true) ==> Converged(desk.w.trade.state) && old(gate.Open())
      ensures r == Done(true) ==>
        desk.w.trade.state in {FLAT, CANCELLED} || PassMade(desk.w, old(desk.w.trade), |old(desk.w.log)|, Done(()))
      ensures r == Done(false) <==> !old(gate.Open())
      ensures r == Done(false) ==> desk.w == old(desk.w) && gate.blockers != []
      ensures r != Done(false) ==> gate.blockers == old(gate.blockers)
    {
      hide Inv, Advances, Quiet, Calm, FreshFrom, Evolves, EventsSettled, EventsFaithful, PassMade;
      Transitivity();
      Reflexivity(desk.w);
      if gate.blockers != [] { return Done(false); }
      if !gate.allowed {
        gate.blockers := [Account.RecoveryFailed];
        return Done(false);
      }
      var _ :- desk.Await();
      var events :- desk.Drain();
      DrainSettles(desk.w, events);
      if desk.w.trade.state in {FLAT, CANCELLED} { return Done(true); }
      if Unripe(desk.w.effects, []) { return Raised; }
      ghost var from, row := |desk.w.log|, desk.w.trade;
      var _ :- ReadAndReconcile(events);
      PassSince(desk.w, row, from, Done(()));
      return Done(true);
    }

    /** `reconcile_once`: an exception closes the account, unless the revocation itself fails. */
    method ReconcileOnce() returns (r: Outcome<bool>, revoked: Outcome<()>)
      requires Inv(desk.w) && gate.Valid()
      modifies desk, gate
      ensures Inv(desk.w) && Advances(old(desk.w), desk.w) && gate.Valid()
      ensures r == Done(true) ==> Converged(desk.w.trade.state) && old(gate.Open())
      ensures r == Done(true) ==>
        desk.w.trade.state in {FLAT, CANCELLED} || PassMade(desk.w, old(desk.w.trade), |old(desk.w.log)|, Done(()))
      ensures r == Done(false) ==> desk.w == old(desk.w) && !old(gate.Open()) && !gate.Open()
      ensures r.Raised? && revoked.Done? ==> gate.Closed()
      ensures old(gate.blockers) != [] ==> gate.blockers != []
    {
      hide Inv, Advances, Quiet, Calm, PassMade;
      revoked := Done(());
      r := ReconcileUnlocked();
      if r.Raised? {
        revoked := gate.Block();
        if revoked.Crashed? { r := Crashed; }
      }
    }

    /** The last read of a recovery pass, with every trade that is still to be accounted for. */
    method FinalRead(others: seq<Account.Owned>) returns (r: Outcome<Recovery.Evidence>)
      requires Inv(desk.w)
      modifies desk
      ensures Inv(desk.w) && Calm(old(desk.w), desk.w)
      ensures r.Done? ==> LastRead(desk.w.log) == Some(r.value.view.snapshot) && AccountedFor(desk.w, r.value.trades)
    {
      hide Inv, Advances, Quiet, Calm, FreshFrom;
      ghost var before := desk.w.log;
      var view :- desk.Fetch();
      LastReadAppend(before, Observed(view));
      var identity: bool, margin: bool, listed: bool := *, *, *;
      var positions: seq<Account.BalanceRow>, orders: seq<Account.BalanceRow> := *, *;
      var own := Account.Owned(desk.w.plan, desk.w.trade, listed);
      var trades := (if desk.w.trade.state in {FLAT, CANCELLED} then [] else [own]) + others;
      assert desk.w.trade.state !in {FLAT, CANCELLED} ==> trades[0] == own;
      return Done(Recovery.Evidence(Account.AccountView(view, identity, margin, positions, orders), trades));
    }

    /** The part of `initialize_recovery` that works on this trade: each step's outcome is collected. */
    method RecoverSteps(eligible: seq<EffectId>) returns (steps: seq<Outcome<()>>)
      requires Inv(desk.w)
      modifies desk
      ensures Inv(desk.w) && Advances(old(desk.w), desk.w)
      ensures (forall s :: s in steps ==> s.Done?) ==> Converged(desk.w.trade.state)
      ensures (forall s :: s in steps ==> s.Done?) ==>
        || desk.w.trade.state in {FLAT, CANCELLED}
        || (steps != [] && PassMade(desk.w, old(desk.w.trade), |old(desk.w.log)|, steps[|steps| - 1]))
    {
      hide Inv, Advances, Quiet, Calm, FreshFrom, Evolves, Faithful, Sighted, EventsSettled, PassMade;
      Transitivity();
      Reflexivity(desk.w);
      steps := [];
      for i := 0 to |eligible|
        invariant Inv(desk.w) && Quiet(old(desk.w), desk.w)
      {
        var recovered := RecoverEffect(eligible[i]);
        steps := steps + [recovered];
        if recovered.Crashed? {
          assert steps[|steps| - 1] == recovered;
          return;
        }
      }
      if desk.w.trade.state in {FLAT, CANCELLED} { return; }
      ghost var from, row := |desk.w.log|, desk.w.trade;
      var converged := ReconcileRecovered(eligible);
      if converged.Done? { PassSince(desk.w, row, from, converged); }
      steps := steps + [converged];
      assert steps[|steps| - 1] == converged;
    }

    /** The reconciliation of one recovered trade: never beside an effect without outcome. */
    method ReconcileRecovered(eligible: seq<EffectId>) returns (r: Outcome<()>)
      requires Inv(desk.w)
      modifies desk
      ensures Inv(desk.w) && Advances(old(desk.w), desk.w)
      ensures r.Done? ==> Converged(desk.w.trade.state)
      ensures r.Done? ==> PassMade(desk.w, old(desk.w.trade), |old(desk.w.log)|, r)
    {
      hide Inv, Advances, Quiet, Calm, FreshFrom, Evolves, Faithful, Sighted, EventsSettled, HoldingAnswered, PassMade;
      Transitivity();
      Reflexivity(desk.w);
      if Unripe(desk.w.effects, eligible) { return Raised; }
      desk.Begin();
      ghost var before := desk.w.log;
      var view :- desk.Fetch();
      JustSighted(before, desk.w, view);
      NoEventsSettled(desk.w);
      ghost var n, row := |desk.w.log|, desk.w.trade;
      assert desk.w.log[n - 1] == Observed(view);
      r := ReconcileTrade(view, []);
      assert desk.w.log[n - 1..n][0] == Observed(view);
      if r.Done? {
        PassIsMade(desk.w, row, n - 1, n, view, r);
        PassSince(desk.w, row, n - 1, r);
      }
    }

    /** `initialize_recovery`: revoke, recover, audit the account, and only then open it. Done(true) is a pass
        without blockers: the trade has converged, and the very last read accounts for it with all its protection. */
    method InitializeRecovery(eligible: seq<EffectId>, others: seq<Outcome<()>>, trades: seq<Account.Owned>)
      returns (r: Outcome<bool>)
      requires Inv(desk.w) && gate.Valid()
      modifies desk, gate
      ensures Inv(desk.w) && Advances(old(desk.w), desk.w) && gate.Valid()
      ensures r == Done(true) ==>
        && gate.Open() && Converged(desk.w.trade.state)
        && gate.proof.Some? && Account.Clean(gate.proof.value.view, gate.proof.value.trades)
        && LastRead(desk.w.log) == Some(gate.proof.value.view.snapshot) && AccountedFor(desk.w, gate.proof.value.trades)
      ensures r == Done(true) && desk.w.trade.state in {PROTECTING, ACTIVE}
              && Account.HasPosition(gate.proof.value.view.snapshot.positions, desk.w.plan.symbol) ==>
        LegShownLive(desk.w.plan, desk.w.trade, gate.proof.value.view.snapshot, StopLeg)
      ensures r == Done(false) ==> !gate.Open()
      ensures old(gate.blockers) != [] && gate.blockers == [] ==> r == Done(true)
    {
      hide Inv, Advances, Quiet, Calm, FreshFrom, Account.Clean;
      Transitivity();
      Reflexivity(desk.w);
      var expected :- gate.Begin();
      var preflight := desk.Await();
      var facts := desk.Await();
      var steps, final := [preflight, facts], Raised;
      if preflight.Done? && facts.Done? {
        steps := RecoverSteps(eligible);
        steps := steps + others;
        if forall s :: s in steps ==> s.Done? {
          final := FinalRead(trades);
        }
      }
      assert preflight in [preflight, facts] && facts in [preflight, facts];
      gate.Rivals();
      var found :- gate.Conclude(expected, steps, final);
      if found == [] && desk.w.trade.state in {PROTECTING, ACTIVE} {
        AccountedIsProtected(desk.w, final.value);
      }
      return Done(found == []);
    }

    /** One command, to its normal end, an exception, or the loss of the process, whose successor starts unrecovered. */
    method Execute(command: Command) returns (r: Outcome<()>)
      requires Inv(desk.w) && gate.Valid()
      modifies desk, gate
      ensures Inv(desk.w) && Advances(old(desk.w), desk.w) && gate.Valid()
      ensures r.Crashed? ==> !gate.Open()
      ensures old(gate.blockers) != [] && gate.blockers == [] ==>
        command.Start? && gate.proof.Some? && Account.Clean(gate.proof.value.view, gate.proof.value.trades)
    {
      hide Inv, Advances, Quiet, Calm;
      Transitivity();
      Reflexivity(desk.w);
      gate.Rivals();
      match command {
        case Deliver(eligible) =>
          var handled, _, _, _ := Handle(eligible);
          r := handled;
        case Reconcile =>
          var reconciled, _ := ReconcileOnce();
          r := if reconciled.IsFailure() then reconciled.PropagateFailure() else Done(());
        case Start(eligible, steps, others) =>
          var started := InitializeRecovery(eligible, steps, others);
          r := if started.IsFailure() then started.PropagateFailure() else Done(());
        case OperatorFails(id) =>
          desk.OperatorFails(id);
          r := Done(());
      }
      if r.Crashed? { gate.Restart(); }
    }

    /** Every run: any commands in any order, each ending normally, in an exception or in a crash at any await,
        with the venue free to do anything in between. */
    method Run(commands: seq<Command>)
      requires Inv(desk.w) && gate.Valid()
      modifies desk, gate
      ensures Inv(desk.w) && Safe(desk.w) && Advances(old(desk.w), desk.w) && gate.Valid()
    {
      hide Inv, Advances, Quiet, Calm, Safe;
      Transitivity();
      Reflexivity(desk.w);
      for i := 0 to |commands|
        invariant Inv(desk.w) && Advances(old(desk.w), desk.w) && gate.Valid()
      {
        var _ := Execute(commands[i]);
      }
      InvIsSafe(desk.w);
    }
  }

  /** A run of a fresh trade under an arbitrary environment is safe from its first step to its last. */
  method RunFromScratch(plan: Plan, commands: seq<Command>) returns (desk: Desk)
    requires plan.quantity > 0.0
    ensures fresh(desk) && desk.w.plan == plan && Inv(desk.w) && Safe(desk.w)
  {
    hide Inv, Safe, Quiet, Calm;
    desk := new Desk(plan);
    var gate := new Recovery.AccountGate();
    var engine := new PaperEngine(desk, gate);
    engine.Run(commands);
  }
}
