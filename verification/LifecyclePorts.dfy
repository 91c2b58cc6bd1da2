/** The collaborators of the engine for one trade: trade repository, effect journal and venue.
    Each method is one await. Its outcome is chosen by the environment, it may raise or lose
    the process before or after taking effect, and it keeps `Inv` whatever happens. An await
    that raises leaves a `Faulted` entry in the history; a lost process leaves none. */
module LifecyclePorts {
  import opened Outcomes
  import opened Amounts
  import opened VenueRecords
  import opened LifecycleLog
  import opened LifecycleWorld

  /** Nothing durable changed; time passed at the venue. */
  ghost predicate Still(a: World, b: World) {
    b == a.(truth := b.truth) && Evolves(a.truth, b.truth)
  }

  /** `e` was appended and nothing else durable changed except, perhaps, the journal row of `id`. */
  lemma OneEvent(a: World, e: Event, b: World)
    requires !e.Moved? && b.plan == a.plan && b.trade == a.trade && b.log == a.log + [e]
    requires Ahead(a.truth, b.truth) && a.effects.Keys <= b.effects.Keys && OutcomesKept(a.effects, b.effects)
    ensures Quiet(a, b) && (!Stales(e) ==> FreshFrom(b.log) == FreshFrom(a.log))
  {
  }

  /** What an await for `call` that ended as `r` leaves behind what it did. */
  function Ended<T>(log: seq<Event>, r: Outcome<T>, call: Call): seq<Event> {
    if r.Raised? then log + [Faulted(call)] else log
  }

  /** The call `id` went out between `a` and `b`, and its await ended as `r`. */
  ghost predicate Issuing<T>(a: World, id: EffectId, b: World, r: Outcome<T>) {
    && Calm(a, b) && b.effects == a.effects
    && b.log == Ended(a.log + [Sent(id)], r, Calling(id))
    && Evolves(Issued(a.truth, id), b.truth)
  }

  lemma MoveAdvances(w: World, after: Trade)
    ensures Advances(w, MovedTo(w, after))
  {
  }

  datatype Preparation = Preparation(effect: Effect, created: bool)

  class Desk {
    var w: World

    constructor (plan: Plan)
      requires plan.quantity > 0.0
      ensures Inv(w) && w == Initial(plan)
    {
      w := Initial(plan);
      new;
      InitialInv(plan);
    }

    /** Time passes at the venue; the environment decides what happened there. */
    method Drift()
      requires Inv(w)
      modifies this
      ensures Inv(w) && Still(old(w), w) && Calm(old(w), w)
    {
      var truth: Truth := *;
      if Evolves(w.truth, truth) {
        InvEvolve(w, truth);
        w := w.(truth := truth);
      }
    }

    /** The process is lost, or the await raises, which stays on record. */
    method Fail<T>(call: Call) returns (r: Outcome<T>)
      requires Inv(w)
      modifies this
      ensures Inv(w) && r.IsFailure() && Calm(old(w), w) && w == old(w).(log := Ended(old(w).log, r, call))
    {
      hide Inv, FreshFrom;
      Reflexivity(w);
      var lost: bool := *;
      if lost { return Crashed; }
      InvObserve(w, Faulted(call));
      w := Logged(w, Faulted(call));
      OneEvent(old(w), Faulted(call), w);
      return Raised;
    }

    /** Any await that only reads or only admits: health, rules, budget, leases, book checks. */
    method Await() returns (r: Outcome<()>)
      requires Inv(w)
      modifies this
      ensures Inv(w) && Calm(old(w), w) && Evolves(old(w).truth, w.truth)
      ensures w == old(w).(truth := w.truth, log := Ended(old(w).log, r, Admitting))
    {
      hide Inv, FreshFrom;
      Transitivity();
      Drift();
      var ok: bool := *;
      if ok { return Done(()); }
      r := Fail(Admitting);
    }

    /** A pass over the trade begins: it acts on what it reads itself. */
    method Begin()
      requires Inv(w)
      modifies this
      ensures Inv(w) && Quiet(old(w), w) && w == Logged(old(w), Began)
    {
      hide Inv, FreshFrom;
      InvObserve(w, Began);
      w := Logged(w, Began);
      OneEvent(old(w), Began, w);
    }

    method Clock() returns (now: int)
      requires Inv(w)
      modifies this
      ensures Inv(w) && Calm(old(w), w) && w == Logged(old(w), Clocked(now))
    {
      hide Inv, FreshFrom;
      now := *;
      InvObserve(w, Clocked(now));
      w := Logged(w, Clocked(now));
      OneEvent(old(w), Clocked(now), w);
    }

    /** `fetch_paper_state`: a complete account read. A read that breaks the stated
        assumptions about the venue counts as one that raised. */
    method Fetch() returns (r: Outcome<Snapshot>)
      requires Inv(w)
      modifies this
      ensures Inv(w) && Calm(old(w), w) && w.effects == old(w).effects && Evolves(old(w).truth, w.truth)
      ensures r.IsFailure() ==> w.log == Ended(old(w).log, r, Reading)
      ensures r.Done? ==> w.log == old(w).log + [Observed(r.value)] && Faithful(w.plan, r.value, w.truth)
    {
      hide Inv, FreshFrom, Faithful;
      Transitivity();
      Drift();
      var view: Snapshot := *;
      if Faithful(w.plan, view, w.truth) {
        InvObserve(w, Observed(view));
        w := Logged(w, Observed(view));
        OneEvent(old(w), Observed(view), w);
        return Done(view);
      }
      r := Fail(Reading);
    }

    /** `drain_events`: streamed TP/SL records. */
    method Drain() returns (r: Outcome<seq<TpslRecord>>)
      requires Inv(w)
      modifies this
      ensures Inv(w) && Calm(old(w), w) && Evolves(old(w).truth, w.truth)
      ensures w == old(w).(truth := w.truth, log := Ended(old(w).log, r, Streaming))
      ensures r.Done? ==> EventsFaithful(r.value, w.truth)
    {
      hide Inv, FreshFrom;
      Transitivity();
      Drift();
      var events: seq<TpslRecord> := *;
      if (forall t :: t in events && TriggeredTpsl(t) && HasId(w.truth.stop) && t.id == Some(w.truth.stop.id) ==>
            w.truth.stop.Gone?)
         && (forall t :: t in events && TriggeredTpsl(t) && HasId(w.truth.target) && t.id == Some(w.truth.target.id) ==>
               w.truth.target.Gone?)
      {
        return Done(events);
      }
      r := Fail(Streaming);
    }

    /** `find_tpsl_record` by venue identity. */
    method FindTpslRecord(leg: Leg, id: TpslId) returns (r: Outcome<Option<TpslRecord>>)
      requires Inv(w) && IsId(w.truth.Of(leg), id)
      modifies this
      ensures Inv(w) && Calm(old(w), w) && w.effects == old(w).effects && Evolves(old(w).truth, w.truth)
      ensures r.Done? && r.value.Some? ==>
        && r.value.value.id == Some(id)
        && w.log == old(w).log + [ReadBack(r.value.value)]
        && Indexed(w.truth.Of(leg))
      ensures r == Done(None) || r.IsFailure() ==> w.log == Ended(old(w).log, r, Looking)
    {
      hide Inv, FreshFrom;
      Transitivity();
      Drift();
      var found: Option<TpslRecord> := *;
      if found == None { return Done(None); }
      if found.value.id == Some(id) && Indexed(w.truth.Of(leg)) {
        InvObserve(w, ReadBack(found.value));
        w := Logged(w, ReadBack(found.value));
        OneEvent(old(w), ReadBack(found.value), w);
        return Done(found);
      }
      r := Fail(Looking);
    }

    /** `effects.prepare`: insert the row, or return the one that is there; a changed request is refused.
        `created` is true for exactly one caller of a key. A failure may come after the row was committed. */
    method Prepare(id: EffectId, request: Request) returns (r: Outcome<Preparation>)
      requires Inv(w) && (id in w.effects || MayPrepare(w, id, request))
      modifies this
      ensures Inv(w) && Quiet(old(w), w) && (!id.ClosePosition? ==> Calm(old(w), w)) && Evolves(old(w).truth, w.truth)
      ensures (w.log == Ended(old(w).log, r, Journalling(id)) && w.effects == old(w).effects)
              || (w.log == Ended(old(w).log + [Prepared(id, request)], r, Journalling(id)) && id !in old(w).effects
                  && w.effects == old(w).effects[id := Effect(PREPARED, request, None, None)])
      ensures r.Done? ==>
        && id in w.effects && r.value.effect == w.effects[id] && (r.value.created <==> id !in old(w).effects)
        && r.value.effect.request == request
        && (r.value.created ==> r.value.effect.status == PREPARED && Sent(id) !in w.log)
        && (Settled(r.value.effect.status) ==> r.value.effect.payload.Some?)
    {
      hide Inv, MayPrepare, FreshFrom;
      Transitivity();
      EvolvesTransitivity();
      JournalFacts(w, id);
      var lost: bool := *;
      if lost || (id in w.effects && w.effects[id].request != request) {
        Drift();
        r := Fail(Journalling(id));
        return;
      }
      var created := id !in w.effects;
      if created {
        InvPrepare(w, id, request);
        w := Inserted(w, id, request);
      }
      Drift();
      if created {
        OneEvent(old(w), Prepared(id, request), w);
      }
      JournalFacts(w, id);
      var ok: bool := *;
      if ok { return Done(Preparation(w.effects[id], created)); }
      r := Fail(Journalling(id));
    }

    /** `effects.confirm` or `effects.reconcile`; a failure may come after the commit. */
    method Finish(id: EffectId, status: EffectStatus, exchangeId: Option<TpslId>, payload: Payload) returns (r: Outcome<()>)
      requires Inv(w) && MayFinish(w, id, status, exchangeId, payload)
      modifies this
      ensures Inv(w) && Quiet(old(w), w) && (!id.ClosePosition? ==> Calm(old(w), w)) && Evolves(old(w).truth, w.truth)
      ensures (w.log == Ended(old(w).log, r, Journalling(id)) && w.effects == old(w).effects)
              || (w.log == Ended(old(w).log + [OutcomeEvent(id, status, payload)], r, Journalling(id))
                  && w.effects == old(w).effects[id := Effect(status, old(w).effects[id].request, exchangeId, Some(payload))])
      ensures r.Done? ==>
        && w.log == old(w).log + [OutcomeEvent(id, status, payload)]
        && w.effects == old(w).effects[id := Effect(status, old(w).effects[id].request, exchangeId, Some(payload))]
    {
      hide Inv, FreshFrom;
      var lost: bool := *;
      if !lost {
        InvFinish(w, id, status, exchangeId, payload);
        w := Finished(w, id, status, exchangeId, payload);
        OneEvent(old(w), OutcomeEvent(id, status, payload), w);
      }
      Drift();
      Transitivity();
      EvolvesTransitivity();
      var ok: bool := *;
      if ok && !lost { return Done(()); }
      r := Fail(Journalling(id));
    }

    /** `transition_with_execution_event`: the row and its public fact commit together.
        An exception and a crash may both come after the commit. */
    method Transition(after: Trade) returns (r: Outcome<()>)
      requires Inv(w) && MayMove(w, after)
      modifies this
      ensures Inv(w) && Advances(old(w), w) && w.effects == old(w).effects && Evolves(old(w).truth, w.truth)
      ensures r.Done? ==> w.trade == after && w.log == old(w).log + [Moved(old(w).trade, after)]
      ensures r.IsFailure() ==>
        || (Calm(old(w), w) && w.log == Ended(old(w).log, r, Moving(after)))
        || (w.trade == after && w.log == Ended(old(w).log + [Moved(old(w).trade, after)], r, Moving(after)))
    {
      hide Inv, FreshFrom, MayMove;
      Transitivity();
      EvolvesTransitivity();
      Reflexivity(w);
      var committed: bool := *;
      if committed {
        InvMove(w, after);
        w := MovedTo(w, after);
        MoveAdvances(old(w), after);
      }
      Drift();
      var ok: bool := *;
      if ok && committed { return Done(()); }
      r := Fail(Moving(after));
    }

    /** One venue mutation is issued. */
    method Issue(id: EffectId)
      requires Inv(w) && MaySend(w, id)
      modifies this
      ensures Inv(w) && Issuing(old(w), id, w, Done(()))
    {
      hide Inv, MaySend, FreshFrom;
      InvSend(w, id);
      w := Logged(w, Sent(id)).(truth := Issued(w.truth, id));
      Drift();
      OneEvent(old(w), Sent(id), w);
    }

    /** `place_limit`. An answer carrying the entry's identity speaks about the entry. */
    method SendEntry() returns (r: Outcome<OrderRecord>)
      requires Inv(w) && MaySend(w, PlaceEntry)
      modifies this
      ensures Inv(w) && Issuing(old(w), PlaceEntry, w, r)
      ensures r.Done? && r.value.id == Some(w.plan.EntryId()) ==> EntryRecordFaithful(r.value, w.truth.entry)
    {
      hide Inv, MaySend, FreshFrom, Calm, Evolves;
      Transitivity();
      Issue(PlaceEntry);
      var answer: OrderRecord := *;
      if answer.id == Some(w.plan.EntryId()) ==> EntryRecordFaithful(answer, w.truth.entry) { return Done(answer); }
      r := Fail(Calling(PlaceEntry));
    }

    method SendCancelEntry() returns (r: Outcome<Payload>)
      requires Inv(w) && MaySend(w, CancelEntry)
      modifies this
      ensures Inv(w) && Issuing(old(w), CancelEntry, w, r)
      ensures r.Done? ==> r.value.CancelPayload?
    {
      hide Inv, MaySend, FreshFrom, Calm, Evolves;
      Transitivity();
      Issue(CancelEntry);
      var id: Option<OrderId>, status: OrderStatus, ok: bool := *, *, *;
      if ok { return Done(CancelPayload(id, status)); }
      r := Fail(Calling(CancelEntry));
    }

    /** `create_tpsl`. An answer that names an identity names the one the venue gave the order. */
    method SendCreate(leg: Leg) returns (r: Outcome<Option<TpslId>>)
      requires Inv(w) && MaySend(w, Create(leg))
      modifies this
      ensures Inv(w) && Issuing(old(w), Create(leg), w, r)
      ensures r.Done? && r.value.Some? ==> IsId(w.truth.Of(leg), r.value.value)
    {
      hide Inv, MaySend, FreshFrom, Calm, Evolves;
      Transitivity();
      Issue(Create(leg));
      var id: Option<TpslId> := *;
      if id.Some? ==> IsId(w.truth.Of(leg), id.value) { return Done(id); }
      r := Fail(Calling(Create(leg)));
    }

    /** `cancel_tpsl`. An acknowledged cancellation names an order the venue has indexed. */
    method SendCancelLeg(leg: Leg) returns (r: Outcome<()>)
      requires Inv(w) && MaySend(w, CancelLeg(leg))
      modifies this
      ensures Inv(w) && Issuing(old(w), CancelLeg(leg), w, r)
      ensures r.Done? ==> Indexed(w.truth.Of(leg))
    {
      hide Inv, MaySend, FreshFrom, Calm, Evolves;
      Transitivity();
      Issue(CancelLeg(leg));
      if Indexed(w.truth.Of(leg)) { return Done(()); }
      r := Fail(Calling(CancelLeg(leg)));
    }

    method SendClose(exit: ManualExit) returns (r: Outcome<OrderRecord>)
      requires Inv(w) && MaySend(w, ClosePosition(exit))
      modifies this
      ensures Inv(w) && Issuing(old(w), ClosePosition(exit), w, r)
    {
      hide Inv, MaySend, FreshFrom, Calm, Evolves;
      Transitivity();
      Issue(ClosePosition(exit));
      var answer: OrderRecord, ok: bool := *, *;
      if ok { return Done(answer); }
      r := Fail(Calling(ClosePosition(exit)));
    }

    /** The two-minute grace of a journal row has passed: a call issued that long ago has been
        executed or lost, and an order accepted that long ago is in the listing. */
    method Grace(id: EffectId)
      requires Inv(w)
      modifies this
      ensures Inv(w) && Still(old(w), w) && Calm(old(w), w)
      ensures id == PlaceEntry ==> w.truth.entry != InFlight
      ensures id.Create? ==> !w.truth.Of(id.leg).Accepted?
      ensures id.CancelLeg? ==> !w.truth.Of(id.cancelled).Accepted?
    {
      hide Inv, FreshFrom;
      Drift();
      var truth := w.truth;
      if id == PlaceEntry && truth.entry == InFlight { truth := truth.(entry := Closed); }
      if id.Create? && truth.Of(id.leg).Accepted? {
        truth := truth.With(id.leg, Listed(truth.Of(id.leg).id));
      }
      if id.CancelLeg? && truth.Of(id.cancelled).Accepted? {
        truth := truth.With(id.cancelled, Listed(truth.Of(id.cancelled).id));
      }
      InvEvolve(w, truth);
      w := w.(truth := truth);
    }

    /** An operator marks an unresolved effect FAILED. */
    method OperatorFails(id: EffectId)
      requires Inv(w)
      modifies this
      ensures Inv(w) && Quiet(old(w), w)
    {
      if id in w.effects && w.effects[id].status == PREPARED {
        InvFail(w, id);
        w := MarkedFailed(w, id);
      }
    }
  }
}
