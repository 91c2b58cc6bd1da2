/** The compensating execution engine: an entry ends protected, proven empty, or closed down to an observed flat
    position; a close ends on an observed flat position; a repeated message is answered from memory. Every method is
    proved against the histories that `ExecutionTrails` admits, whether it returns or raises. */
module ExecutionEngine {
  import opened Outcomes
  import opened Amounts
  import opened IdempotencyCache
  import opened ExecutionTrails

  datatype Action = OPEN | CLOSE | REDUCE | NOOP

  function ActionFor(reason: Reason): Action {
    match reason
    case ENTER_LONG => OPEN
    case ENTER_SHORT => OPEN
    case CLOSE_POSITION => CLOSE
    case REDUCE_LEVERAGE => REDUCE
    case REBALANCE => OPEN
    case HOLD => NOOP
  }

  function SideFor(reason: Reason, side: Side): Side {
    match reason
    case ENTER_LONG => BUY
    case ENTER_SHORT => SELL
    case _ => side
  }

  class ExecutionEngine {
    const venue: Venue
    const defaultTrail: real
    const allowed: set<Symbol>
    var localMode: bool
    var blocked: bool
    const memory: Cache<(Order, Option<Report>)>
    /** Everything this engine did at, or saw of, the venue. */
    var log: seq<Event>

    constructor (venue: Venue, defaultTrail: real, allowed: set<Symbol>, capacity: nat)
      requires 0.0 < defaultTrail < 1.0 && capacity > 0
      ensures Valid() && log == [] && fresh(memory) && memory.touches == []
    {
      this.venue, this.defaultTrail, this.allowed := venue, defaultTrail, allowed;
      localMode, blocked, log := false, false, [];
      memory := new Cache(capacity);
    }

    ghost predicate Valid()
      reads this, memory
    {
      memory.Valid() && 0.0 < defaultTrail < 1.0
    }

    /** One look at or one mutation of the venue is on record. */
    method Log(e: Event)
      modifies `log
      ensures log == old(log) + [e]
      ensures Closes(log) == Closes(old(log)) + (if e.CloseSent? then 1 else 0)
      ensures Places(log) == Places(old(log)) + (if e.Placed? then 1 else 0)
    {
      CountAppend(log, e);
      log := log + [e];
    }

    /** What became of a mutation just sent: its answer, an exception, or the loss of the process. */
    method Answer() returns (r: Outcome<Report>)
      modifies `log
      ensures Closes(log) == Closes(old(log)) && Places(log) == Places(old(log))
      ensures match r
              case Done(report) => log == old(log) + [Answered(report)]
              case Raised => log == old(log) + [Lost]
              case Crashed => log == old(log)
    {
      hide Closes, Places;
      var report: Report, ok: bool, lost: bool := *, *, *;
      if ok {
        Log(Answered(report));
        return Done(report);
      }
      if lost { return Crashed; }
      Log(Lost);
      return Raised;
    }

    method IsFlat() returns (r: Outcome<bool>)
      modifies `log
      ensures Closes(log) == Closes(old(log)) && Places(log) == Places(old(log))
      ensures match r
              case Done(flat) => log == old(log) + [SawFlat(flat)]
              case Raised => log == old(log) + [LookFailed]
              case Crashed => log == old(log)
    {
      hide Closes, Places;
      var flat: bool, ok: bool, lost: bool := *, *, *;
      if ok {
        Log(SawFlat(flat));
        return Done(flat);
      }
      if lost { return Crashed; }
      Log(LookFailed);
      return Raised;
    }

    method IsActive(name: Name) returns (r: Outcome<bool>)
      modifies `log
      ensures Closes(log) == Closes(old(log)) && Places(log) == Places(old(log))
      ensures match r
              case Done(active) => log == old(log) + [SawActive(name, active)]
              case Raised => log == old(log) + [LookFailed]
              case Crashed => log == old(log)
    {
      hide Closes, Places;
      var active: bool, ok: bool, lost: bool := *, *, *;
      if ok {
        Log(SawActive(name, active));
        return Done(active);
      }
      if lost { return Crashed; }
      Log(LookFailed);
      return Raised;
    }

    method Cancel(name: Name) returns (r: Outcome<()>)
      modifies `log
      ensures Closes(log) == Closes(old(log)) && Places(log) == Places(old(log))
      ensures log == old(log) + if r.Raised? then [CancelSent(name), Lost] else [CancelSent(name)]
    {
      hide Closes, Places;
      Log(CancelSent(name));
      var ok: bool, lost: bool := *, *;
      if ok { return Done(()); }
      if lost { return Crashed; }
      Log(Lost);
      return Raised;
    }

    /** `_cancel_if_active`: a normal return has just seen the order inactive. */
    method CancelIfActive(name: Name) returns (r: Outcome<()>)
      modifies `log
      ensures old(log) <= log && Closes(log) == Closes(old(log)) && Places(log) == Places(old(log))
      ensures !r.Crashed? ==> Withdrawal(name, log[|old(log)|..], r.Done?)
    {
      hide Closes, Places;
      var active :- IsActive(name);
      if !active { return Done(()); }
      assert (log + [CancelSent(name), Lost])[|old(log)|..] == [SawActive(name, true), CancelSent(name), Lost];
      var _ :- Cancel(name);
      assert forall e :: (log + [e])[|old(log)|..] == [SawActive(name, true), CancelSent(name), e];
      active :- IsActive(name);
      if active { return Raised; }
      return Done(());
    }

    /** `_compensate_unprotected`: one way or another, the position is observed flat. */
    method Compensate(message: MessageId, intent: Intent, entry: Report, cancelEntry: bool) returns (r: Outcome<Report>)
      modifies `log
      ensures old(log) <= log && Closes(log) <= Closes(old(log)) + 1 && Places(log) == Places(old(log))
      ensures r.Done? ==> r.value == Compensated(venue, entry, intent)
      ensures !r.Crashed? ==>
        Compensation(venue, intent.name, cancelEntry || entry.status in {NEW, PARTIALLY_FILLED}, EmergencyName(message),
                     intent.symbol, log[|old(log)|..], r.Done?)
    {
      hide Closes, Places, Flattening;
      if cancelEntry || entry.status in {NEW, PARTIALLY_FILLED} {
        var _ :- Cancel(intent.name);
        var active :- IsActive(intent.name);
        if active { return Raised; }
      }
      ghost var mid := log;
      var flat := Flatten(EmergencyName(message), intent.symbol);
      assert log[|old(log)|..][|mid| - |old(log)|..] == log[|mid|..];
      r := if flat.Done? then Done(Compensated(venue, entry, intent)) else flat.PropagateFailure();
    }

    /** The second half of a compensation: a position that is still open is closed, unless an earlier close works. */
    method Flatten(name: Name, symbol: Symbol) returns (r: Outcome<()>)
      modifies `log
      ensures old(log) <= log && Closes(log) <= Closes(old(log)) + 1 && Places(log) == Places(old(log))
      ensures !r.Crashed? ==> Flattening(venue, name, symbol, log[|old(log)|..], r.Done?)
    {
      hide Closes, Places, Closing;
      var flat :- IsFlat();
      if flat { return Done(()); }
      var active :- IsActive(name);
      if active { return Raised; }
      ghost var mid := log;
      r := CloseAndObserve(name, symbol);
      assert log[|old(log)|..][2..] == log[|mid|..];
    }

    /** The emergency close: sent once; its acknowledgement never counts more than the position. */
    method CloseAndObserve(name: Name, symbol: Symbol) returns (r: Outcome<()>)
      modifies `log
      ensures old(log) <= log && Closes(log) <= Closes(old(log)) + 1 && Places(log) == Places(old(log))
      ensures !r.Crashed? ==> Closing(venue, name, symbol, log[|old(log)|..], r.Done?)
    {
      hide Closes, Places, Trusted, Withdrawal;
      Log(CloseSent(name));
      var refused: bool := *;
      if refused {
        Log(Refused);
        return Raised;
      }
      var answer := Answer();
      if answer.Crashed? { return Crashed; }
      ghost var answered := log[|log| - 1];
      var flat :- IsFlat();
      assert log[|old(log)|..] == [CloseSent(name), answered, SawFlat(flat)];
      assert forall e :: (log + [e])[|old(log)|..] == [CloseSent(name), answered, SawFlat(flat), e];
      if answer.Done? {
        if !Trusted(venue, answer.value, name, symbol, None, None) { return Raised; }
        if answer.value.status in {REJECTED, CANCELED} { return Raised; }
      }
      if !flat {
        if answer.Raised? {
          var _ :- IsActive(name);
        }
        return Raised;
      }
      ghost var mid := log;
      r := CancelIfActive(name);
      assert log[|old(log)|..][3..] == log[|mid|..];
    }

    /** `_resolve_ambiguous_entry`: even a clean compensation leaves the delivery pending. */
    method ResolveAmbiguousEntry(message: MessageId, intent: Intent) returns (r: Outcome<Report>)
      modifies `log
      ensures old(log) <= log && Closes(log) <= Closes(old(log)) + 1 && Places(log) == Places(old(log))
      ensures r.IsFailure()
      ensures r.Raised? ==> exists done ::
        Compensation(venue, intent.name, true, EmergencyName(message), intent.symbol, log[|old(log)|..], done)
    {
      hide Compensation;
      var uncertain := Report(intent.name, venue.name, None, intent.symbol, Some(intent.side), NEW,
                              Number(intent.quantity), Number(0.0), Number(intent.quantity), Number(0.0), Number(0.0));
      var compensated := Compensate(message, intent, uncertain, true);
      r := if compensated.Crashed? then Crashed else Raised;
    }

    /** Arm the protective stop at the requested price, or at the default distance. */
    method ArmStop(intent: Intent, answer: Report, trail: Option<real>) returns (r: Outcome<()>)
      requires 0.0 < defaultTrail < 1.0 && Protectable(answer, intent)
      requires intent.stop.Some? ==> trail == ExplicitTrail(intent.side, EntryPrice(answer, intent), intent.stop.value)
      requires intent.stop == None ==> trail == None
      modifies `log
      ensures Closes(log) == Closes(old(log)) && Places(log) == Places(old(log))
      ensures match r
              case Done(_) =>
                && |log| == |old(log)| + 1 && log == old(log) + [log[|old(log)|]] && log[|old(log)|].StopArmed?
                && log[|old(log)|].parent == intent.name
                && StopAt(answer, intent, defaultTrail, log[|old(log)|].price)
              case Raised => log == old(log) + [StopFailed(intent.name)]
              case Crashed => log == old(log)
    {
      hide Closes, Places, ExplicitTrail;
      var entry := EntryPrice(answer, intent);
      if intent.stop.Some? { ExplicitStopIsExact(intent.side, entry, intent.stop.value); }
      var price := StopPrice(intent.side, entry, if trail.Some? then trail.value else defaultTrail);
      var ok: bool, lost: bool := *, *;
      if ok && price > 0.0 {
        Log(StopArmed(intent.name, price));
        return Done(());
      }
      if lost { return Crashed; }
      Log(StopFailed(intent.name));
      return Raised;
    }

    /** The OPEN path of `_handle_once`. */
    method OpenPosition(order: Order) returns (r: Outcome<Report>)
      requires 0.0 < defaultTrail < 1.0
      modifies `log
      ensures old(log) <= log && Closes(log) <= Closes(old(log)) + 1 && Places(log) <= Places(old(log)) + 1
      ensures !r.Crashed? ==>
        OpenEnded(venue, defaultTrail, order.message, order.intent.(side := SideFor(order.reason, order.intent.side)),
                  log[|old(log)|..], r)
    {
      hide Closes, Places, Trusted, Compensation, StopAt, ExplicitTrail;
      var intent := order.intent.(side := SideFor(order.reason, order.intent.side));
      Log(Placed(intent.name));
      var answer := Answer();
      if answer.Crashed? { return Crashed; }
      ghost var mid := log;
      if answer.Raised? {
        r := ResolveAmbiguousEntry(order.message, intent);
        assert log[|old(log)|..][2..] == log[|mid|..];
        return;
      }
      r := ProtectEntry(order.message, intent, answer.value);
      assert log[|old(log)|..][2..] == log[|mid|..];
    }

    /** What `_handle_once` does with an answered entry. */
    method ProtectEntry(message: MessageId, intent: Intent, report: Report) returns (r: Outcome<Report>)
      requires 0.0 < defaultTrail < 1.0
      modifies `log
      ensures old(log) <= log && Closes(log) <= Closes(old(log)) + 1 && Places(log) == Places(old(log))
      ensures !r.Crashed? ==> Protecting(venue, defaultTrail, message, intent, report, log[|old(log)|..], r)
    {
      hide Closes, Places, Compensation, StopAt, ExplicitTrail, Protective;
      if !Trusted(venue, report, intent.name, intent.symbol, Some(intent.side), Some(intent.quantity)) {
        r := Compensate(message, intent, report, true);
        return;
      }
      if report.status == REJECTED {
        if report.filled.value > 0.0 {
          r := Compensate(message, intent, report, false);
        } else {
          r := Done(report);
        }
        return;
      }
      if report.status == CANCELED && report.filled.value == 0.0 { return Done(report); }
      if report.status in {NEW, PARTIALLY_FILLED} && report.exchangeId == None {
        r := Compensate(message, intent, report, false);
        return;
      }
      var entry := if report.average.value > 0.0 then report.average.value
                   else if intent.price.Some? then intent.price.value else 0.0;
      if entry <= 0.0 {
        r := Compensate(message, intent, report, false);
        return;
      }
      var trail := None;
      if intent.stop.Some? {
        trail := ExplicitTrail(intent.side, entry, intent.stop.value);
        ExplicitStopIsExact(intent.side, entry, intent.stop.value);
        if trail == None {
          r := Compensate(message, intent, report, false);
          return;
        }
      }
      var armed := ArmStop(intent, report, trail);
      if armed.Crashed? { return Crashed; }
      if armed.Raised? {
        ghost var mid := log;
        r := Compensate(message, intent, report, false);
        assert log[|old(log)|..][1..] == log[|mid|..];
        return;
      }
      return Done(report);
    }

    /** `_close_to_desired_state`: at most one close, acknowledged only by an observed flat position. */
    method CloseToDesiredState(order: Order) returns (r: Outcome<Report>)
      modifies `log
      ensures old(log) <= log && Closes(log) <= Closes(old(log)) + 1 && Places(log) == Places(old(log))
      ensures !r.Crashed? ==> CloseEnded(venue, order.message, order.intent, log[|old(log)|..], r)
    {
      hide Closes, Places, Submitted, Withdrawal;
      var name, intent := CloseName(order.message), order.intent;
      var flat :- IsFlat();
      ghost var mid := log;
      if flat {
        var withdrawn := CancelIfActive(name);
        assert log[|old(log)|..][1..] == log[|mid|..];
        return if withdrawn.Done? then Done(DesiredState(venue, order.message, intent)) else withdrawn.PropagateFailure();
      }
      var active :- IsActive(name);
      if active { return Raised; }
      mid := log;
      r := SubmitClose(order);
      assert log[|old(log)|..][2..] == log[|mid|..];
    }

    /** The close itself, once, and the position it leaves. */
    method SubmitClose(order: Order) returns (r: Outcome<Report>)
      modifies `log
      ensures old(log) <= log && Closes(log) <= Closes(old(log)) + 1 && Places(log) == Places(old(log))
      ensures !r.Crashed? ==> Submitted(venue, order.message, order.intent, log[|old(log)|..], r)
    {
      hide Closes, Places, Trusted, Withdrawal;
      var name, intent := CloseName(order.message), order.intent;
      Log(CloseSent(name));
      var answer := Answer();
      if answer.Crashed? { return Crashed; }
      ghost var answered := log[|log| - 1];
      var flat :- IsFlat();
      assert log[|old(log)|..] == [CloseSent(name), answered, SawFlat(flat)];
      assert forall e :: (log + [e])[|old(log)|..] == [CloseSent(name), answered, SawFlat(flat), e];
      if answer.Done? && !Trusted(venue, answer.value, name, intent.symbol, Some(intent.side), Some(intent.quantity)) {
        return Raised;
      }
      if !flat {
        if answer.Raised? {
          var _ :- IsActive(name);
        }
        return Raised;
      }
      ghost var mid := log;
      var withdrawn := CancelIfActive(name);
      assert log[|old(log)|..][3..] == log[|mid|..];
      if withdrawn.IsFailure() { return withdrawn.PropagateFailure(); }
      return Done(if answer.Done? && answer.value.status == FILLED then answer.value
                  else DesiredState(venue, order.message, intent));
    }

    /** `_handle_once`: only an allowed, approved order acts, and a blocked engine only closes. */
    method HandleOnce(order: Order) returns (r: Outcome<Option<Report>>)
      requires 0.0 < defaultTrail < 1.0
      modifies `log
      ensures old(log) <= log && Closes(log) <= Closes(old(log)) + 1 && Places(log) <= Places(old(log)) + 1
      ensures !r.Crashed? ==>
        Handled(venue, defaultTrail, order.intent.symbol in allowed, !blocked, !localMode, order, log[|old(log)|..], r)
      ensures Places(log) > Places(old(log)) ==>
        && order.intent.symbol in allowed && order.approved && !blocked && !localMode
        && order.reason in {ENTER_LONG, ENTER_SHORT, REBALANCE}
    {
      hide Closes, Places, Trusted, OpenEnded, CloseEnded;
      if order.intent.symbol !in allowed || !order.approved { return Done(None); }
      var action := ActionFor(order.reason);
      if blocked && action != CLOSE { return Raised; }
      if localMode && action == OPEN { return Done(None); }
      match action {
        case NOOP => return Done(None);
        case CLOSE =>
          var report := CloseToDesiredState(order);
          r := if report.Done? then Done(Some(report.value)) else report.PropagateFailure();
        case REDUCE =>
          Log(LeverageSet(Max(1.0, order.intent.leverage / 2.0)));
          var ok: bool, lost: bool := *, *;
          if ok { return Done(None); }
          if lost { return Crashed; }
          Log(Lost);
          return Raised;
        case OPEN =>
          var report := OpenPosition(order);
          r := if report.Done? then Done(Some(report.value)) else report.PropagateFailure();
          assert EntryOf(order, order.intent.(side := SideFor(order.reason, order.intent.side)));
      }
    }

    /** `handle`: a retained message never reaches the venue again, and a changed payload is refused. */
    method Handle(order: Order) returns (r: Outcome<Option<Report>>)
      requires Valid()
      modifies this, memory
      ensures Valid() && old(log) <= log && Closes(log) <= Closes(old(log)) + 1 && Places(log) <= Places(old(log)) + 1
      ensures blocked == old(blocked) && localMode == old(localMode)
      ensures order.message in old(memory.values) ==>
        var (first, report) := old(memory.values)[order.message];
        && log == old(log) && memory.values == old(memory.values)
        && r == (if first == order then Done(report) else Raised)
        && memory.touches == old(memory.touches) + (if first == order then [Replayed(order.message)] else [])
      ensures order.message !in old(memory.values) ==>
        && memory.touches == old(memory.touches) + (if r.Done? then [Fresh(order.message, (order, r.value))] else [])
        && (!r.Crashed? ==>
              Handled(venue, defaultTrail, order.intent.symbol in allowed, !blocked, !localMode, order, log[|old(log)|..], r))
      ensures |memory.order| <= memory.capacity
    {
      hide Handled;
      WindowSize(Recency(memory.touches), memory.capacity);
      if order.message in memory.values {
        var (first, report) := memory.values[order.message];
        if first != order { return Raised; }
        memory.Replay(order.message);
        WindowSize(Recency(memory.touches), memory.capacity);
        return Done(report);
      }
      var report :- HandleOnce(order);
      memory.Store(order.message, (order, report));
      return Done(report);
    }

    /** Any history of requests, whatever becomes of each: memory and limits hold throughout. */
    method HandleAll(orders: seq<Order>)
      requires Valid()
      modifies this, memory
      ensures Valid() && old(log) <= log && |memory.order| <= memory.capacity
      ensures Closes(log) <= Closes(old(log)) + |orders| && Places(log) <= Places(old(log)) + |orders|
    {
      WindowSize(Recency(memory.touches), memory.capacity);
      for i := 0 to |orders|
        invariant Valid() && old(log) <= log && |memory.order| <= memory.capacity
        invariant Closes(log) <= Closes(old(log)) + i && Places(log) <= Places(old(log)) + i
      {
        var _ := Handle(orders[i]);
      }
    }
  }
}
