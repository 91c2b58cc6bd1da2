/** The awaits of the engine as a transition system: what its collaborators may do to one trade, step by step. A
    play is any sequence of enabled steps from a fresh trade; that it is safe does not rest on the engine's own
    control flow. */
module LifecycleRuns {
  import opened Outcomes
  import opened VenueRecords
  import opened LifecycleLog
  import opened LifecycleWorld
  import opened LifecycleSafety

  datatype Step =
    | Evolve(truth: Truth)
    | Observe(view: Snapshot)
    | Look(record: TpslRecord)
    | Insert(id: EffectId, request: Request)
    | Issue(id: EffectId)
    | Settle(id: EffectId, status: EffectStatus, exchangeId: Option<TpslId>, payload: Payload)
    | Transit(after: Trade)
    | Fail(id: EffectId)
    | Begin
    | Tick(now: int)
    | Fault(call: Call)

  /** The record that was looked up is one of this trade's indexed protections. */
  predicate OwnRecord(truth: Truth, record: TpslRecord) {
    || (Indexed(truth.stop) && record.id == Some(truth.stop.id))
    || (Indexed(truth.target) && record.id == Some(truth.target.id))
  }

  ghost predicate Enabled(w: World, s: Step) {
    match s
    case Evolve(truth) => Evolves(w.truth, truth)
    case Observe(view) => Faithful(w.plan, view, w.truth)
    case Look(record) => OwnRecord(w.truth, record)
    case Insert(id, request) => MayPrepare(w, id, request)
    case Issue(id) => MaySend(w, id)
    case Settle(id, status, exchangeId, payload) => MayFinish(w, id, status, exchangeId, payload)
    case Transit(after) => MayMove(w, after)
    case Fail(id) => id in w.effects && w.effects[id].status == PREPARED
    case _ => true
  }

  ghost function Take(w: World, s: Step): World
    requires Enabled(w, s)
  {
    match s
    case Evolve(truth) => w.(truth := truth)
    case Observe(view) => Logged(w, Observed(view))
    case Look(record) => Logged(w, ReadBack(record))
    case Insert(id, request) => Inserted(w, id, request)
    case Issue(id) => Logged(w, Sent(id)).(truth := Issued(w.truth, id))
    case Settle(id, status, exchangeId, payload) => Finished(w, id, status, exchangeId, payload)
    case Transit(after) => MovedTo(w, after)
    case Fail(id) => MarkedFailed(w, id)
    case Begin => Logged(w, Began)
    case Tick(now) => Logged(w, Clocked(now))
    case Fault(call) => Logged(w, Faulted(call))
  }

  /** Every step is enabled when its turn comes. */
  ghost predicate Playable(a: World, steps: seq<Step>)
    decreases |steps|, 0
  {
    steps != [] ==>
      var n := |steps| - 1;
      Playable(a, steps[..n]) && Enabled(Play(a, steps[..n]), steps[n])
  }

  /** Where the steps lead. */
  ghost function Play(a: World, steps: seq<Step>): World
    requires Playable(a, steps)
    decreases |steps|, 1
  {
    if steps == [] then a else Take(Play(a, steps[..|steps| - 1]), steps[|steps| - 1])
  }

  lemma TakeKeeps(w: World, s: Step)
    requires Inv(w) && Enabled(w, s)
    ensures Inv(Take(w, s))
  {
    hide Inv, MayPrepare, MaySend, MayFinish, MayMove, Evolves, Faithful;
    match s {
      case Evolve(truth) => InvEvolve(w, truth);
      case Observe(view) => InvObserve(w, Observed(view));
      case Look(record) => InvObserve(w, ReadBack(record));
      case Insert(id, request) => InvPrepare(w, id, request);
      case Issue(id) => InvSend(w, id);
      case Settle(id, status, exchangeId, payload) => InvFinish(w, id, status, exchangeId, payload);
      case Transit(after) => InvMove(w, after);
      case Fail(id) => InvFail(w, id);
      case Begin => InvObserve(w, Began);
      case Tick(now) => InvObserve(w, Clocked(now));
      case Fault(call) => InvObserve(w, Faulted(call));
    }
  }

  lemma {:induction false} PlayKeeps(a: World, steps: seq<Step>)
    requires Inv(a) && Playable(a, steps)
    ensures Inv(Play(a, steps))
  {
    hide Inv, Enabled;
    if steps != [] {
      var n := |steps| - 1;
      PlayKeeps(a, steps[..n]);
      TakeKeeps(Play(a, steps[..n]), steps[n]);
    }
  }

  /** Every play from a freshly created trade is safe at its end, whatever its steps. */
  lemma PlayIsSafe(plan: Plan, steps: seq<Step>)
    requires plan.quantity > 0.0 && Playable(Initial(plan), steps)
    ensures Inv(Play(Initial(plan), steps)) && Safe(Play(Initial(plan), steps))
  {
    hide Inv, Safe, Enabled;
    InitialInv(plan);
    PlayKeeps(Initial(plan), steps);
    InvIsSafe(Play(Initial(plan), steps));
  }

  /** One more step of a play. */
  lemma PlayOn(a: World, steps: seq<Step>, s: Step) returns (longer: seq<Step>)
    requires Inv(a) && Playable(a, steps) && Enabled(Play(a, steps), s)
    ensures longer == steps + [s] && Playable(a, longer) && Play(a, longer) == Take(Play(a, steps), s)
    ensures Inv(Play(a, longer))
  {
    hide Enabled, Inv;
    longer := steps + [s];
    assert longer[..|longer| - 1] == steps;
    PlayKeeps(a, longer);
  }
}
