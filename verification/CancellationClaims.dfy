/** The order of a production cancellation: prove, claim once, prove again, send, record. */
module CancellationClaims {
  import opened Outcomes
  import opened ProductionClaims
  import opened CancellationSafety

  /** What is being cancelled, and for which durable effect. `request` is the digest of the plan record: context,
      trade identity, effect, role, instrument, target, origin, owner and source. `trade` is the durable row as it was
      read, which the digest leaves out. */
  datatype Plan = Plan(effect: nat, role: Role, target: Id, instrument: Instrument, trade: Trade, origin: Digest,
                       owner: Digest, request: Digest)

  /** The comparison after the claim: digests and identities, not the row. */
  predicate SameLineage(a: Plan, b: Plan) {
    a.request == b.request && a.effect == b.effect && a.origin == b.origin && a.owner == b.owner
  }

  /** `Claimed` is a claim this process won; `Answered` what the venue answered, by its digest; `Finished` a terminal that
      is on record; `Unfinished` an attempt to record one that raised. */
  datatype Event =
    | Proved(plan: Plan, facts: VenueFacts, now: int)
    | Claimed(effect: nat)
    | Sent(plan: Plan)
    | Answered(canceled: bool, id: Id, digest: Digest)
    | Finished(effect: nat, status: TerminalStatus, result: Option<Digest>)
    | Unfinished(effect: nat)

  const SCOPE: nat := 0

  function KeyOf(effect: nat): ClaimKey {
    ClaimKey(WIRE_DISPATCH, SCOPE, effect)
  }

  /** `again` was proven after the claim was won, for the very plan that was proven before it. */
  predicate ProvenTwice(log: seq<Event>, again: Plan) {
    var n := |log|;
    && n >= 3 && log[n - 3].Proved? && log[n - 2] == Claimed(again.effect) && log[n - 1].Proved? && log[n - 1].plan == again
    && var first := log[n - 3].plan;
       first.request == again.request && first.effect == again.effect && first.origin == again.origin && first.owner == again.owner
  }

  ghost predicate StepOk(t: Tables, context: Digest, source: nat, log: seq<Event>, e: Event) {
    match e
    case Proved(plan, facts, now) =>
      WellShaped(facts) && Accepts(facts, source, plan.instrument, plan.trade, plan.role, plan.target, now)
    case Sent(plan) =>
      && KeyOf(plan.effect) in t.claims && t.claims[KeyOf(plan.effect)] == Claim(plan.request, context)
      && (forall e :: e in log && e.Sent? ==> e.plan.effect != plan.effect)
      && ProvenTwice(log, plan)
    case Finished(effect, status, result) =>
      && KeyOf(effect) in t.terminals
      && t.terminals[KeyOf(effect)].status == status && t.terminals[KeyOf(effect)].result == result
    case _ => true
  }

  ghost predicate Legal(t: Tables, context: Digest, source: nat, log: seq<Event>) {
    forall i :: 0 <= i < |log| ==> StepOk(t, context, source, log[..i], log[i])
  }

  lemma LegalAppend(t: Tables, context: Digest, source: nat, log: seq<Event>, e: Event)
    requires Legal(t, context, source, log) && StepOk(t, context, source, log, e)
    ensures Legal(t, context, source, log + [e])
  {
    var longer := log + [e];
    forall i | 0 <= i < |longer| ensures StepOk(t, context, source, longer[..i], longer[i]) {
      if i < |log| { assert longer[..i] == log[..i]; } else { assert longer[..i] == log; }
    }
  }

  lemma LegalStays(a: Tables, b: Tables, context: Digest, source: nat, log: seq<Event>)
    requires Legal(a, context, source, log) && Grows(a, b)
    ensures Legal(b, context, source, log)
  {
  }

  /** Every cancellation in a history went out once, right after venue facts that were fresh and about this very order,
      and under which letting it go keeps the cover. */
  lemma SentOnceAndCovered(t: Tables, context: Digest, source: nat, log: seq<Event>, i: nat)
    requires Legal(t, context, source, log) && i < |log| && log[i].Sent?
    ensures ProvenTwice(log[..i], log[i].plan)
    ensures i > 0 && log[i - 1].Proved? && log[i - 1].plan == log[i].plan
         && FreshFacts(log[i - 1].facts, source, log[i].plan.trade.account, log[i].plan.instrument, log[i - 1].now)
         && OwnOrder(log[i - 1].facts, log[i].plan.trade, log[i].plan.role, log[i].plan.target)
         && Covered(Removed(log[i - 1].facts, log[i].plan.role, log[i].plan.target), log[i].plan.trade)
    ensures forall j :: 0 <= j < |log| && j != i && log[j].Sent? ==> log[j].plan.effect != log[i].plan.effect
  {
    assert StepOk(t, context, source, log[..i], log[i]);
    assert log[..i][i - 1] == log[i - 1];
    assert StepOk(t, context, source, log[..i - 1], log[i - 1]);
    var p := log[i - 1];
    AcceptedIsFreshAndOwn(p.facts, source, p.plan.instrument, p.plan.trade, p.plan.role, p.plan.target, p.now);
    CancellationKeepsCover(p.facts, source, p.plan.instrument, p.plan.trade, p.plan.role, p.plan.target, p.now);
    forall j | 0 <= j < |log| && j != i && log[j].Sent? ensures log[j].plan.effect != log[i].plan.effect {
      if j < i {
        assert log[..i][j] == log[j];
      } else {
        assert StepOk(t, context, source, log[..j], log[j]);
        assert log[..j][i] == log[i];
      }
    }
  }

  /** The terminal is on record, or recording it raised. */
  predicate Ends(e: Event, effect: nat, status: TerminalStatus, result: Option<Digest>) {
    e == Finished(effect, status, result) || e == Unfinished(effect)
  }

  /** What an answer, or none, is worth: the venue's own CANCELED for this target completes the claim with the digest of
      that answer; anything else leaves it UNRESOLVED. */
  predicate Answering(effect: nat, target: Id, trail: seq<Event>, r: Outcome<Digest>) {
    if |trail| == 2 && trail[0].Answered? && trail[0].canceled && trail[0].id == target then
      && Ends(trail[1], effect, COMPLETED, Some(trail[0].digest))
      && (r.Done? ==> trail[1].Finished? && r.value == trail[0].digest)
    else
      && r == Raised && 1 <= |trail| <= 2 && (|trail| == 2 ==> trail[0].Answered?)
      && Ends(trail[|trail| - 1], effect, UNRESOLVED, None)
  }

  /** What becomes of a claim that was won for `plan`. */
  predicate Settling(effect: nat, target: Id, plan: Plan, trail: seq<Event>, r: Outcome<Digest>) {
    if |trail| >= 2 && trail[0].Proved? && trail[1] == Sent(trail[0].plan) then
      SameLineage(trail[0].plan, plan) && Answering(effect, target, trail[2..], r)
    else
      && r == Raised && 1 <= |trail| <= 2
      && (|trail| == 2 ==> trail[0].Proved? && !SameLineage(trail[0].plan, plan))
      && Ends(trail[|trail| - 1], effect, UNRESOLVED, None)
  }

  /** What one cancellation may leave behind. */
  predicate Cancelled(effect: nat, target: Id, trail: seq<Event>, r: Outcome<Digest>) {
    if |trail| <= 1 then r == Raised && (trail == [] || trail[0].Proved?)
    else trail[0].Proved? && trail[1] == Claimed(effect) && Settling(effect, target, trail[0].plan, trail[2..], r)
  }

  class Canceller {
    const claims: PostgresClaims
    const source: nat
    var log: seq<Event>

    constructor (claims: PostgresClaims, source: nat)
      requires Consistent(claims.tables)
      ensures Valid() && log == [] && this.claims == claims && this.source == source
    {
      this.claims, this.source, log := claims, source, [];
    }

    ghost predicate Valid()
      reads this, claims
    {
      Consistent(claims.tables) && Legal(claims.tables, claims.context, source, log)
    }

    /** `_prove`: durable ownership, owner arm and lineage are the environment's verdict; the venue facts are checked. */
    method Prove(effect: nat, role: Role, target: Id, instrument: Instrument) returns (r: Outcome<Plan>)
      requires Valid()
      modifies `log
      ensures Valid() && old(log) <= log
      ensures r.IsFailure() ==> log == old(log)
      ensures r.Done? ==>
        && r.value.effect == effect && r.value.role == role && r.value.target == target && r.value.instrument == instrument
        && |log| == |old(log)| + 1 && log[|log| - 1].Proved? && log[|log| - 1].plan == r.value
    {
      var lineage: bool, trade: Trade, facts: VenueFacts, now: int := *, *, *, *;
      var origin: Digest, owner: Digest, request: Digest := *, *, *;
      var plan := Plan(effect, role, target, instrument, trade, origin, owner, request);
      if !lineage || !WellShaped(facts) || !Accepts(facts, source, instrument, trade, role, target, now) { return Raised; }
      LegalAppend(claims.tables, claims.context, source, log, Proved(plan, facts, now));
      log := log + [Proved(plan, facts, now)];
      return Done(plan);
    }

    /** `_cancel`: the transport is called by the one caller that won the claim, on a plan proven again with the same
        lineage; the cover is that of the second proof, on the row as it then was. A claim that was won never stays
        without an attempt to record what became of it. */
    method Cancel(effect: nat, role: Role, target: Id, instrument: Instrument) returns (r: Outcome<Digest>)
      requires Valid()
      modifies this, claims
      ensures Valid() && old(log) <= log && Grows(old(claims.tables), claims.tables)
      ensures !r.Crashed? ==> Cancelled(effect, target, log[|old(log)|..], r)
      ensures r.Done? ==>
        && KeyOf(effect) !in old(claims.tables).claims
        && KeyOf(effect) in claims.tables.terminals
        && claims.tables.terminals[KeyOf(effect)].status == COMPLETED
        && claims.tables.terminals[KeyOf(effect)].result == Some(r.value)
      ensures KeyOf(effect) in old(claims.tables).claims ==>
        forall e :: e in log && (e.Sent? || e.Claimed?) ==> e in old(log)
    {
      hide Legal, Consistent, Grows, WellShaped, Accepts, Settling;
      GrowsAlways();
      var k := KeyOf(effect);
      ghost var before := claims.tables;
      var plan :- Prove(effect, role, target, instrument);
      ghost var proved := log;
      assert log[|old(log)|..] == [log[|log| - 1]];
      var claimed := claims.TryClaim(k, plan.request);
      LegalStays(before, claims.tables, claims.context, source, log);
      if claimed.IsFailure() { return if claimed.Crashed? then Crashed else Raised; }
      if !claimed.value { return Raised; }
      ClaimedIsUnsent(before, claims.context, source, proved, effect);
      LegalAppend(claims.tables, claims.context, source, log, Claimed(effect));
      log := log + [Claimed(effect)];
      ghost var won := log;
      r := SettleClaim(effect, role, target, instrument, plan);
      assert log[|old(log)|..][2..] == log[|won|..];
      assert log[|old(log)|..][0] == won[|won| - 2] && log[|old(log)|..][1] == won[|won| - 1];
    }

    /** What follows a claim that was won: the second proof, the one call, and the terminal. */
    method SettleClaim(effect: nat, role: Role, target: Id, instrument: Instrument, plan: Plan) returns (r: Outcome<Digest>)
      requires Valid() && |log| >= 2 && log[|log| - 2].Proved? && log[|log| - 2].plan == plan && log[|log| - 1] == Claimed(effect)
      requires plan.effect == effect && forall e :: e in log && e.Sent? ==> e.plan.effect != effect
      requires KeyOf(effect) in claims.tables.claims && claims.tables.claims[KeyOf(effect)] == Claim(plan.request, claims.context)
      modifies this, claims
      ensures Valid() && old(log) <= log && Grows(old(claims.tables), claims.tables)
      ensures !r.Crashed? ==> Settling(effect, target, plan, log[|old(log)|..], r)
      ensures r.Done? ==>
        && KeyOf(effect) in claims.tables.terminals
        && claims.tables.terminals[KeyOf(effect)].status == COMPLETED
        && claims.tables.terminals[KeyOf(effect)].result == Some(r.value)
    {
      hide Legal, Consistent, Grows, WellShaped, Accepts;
      GrowsAlways();
      ghost var start := log;
      var again := Prove(effect, role, target, instrument);
      if again.Crashed? { return Crashed; }
      if again.Raised? || !SameLineage(again.value, plan) {
        ghost var failed := log[|start|..];
        var recorded := Record(effect, plan.request, UNRESOLVED, None);
        assert !recorded.Crashed? ==> log[|start|..] == failed + [log[|log| - 1]];
        return if recorded.Crashed? then Crashed else Raised;
      }
      assert log == start + [log[|log| - 1]];
      LegalAppend(claims.tables, claims.context, source, log, Sent(again.value));
      log := log + [Sent(again.value)];
      assert log[|start|..] == [log[|log| - 2], Sent(again.value)];
      ghost var sent := log;
      r := AwaitAnswer(effect, target, plan.request);
      assert log[|start|..][2..] == log[|sent|..];
      assert log[|start|] == sent[|start|] && log[|start| + 1] == sent[|start| + 1];
      hide Answering;
    }

    /** The answer to the call that just went out, and the terminal it is worth. */
    method AwaitAnswer(effect: nat, target: Id, request: Digest) returns (r: Outcome<Digest>)
      requires Valid()
      modifies this, claims
      ensures Valid() && old(log) <= log && Grows(old(claims.tables), claims.tables)
      ensures !r.Crashed? ==> Answering(effect, target, log[|old(log)|..], r)
      ensures r.Done? ==>
        && KeyOf(effect) in claims.tables.terminals
        && claims.tables.terminals[KeyOf(effect)].status == COMPLETED
        && claims.tables.terminals[KeyOf(effect)].result == Some(r.value)
    {
      hide Legal, Consistent, Grows, WellShaped, Accepts;
      GrowsAlways();
      ghost var start := log;
      var answered: bool, lost: bool, canceled: bool, id: Id, digest: Digest := *, *, *, *, *;
      if lost { return Crashed; }
      if answered {
        LegalAppend(claims.tables, claims.context, source, log, Answered(canceled, id, digest));
        log := log + [Answered(canceled, id, digest)];
      }
      ghost var heard := log[|start|..];
      if !answered || !canceled || id != target {
        var recorded := Record(effect, request, UNRESOLVED, None);
        assert !recorded.Crashed? ==> log[|start|..] == heard + [log[|log| - 1]];
        return if recorded.Crashed? then Crashed else Raised;
      }
      var recorded := Record(effect, request, COMPLETED, Some(digest));
      assert !recorded.Crashed? ==> log[|start|..] == heard + [log[|log| - 1]];
      if recorded.IsFailure() { return recorded.PropagateFailure(); }
      var confirmed: bool := *;
      r := if confirmed then Done(digest) else Raised;
    }

    /** `_finish_shielded`. */
    method Record(effect: nat, request: Digest, status: TerminalStatus, result: Option<Digest>) returns (r: Outcome<()>)
      requires Valid()
      modifies `log, claims
      ensures Valid() && Grows(old(claims.tables), claims.tables)
      ensures match r
              case Done(_) =>
                && log == old(log) + [Finished(effect, status, result)]
                && KeyOf(effect) in claims.tables.terminals
                && claims.tables.terminals[KeyOf(effect)] == Terminal(request, status, result)
              case Raised => log == old(log) + [Unfinished(effect)]
              case Crashed => log == old(log)
    {
      hide Legal;
      ghost var before := claims.tables;
      r := claims.Finish(KeyOf(effect), request, status, result);
      LegalStays(before, claims.tables, claims.context, source, log);
      if r.Crashed? { return; }
      var e := if r.Done? then Finished(effect, status, result) else Unfinished(effect);
      LegalAppend(claims.tables, claims.context, source, log, e);
      log := log + [e];
    }
  }

  lemma GrowsAlways()
    ensures forall a :: Grows(a, a)
    ensures forall a, b, c {:trigger Grows(a, b), Grows(b, c)} :: Grows(a, b) && Grows(b, c) ==> Grows(a, c)
    ensures forall a, b, k {:trigger Grows(a, b), k in b.claims} ::
              Grows(a, b) && k in a.claims ==> k in b.claims && b.claims[k] == a.claims[k]
  {
  }

  lemma ClaimedIsUnsent(t: Tables, context: Digest, source: nat, log: seq<Event>, effect: nat)
    requires Legal(t, context, source, log) && KeyOf(effect) !in t.claims
    ensures forall e :: e in log && e.Sent? ==> e.plan.effect != effect
  {
  }
}
