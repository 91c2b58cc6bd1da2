/** The journaled exchange adapter: intent is durable before any mutation, redelivery replays what is on record,
    and an effect left PREPARED by a crash is settled only by what the venue is seen to hold. */
module JournaledAdapter {
  import opened Outcomes

  type Id = nat
  type Symbol = nat

  datatype Side = BUY | SELL

  datatype Kind = PLACE | CLOSE | STOP | CANCEL | LEVERAGE

  /** Effect keys are digests of kind and identity, injective by assumption. */
  datatype Key = Key(kind: Kind, identity: Id)

  datatype Report = Report(client: Id, symbol: Symbol, side: Side, canceled: bool, requested: real, answer: nat)

  datatype Intent = Intent(client: Id, symbol: Symbol, side: Side, quantity: real)

  datatype Request =
    | PlaceRequest(intent: Intent)
    | CloseRequest(symbol: Symbol, quantity: Option<real>, side: Option<Side>)
    | StopRequest(symbol: Symbol, price: real, position: Side, parent: Id)
    | CancelRequest(symbol: Symbol)
    | LeverageRequest(symbol: Symbol, leverage: real)

  datatype Payload =
    | ReportPayload(report: Report)
    | StopPayload(stop: Id)
    | StopNotRequired
    | InactivePayload
    | LeveragePayload

  datatype Status = PREPARED | CONFIRMED | RECONCILED | FAILED

  datatype Effect = Effect(status: Status, request: Request, payload: Option<Payload>)

  /** `Answered` is what the venue returned to the call before it; `Faulted` is an await that raised. */
  datatype Event =
    | Prepared(key: Key)
    | Called(key: Key, request: Request)
    | Answered(key: Key, answer: Payload)
    | CancelSent(client: Id)
    | SawActive(client: Id, active: bool)
    | SawFlat(symbol: Symbol, flat: bool)
    | FoundStop(symbol: Symbol, parent: Id, stop: Id)
    | Confirmed(key: Key, payload: Payload)
    | Reconciled(key: Key, payload: Payload)
    | Faulted

  predicate Settled(s: Status) {
    s in {CONFIRMED, RECONCILED}
  }

  predicate Fits(k: Key, r: Request) {
    match r
    case PlaceRequest(intent) => k == Key(PLACE, intent.client)
    case CloseRequest(_, _, _) => k.kind == CLOSE
    case StopRequest(_, _, _, parent) => k == Key(STOP, parent)
    case CancelRequest(_) => k.kind == CANCEL
    case LeverageRequest(_, _) => k.kind == LEVERAGE
  }

  predicate Pays(k: Key, p: Payload) {
    match k.kind
    case PLACE => p.ReportPayload?
    case CLOSE => p.ReportPayload?
    case STOP => p.StopPayload? || p.StopNotRequired?
    case CANCEL => p.InactivePayload?
    case LEVERAGE => p.LeveragePayload?
  }

  /** What the venue may answer to a call. */
  predicate Answers(k: Key, p: Payload) {
    Pays(k, p) && !p.StopNotRequired?
  }

  /** The neutral report of an effect that recovery found to have left nothing behind. */
  function Neutral(intent: Intent): Report {
    Report(intent.client, intent.symbol, intent.side, true, intent.quantity, 0)
  }

  function NeutralClose(client: Id, symbol: Symbol, quantity: Option<real>, side: Option<Side>): Report {
    Report(client, symbol, if side.Some? then side.value else BUY, true, if quantity.Some? then quantity.value else 0.0, 0)
  }

  /** The report claims nothing beyond the request: it is cancelled, and speaks about exactly what was asked. */
  predicate ClaimsNothing(k: Key, r: Request, report: Report) {
    && report.canceled && report.client == k.identity && report.symbol == SymbolOf(r)
    && match r
       case PlaceRequest(intent) => report.side == intent.side && report.requested == intent.quantity
       case CloseRequest(_, quantity, side) =>
         && (side.Some? ==> report.side == side.value) && (side == None ==> report.side == BUY)
         && (quantity.Some? ==> report.requested == quantity.value) && (quantity == None ==> report.requested == 0.0)
       case _ => false
  }

  /** The symbol a request concerns. */
  function SymbolOf(r: Request): Symbol {
    match r
    case PlaceRequest(intent) => intent.symbol
    case CloseRequest(symbol, _, _) => symbol
    case StopRequest(symbol, _, _, _) => symbol
    case CancelRequest(symbol) => symbol
    case LeverageRequest(symbol, _) => symbol
  }

  /** Placing and closing must reach the venue once; creating a stop and cancelling may be repeated. */
  predicate OneShot(k: Key) {
    k.kind in {PLACE, CLOSE, LEVERAGE}
  }

  // ---------------------------------------------------------------- history

  /** What recovery saw immediately before it settled an effect, and what it then put on record. */
  predicate ReconciledOnEvidence(log: seq<Event>, k: Key, r: Request, p: Payload) {
    var n := |log|;
    match k.kind
    case PLACE =>
      && n >= 2 && log[n - 1] == SawFlat(SymbolOf(r), true) && log[n - 2] == SawActive(k.identity, false)
      && p.ReportPayload? && ClaimsNothing(k, r, p.report)
    case CLOSE => n >= 1 && log[n - 1] == SawFlat(SymbolOf(r), true) && p.ReportPayload? && ClaimsNothing(k, r, p.report)
    case STOP =>
      && n >= 1
      && if log[n - 1] == SawFlat(SymbolOf(r), true) then p == StopNotRequired
         else p.StopPayload? && log[n - 1] == FoundStop(SymbolOf(r), k.identity, p.stop)
    case CANCEL => n >= 1 && log[n - 1] == SawActive(k.identity, false) && p == InactivePayload
    case LEVERAGE => false
  }

  /** The effect was called, and this is what it was confirmed with: the venue's answer, as it came; or, for a
      cancellation, that the order was seen inactive afterwards. */
  predicate ConfirmedOnAnswer(log: seq<Event>, k: Key, p: Payload) {
    && |log| > 0
    && if k.kind == CANCEL then
         p == InactivePayload && log[|log| - 1] == SawActive(k.identity, false) && exists e :: e in log && IsCall(e, k)
       else log[|log| - 1] == Answered(k, p)
  }

  predicate IsCall(e: Event, k: Key) {
    e.Called? && e.key == k
  }

  /** `e` may follow `log`, given the requests on record. */
  ghost predicate StepOk(effects: map<Key, Effect>, log: seq<Event>, e: Event) {
    match e
    case Called(k, request) =>
      && Prepared(k) in log && k in effects && request == effects[k].request
      && (OneShot(k) ==> forall x :: x in log ==> !IsCall(x, k))
    case Answered(k, _) => |log| > 0 && IsCall(log[|log| - 1], k)
    case CancelSent(client) => Prepared(Key(PLACE, client)) in log
    case Prepared(k) => Prepared(k) !in log
    case Confirmed(k, p) => ConfirmedOnAnswer(log, k, p)
    case Reconciled(k, p) => k in effects && ReconciledOnEvidence(log, k, effects[k].request, p)
    case _ => true
  }

  ghost predicate Legal(effects: map<Key, Effect>, log: seq<Event>) {
    forall i :: 0 <= i < |log| ==> StepOk(effects, log[..i], log[i])
  }

  ghost predicate RowsOk(effects: map<Key, Effect>, log: seq<Event>) {
    forall k :: k in effects ==>
      && Fits(k, effects[k].request)
      && (Settled(effects[k].status) <==> effects[k].payload.Some?)
      && (effects[k].payload.Some? ==> Pays(k, effects[k].payload.value))
      && (effects[k].status == CONFIRMED ==> Confirmed(k, effects[k].payload.value) in log)
      && (effects[k].status == RECONCILED ==> Reconciled(k, effects[k].payload.value) in log)
  }

  ghost predicate Inv(effects: map<Key, Effect>, log: seq<Event>) {
    && (forall k :: k in effects <==> Prepared(k) in log)
    && RowsOk(effects, log)
    && Legal(effects, log)
  }

  /** No row is lost, no request changes, a settled row stays as it is, and the history grows. */
  ghost predicate Advances(a: map<Key, Effect>, x: seq<Event>, b: map<Key, Effect>, y: seq<Event>) {
    && x <= y
    && forall k :: k in a ==> k in b && b[k].request == a[k].request && (Settled(a[k].status) ==> b[k] == a[k])
  }

  lemma AdvancesTransitive()
    ensures forall a, x, b, y, c, z {:trigger Advances(a, x, b, y), Advances(b, y, c, z)} ::
              Advances(a, x, b, y) && Advances(b, y, c, z) ==> Advances(a, x, c, z)
    ensures forall a, x :: Advances(a, x, a, x)
  {
  }

  lemma LegalAppend(effects: map<Key, Effect>, log: seq<Event>, e: Event)
    requires Legal(effects, log) && StepOk(effects, log, e)
    ensures Legal(effects, log + [e])
  {
    var longer := log + [e];
    forall i | 0 <= i < |longer| ensures StepOk(effects, longer[..i], longer[i]) {
      if i < |log| { assert longer[..i] == log[..i]; } else { assert longer[..i] == log; }
    }
  }

  /** Legality reads only the requests, which never change. */
  lemma LegalStays(a: map<Key, Effect>, b: map<Key, Effect>, log: seq<Event>)
    requires Legal(a, log) && forall k :: k in a ==> k in b && b[k].request == a[k].request
    ensures Legal(b, log)
  {
  }

  /** Every call carries the request on record, and every one-shot effect reached the venue at most once, and only after
      its row was durable. */
  lemma CalledOnce(effects: map<Key, Effect>, log: seq<Event>, i: nat)
    requires Legal(effects, log) && i < |log| && log[i].Called?
    ensures Prepared(log[i].key) in log[..i]
    ensures log[i].key in effects && log[i].request == effects[log[i].key].request
    ensures OneShot(log[i].key) ==> forall j :: 0 <= j < |log| && j != i ==> !IsCall(log[j], log[i].key)
  {
    assert StepOk(effects, log[..i], log[i]);
    if OneShot(log[i].key) {
      forall j | 0 <= j < |log| && j != i ensures !IsCall(log[j], log[i].key) {
        assert StepOk(effects, log[..j], log[j]);
        if j < i { assert log[..i][j] in log[..i]; } else { assert log[..j][i] in log[..j]; }
      }
    }
  }

  /** What is on record as CONFIRMED is what the venue answered to the call, as it came. */
  lemma ConfirmedWasAnswered(effects: map<Key, Effect>, log: seq<Event>, k: Key)
    requires Inv(effects, log) && k in effects && effects[k].status == CONFIRMED && k.kind != CANCEL
    ensures
      exists i ::
        && 0 <= i < |log| - 2 && log[i] == Called(k, effects[k].request)
        && log[i + 1] == Answered(k, effects[k].payload.value) && log[i + 2] == Confirmed(k, effects[k].payload.value)
  {
    var p := effects[k].payload.value;
    var j :| 0 <= j < |log| && log[j] == Confirmed(k, p);
    assert ConfirmedOnAnswer(log[..j], k, p) by { assert StepOk(effects, log[..j], log[j]); }
    assert log[j - 1] == log[..j][j - 1];
    assert j > 1 && IsCall(log[..j - 1][j - 2], k) by { assert StepOk(effects, log[..j - 1], log[j - 1]); }
    assert log[j - 2].request == effects[k].request by { assert StepOk(effects, log[..j - 2], log[j - 2]); }
    hide Inv, StepOk;
    assert log[j - 2 + 2] == log[j];
  }

  /** What is on record as RECONCILED claims nothing that was not seen: an order and a close claim no fill at all, right
      after the position was seen flat, and for an order after it was seen inactive; a stop is the one that was found. */
  lemma ReconciledWasSeen(effects: map<Key, Effect>, log: seq<Event>, k: Key)
    requires Inv(effects, log) && k in effects && effects[k].status == RECONCILED
    ensures
      exists i ::
        && 0 <= i < |log| && log[i] == Reconciled(k, effects[k].payload.value)
        && ReconciledOnEvidence(log[..i], k, effects[k].request, effects[k].payload.value)
  {
    var i :| 0 <= i < |log| && log[i] == Reconciled(k, effects[k].payload.value);
    assert StepOk(effects, log[..i], log[i]);
  }

  /** A recovered placement was settled right after its order was seen inactive and then the position seen flat. */
  lemma RecoveredPlaceWasFlat(effects: map<Key, Effect>, log: seq<Event>, client: Id)
    requires Inv(effects, log) && Key(PLACE, client) in effects && effects[Key(PLACE, client)].status == RECONCILED
    ensures
      var row := effects[Key(PLACE, client)];
      && row.request.PlaceRequest? && row.payload.value.ReportPayload?
      && row.payload.value.report.canceled && row.payload.value.report.client == client
      && row.payload.value.report.requested == row.request.intent.quantity
      && exists i ::
           && 2 <= i < |log| && log[i] == Reconciled(Key(PLACE, client), row.payload.value)
           && log[i - 1] == SawFlat(row.request.intent.symbol, true) && log[i - 2] == SawActive(client, false)
  {
    var k := Key(PLACE, client);
    RowFacts(effects, log, k);
    ReconciledWasSeen(effects, log, k);
    hide Inv;
    var i :| 0 <= i < |log| && log[i] == Reconciled(k, effects[k].payload.value)
          && ReconciledOnEvidence(log[..i], k, effects[k].request, effects[k].payload.value);
    assert log[..i][i - 1] == log[i - 1] && log[..i][i - 2] == log[i - 2];
  }

  // ---------------------------------------------------------------- adapter

  /** A stop call may also learn that protection is no longer required. */
  datatype StopOutcome = Protected(stop: Id) | NotRequired

  datatype Command =
    | Place(intent: Intent)
    | Close(client: Id, symbol: Symbol, quantity: Option<real>, side: Option<Side>)
    | Stop(symbol: Symbol, price: real, position: Side, parent: Id)
    | Cancel(symbol: Symbol, client: Id)
    | Leverage(symbol: Symbol, identity: Id, leverage: real)
    | Recover(listed: seq<Key>)
    | Fail(key: Key)

  function StopPaid(s: StopOutcome): Payload {
    if s.Protected? then StopPayload(s.stop) else StopNotRequired
  }

  function OutcomeOf(k: Key, status: Status, p: Payload): Event {
    if status == CONFIRMED then Confirmed(k, p) else Reconciled(k, p)
  }

  /** Nothing more was sent for this key. */
  ghost predicate NotSent(before: seq<Event>, after: seq<Event>, k: Key) {
    forall x :: x in after && IsCall(x, k) ==> x in before
  }

  /** A settled key is answered from the journal, and one used for another request is refused: neither touches venue
      or journal. */
  ghost predicate Replays(k: Key, request: Request, effects: map<Key, Effect>, log: seq<Event>,
                          after: map<Key, Effect>, history: seq<Event>, done: bool)
  {
    k in effects && (Settled(effects[k].status) || effects[k].request != request) ==>
      && after == effects && (forall x :: x in history && x !in log ==> x == Faulted)
      && (effects[k].request != request ==> !done)
  }

  /** A new key was journalled, sent once, and confirmed with the venue's own answer. */
  ghost predicate SentOnce(k: Key, request: Request, p: Payload, effects: map<Key, Effect>, log: seq<Event>,
                           after: map<Key, Effect>, history: seq<Event>)
  {
    && history == log + [Prepared(k), Called(k, request), Answered(k, p), Confirmed(k, p)]
    && after == effects[k := Effect(CONFIRMED, request, Some(p))]
  }

  lemma AllCalledOnce(effects: map<Key, Effect>, log: seq<Event>)
    requires Inv(effects, log)
    ensures forall i :: 0 <= i < |log| && log[i].Called? ==>
      && Prepared(log[i].key) in log[..i]
      && (OneShot(log[i].key) ==> forall j :: 0 <= j < |log| && j != i ==> !IsCall(log[j], log[i].key))
  {
    hide Legal;
    forall i | 0 <= i < |log| && log[i].Called?
      ensures Prepared(log[i].key) in log[..i]
      ensures OneShot(log[i].key) ==> forall j :: 0 <= j < |log| && j != i ==> !IsCall(log[j], log[i].key)
    {
      CalledOnce(effects, log, i);
    }
  }

  class Adapter {
    const stopLookup: bool
    var effects: map<Key, Effect>
    var log: seq<Event>

    constructor (stopLookup: bool)
      ensures Inv(effects, log) && effects == map[] && log == [] && this.stopLookup == stopLookup
    {
      this.stopLookup, effects, log := stopLookup, map[], [];
    }

    /** The process is lost, or the await raises, which stays on record. */
    method Failure<T>() returns (r: Outcome<T>)
      requires Inv(effects, log)
      modifies `log
      ensures Inv(effects, log) && Advances(effects, old(log), effects, log)
      ensures r.IsFailure() && log == old(log) + if r.Raised? then [Faulted] else []
    {
      var lost: bool := *;
      hide Inv, Advances;
      AdvancesTransitive();
      if lost { return Crashed; }
      Record(Faulted);
      return Raised;
    }

    method Record(e: Event)
      requires Inv(effects, log) && StepOk(effects, log, e) && !e.Prepared?
      modifies `log
      ensures Inv(effects, log) && log == old(log) + [e] && Advances(effects, old(log), effects, log)
    {
      LegalAppend(effects, log, e);
      log := log + [e];
    }

    /** `journal.prepare`: the row is inserted once and a changed request is refused; a failure may follow the commit. */
    method Prepare(k: Key, request: Request) returns (r: Outcome<bool>)
      requires Inv(effects, log) && Fits(k, request)
      modifies this
      ensures Inv(effects, log) && Advances(old(effects), old(log), effects, log)
      ensures r.Raised? ==> |log| > |old(log)| && log[|log| - 1] == Faulted
      ensures forall x :: x in log && x !in old(log) ==> x in {Prepared(k), Faulted}
      ensures r.Done? ==> k in effects && (r.value <==> k !in old(effects)) && effects[k].request == request
      ensures r.Done? ==>
        if r.value then effects == old(effects)[k := Effect(PREPARED, request, None)] && log == old(log) + [Prepared(k)]
        else effects == old(effects) && log == old(log)
      ensures k in old(effects) ==>
        effects == old(effects) && log == old(log) + if r.Raised? then [Faulted] else []
    {
      hide Inv, Advances;
      AdvancesTransitive();
      PreparedOnce(effects, log, k);
      var lost: bool := *;
      if lost || (k in effects && effects[k].request != request) {
        r := Failure();
        return;
      }
      var created := k !in effects;
      if created {
        PrepareKeeps(effects, log, k, request);
        effects, log := effects[k := Effect(PREPARED, request, None)], log + [Prepared(k)];
      }
      var ok: bool := *;
      if ok { return Done(created); }
      r := Failure();
    }

    /** `journal.confirm` and `journal.reconcile`. */
    method Settle(k: Key, status: Status, p: Payload) returns (r: Outcome<()>)
      requires Inv(effects, log) && k in effects && !Settled(effects[k].status) && Settled(status) && Pays(k, p)
      requires StepOk(effects, log, OutcomeOf(k, status, p))
      modifies this
      ensures Inv(effects, log) && Advances(old(effects), old(log), effects, log)
      ensures forall x :: x in log && x !in old(log) ==> x in {OutcomeOf(k, status, p), Faulted}
      ensures r.Raised? ==> |log| > |old(log)| && log[|log| - 1] == Faulted
      ensures effects in {old(effects), old(effects)[k := Effect(status, old(effects)[k].request, Some(p))]}
      ensures r.Done? ==>
        && effects == old(effects)[k := Effect(status, old(effects)[k].request, Some(p))]
        && log == old(log) + [OutcomeOf(k, status, p)]
    {
      hide Inv, StepOk, Advances;
      AdvancesTransitive();
      var lost: bool := *;
      if !lost {
        SettleKeeps(effects, log, k, status, p);
        effects, log := effects[k := Effect(status, effects[k].request, Some(p))], log + [OutcomeOf(k, status, p)];
      }
      var ok: bool := *;
      if ok && !lost { return Done(()); }
      r := Failure();
    }

    /** The venue cancellation that recovers a placement: it has no journal row of its own. */
    method CancelAtVenue(client: Id) returns (r: Outcome<()>)
      requires Inv(effects, log) && Key(PLACE, client) in effects
      modifies `log
      ensures Inv(effects, log) && Advances(effects, old(log), effects, log)
      ensures log == old(log) + if r.Raised? then [CancelSent(client), Faulted] else [CancelSent(client)]
    {
      hide Inv, Advances, StepOk;
      AdvancesTransitive();
      PreparedOnce(effects, log, Key(PLACE, client));
      MayCancel(effects, log, client);
      Record(CancelSent(client));
      var ok: bool := *;
      if ok { return Done(()); }
      r := Failure();
    }

    /** One venue mutation, with the request on record, issued whatever becomes of its answer. */
    method Call(k: Key) returns (r: Outcome<Payload>)
      requires Inv(effects, log) && k in effects && (OneShot(k) ==> forall x :: x in log ==> !IsCall(x, k))
      modifies `log
      ensures Inv(effects, log) && Advances(effects, old(log), effects, log)
      ensures match r
              case Done(answer) => Answers(k, answer) && log == old(log) + [Called(k, effects[k].request), Answered(k, answer)]
              case Raised => log == old(log) + [Called(k, effects[k].request), Faulted]
              case Crashed => log == old(log) + [Called(k, effects[k].request)]
    {
      hide Inv, Advances, StepOk;
      AdvancesTransitive();
      MayCall(effects, log, k);
      Record(Called(k, effects[k].request));
      var answer: Payload, ok: bool := *, *;
      if ok && Answers(k, answer) {
        MayAnswer(effects, log, k, answer);
        Record(Answered(k, answer));
        return Done(answer);
      }
      r := Failure();
    }

    method IsActive(client: Id) returns (r: Outcome<bool>)
      requires Inv(effects, log)
      modifies `log
      ensures Inv(effects, log) && Advances(effects, old(log), effects, log)
      ensures match r
              case Done(active) => log == old(log) + [SawActive(client, active)]
              case Raised => log == old(log) + [Faulted]
              case Crashed => log == old(log)
    {
      var active: bool, ok: bool := *, *;
      if ok {
        Record(SawActive(client, active));
        return Done(active);
      }
      r := Failure();
    }

    method IsFlat(symbol: Symbol) returns (r: Outcome<bool>)
      requires Inv(effects, log)
      modifies `log
      ensures Inv(effects, log) && Advances(effects, old(log), effects, log)
      ensures match r
              case Done(flat) => log == old(log) + [SawFlat(symbol, flat)]
              case Raised => log == old(log) + [Faulted]
              case Crashed => log == old(log)
    {
      var flat: bool, ok: bool := *, *;
      if ok {
        Record(SawFlat(symbol, flat));
        return Done(flat);
      }
      r := Failure();
    }

    method FindStop(symbol: Symbol, parent: Id) returns (r: Outcome<Option<Id>>)
      requires Inv(effects, log)
      modifies `log
      ensures Inv(effects, log) && Advances(effects, old(log), effects, log)
      ensures match r
              case Done(Some(stop)) => log == old(log) + [FoundStop(symbol, parent, stop)]
              case Raised => log == old(log) + [Faulted]
              case _ => log == old(log)
    {
      var found: Option<Id>, ok: bool := *, *;
      if !ok {
        r := Failure();
        return;
      }
      if found.Some? { Record(FoundStop(symbol, parent, found.value)); }
      return Done(found);
    }

    /** `place_order`: sent by the one caller that created the row; every later call replays the recorded report. */
    method PlaceOrder(intent: Intent) returns (r: Outcome<Report>)
      requires Inv(effects, log)
      modifies this
      ensures Inv(effects, log) && Advances(old(effects), old(log), effects, log)
      ensures r.Done? ==>
        var k := Key(PLACE, intent.client);
        k in effects && Settled(effects[k].status) && effects[k].payload == Some(ReportPayload(r.value))
      ensures Replays(Key(PLACE, intent.client), PlaceRequest(intent), old(effects), old(log), effects, log, r.Done?)
      ensures Key(PLACE, intent.client) !in old(effects) && r.Done? ==>
        SentOnce(Key(PLACE, intent.client), PlaceRequest(intent), ReportPayload(r.value), old(effects), old(log), effects, log)
    {
      hide Inv, Advances, StepOk;
      AdvancesTransitive();
      var k := Key(PLACE, intent.client);
      NewMeansUncalled(effects, log, k);
      var created :- Prepare(k, PlaceRequest(intent));
      RowFacts(effects, log, k);
      if !created {
        if Settled(effects[k].status) { return Done(effects[k].payload.value.report); }
        r := RecoverPlace(intent);
        return;
      }
      var answer :- Call(k);
      JustAnswered(effects, log, k, answer);
      var _ :- Settle(k, CONFIRMED, answer);
      return Done(answer.report);
    }

    /** `close_position`. */
    method ClosePosition(client: Id, symbol: Symbol, quantity: Option<real>, side: Option<Side>) returns (r: Outcome<Report>)
      requires Inv(effects, log)
      modifies this
      ensures Inv(effects, log) && Advances(old(effects), old(log), effects, log)
      ensures r.Done? ==>
        var k := Key(CLOSE, client);
        k in effects && Settled(effects[k].status) && effects[k].payload == Some(ReportPayload(r.value))
      ensures Replays(Key(CLOSE, client), CloseRequest(symbol, quantity, side), old(effects), old(log), effects, log, r.Done?)
      ensures Key(CLOSE, client) !in old(effects) && r.Done? ==>
        SentOnce(Key(CLOSE, client), CloseRequest(symbol, quantity, side), ReportPayload(r.value),
                 old(effects), old(log), effects, log)
    {
      hide Inv, Advances, StepOk;
      AdvancesTransitive();
      var k := Key(CLOSE, client);
      NewMeansUncalled(effects, log, k);
      var created :- Prepare(k, CloseRequest(symbol, quantity, side));
      RowFacts(effects, log, k);
      if !created {
        if Settled(effects[k].status) { return Done(effects[k].payload.value.report); }
        r := RecoverClose(client, quantity, side);
        return;
      }
      var answer :- Call(k);
      JustAnswered(effects, log, k, answer);
      var _ :- Settle(k, CONFIRMED, answer);
      return Done(answer.report);
    }

    /** `set_protective_stop`: created once, except where recovery finds it absent and the position open. */
    method SetProtectiveStop(symbol: Symbol, price: real, position: Side, parent: Id) returns (r: Outcome<StopOutcome>)
      requires Inv(effects, log)
      modifies this
      ensures Inv(effects, log) && Advances(old(effects), old(log), effects, log)
      ensures r.Done? ==> Key(STOP, parent) in effects && Settled(effects[Key(STOP, parent)].status)
      ensures r.Done? ==> effects[Key(STOP, parent)].payload == Some(StopPaid(r.value))
      ensures Replays(Key(STOP, parent), StopRequest(symbol, price, position, parent), old(effects), old(log), effects, log, r.Done?)
      ensures Key(STOP, parent) !in old(effects) && r.Done? ==>
        SentOnce(Key(STOP, parent), StopRequest(symbol, price, position, parent), StopPaid(r.value),
                 old(effects), old(log), effects, log)
    {
      hide Inv, Advances, StepOk;
      AdvancesTransitive();
      var k := Key(STOP, parent);
      NewMeansUncalled(effects, log, k);
      var created :- Prepare(k, StopRequest(symbol, price, position, parent));
      RowFacts(effects, log, k);
      if !created {
        if Settled(effects[k].status) {
          if !effects[k].payload.value.StopPayload? { return Raised; }
          return Done(Protected(effects[k].payload.value.stop));
        }
        if effects[k].status == FAILED { return Raised; }
        r := RecoverStop(parent);
        return;
      }
      var answer :- Call(k);
      JustAnswered(effects, log, k, answer);
      var _ :- Settle(k, CONFIRMED, answer);
      return Done(Protected(answer.stop));
    }

    /** `cancel_order_by_client_id`: settled only when the order is seen inactive. */
    method CancelOrder(symbol: Symbol, client: Id) returns (r: Outcome<()>)
      requires Inv(effects, log)
      modifies this
      ensures Inv(effects, log) && Advances(old(effects), old(log), effects, log)
      ensures r.Done? ==> Key(CANCEL, client) in effects && Settled(effects[Key(CANCEL, client)].status)
      ensures Replays(Key(CANCEL, client), CancelRequest(symbol), old(effects), old(log), effects, log, r.Done?)
      ensures Key(CANCEL, client) in old(effects) && old(effects)[Key(CANCEL, client)].status == PREPARED && !r.Crashed? ==>
        |log| > |old(log)|
    {
      hide Inv, Advances, StepOk;
      AdvancesTransitive();
      var k := Key(CANCEL, client);
      var created :- Prepare(k, CancelRequest(symbol));
      if !created {
        if Settled(effects[k].status) { return Done(()); }
        if effects[k].status == FAILED { return Raised; }
      }
      var active :- IsActive(client);
      if !active {
        SeenInactive(effects, log, k);
        r := Settle(k, RECONCILED, InactivePayload);
        return;
      }
      var answer :- Call(k);
      ghost var called := log;
      assert IsCall(called[|called| - 2], k) && called[|called| - 1] == Answered(k, answer);
      var still :- IsActive(client);
      if still { return Raised; }
      assert log[|called| - 2] == called[|called| - 2];
      SeenInactive(effects, log, k);
      r := Settle(k, CONFIRMED, InactivePayload);
    }

    /** `set_leverage`. */
    method SetLeverage(symbol: Symbol, identity: Id, leverage: real) returns (r: Outcome<()>)
      requires Inv(effects, log)
      modifies this
      ensures Inv(effects, log) && Advances(old(effects), old(log), effects, log)
      ensures r.Done? ==> Key(LEVERAGE, identity) in effects && Settled(effects[Key(LEVERAGE, identity)].status)
      ensures Replays(Key(LEVERAGE, identity), LeverageRequest(symbol, leverage), old(effects), old(log), effects, log, r.Done?)
      ensures Key(LEVERAGE, identity) !in old(effects) && r.Done? ==>
        SentOnce(Key(LEVERAGE, identity), LeverageRequest(symbol, leverage), LeveragePayload,
                 old(effects), old(log), effects, log)
    {
      hide Inv, Advances, StepOk;
      AdvancesTransitive();
      var k := Key(LEVERAGE, identity);
      NewMeansUncalled(effects, log, k);
      var created :- Prepare(k, LeverageRequest(symbol, leverage));
      if !created {
        if Settled(effects[k].status) { return Done(()); }
        return Raised;
      }
      var answer :- Call(k);
      JustAnswered(effects, log, k, answer);
      r := Settle(k, CONFIRMED, LeveragePayload);
    }

    /** `_recover_prepared_place`: cancel what is still active, then require it inactive and the position flat. */
    method RecoverPlace(intent: Intent) returns (r: Outcome<Report>)
      requires Inv(effects, log)
      requires Key(PLACE, intent.client) in effects && !Settled(effects[Key(PLACE, intent.client)].status)
      requires effects[Key(PLACE, intent.client)].request == PlaceRequest(intent)
      modifies this
      ensures Inv(effects, log) && Advances(old(effects), old(log), effects, log)
      ensures r.Done? ==>
        var k := Key(PLACE, intent.client);
        && k in effects && effects[k].status == RECONCILED && effects[k].payload == Some(ReportPayload(r.value))
      ensures NotSent(old(log), log, Key(PLACE, intent.client))
      ensures old(effects)[Key(PLACE, intent.client)].status == PREPARED && !r.Crashed? ==> |log| > |old(log)|
    {
      hide Inv, Advances, StepOk, Fits, ClaimsNothing;
      AdvancesTransitive();
      var k := Key(PLACE, intent.client);
      RowFacts(effects, log, k);
      if effects[k].status == FAILED { return Raised; }
      var symbol := intent.symbol;
      var active :- IsActive(intent.client);
      if active {
        var _ :- CancelAtVenue(intent.client);
        active :- IsActive(intent.client);
        if active { return Raised; }
      }
      ghost var seen := log;
      var flat :- IsFlat(symbol);
      if !flat { return Raised; }
      var report := Neutral(intent);
      NeutralClaimsNothing(intent);
      assert log[|log| - 2] == seen[|seen| - 1];
      SeenFlat(effects, log, k, ReportPayload(report));
      var _ :- Settle(k, RECONCILED, ReportPayload(report));
      return Done(report);
    }

    /** `_recover_prepared_close`. */
    method RecoverClose(client: Id, quantity: Option<real>, side: Option<Side>) returns (r: Outcome<Report>)
      requires Inv(effects, log) && Key(CLOSE, client) in effects && !Settled(effects[Key(CLOSE, client)].status)
      requires
        var request := effects[Key(CLOSE, client)].request;
        request.CloseRequest? && request.quantity == quantity && request.side == side
      modifies this
      ensures Inv(effects, log) && Advances(old(effects), old(log), effects, log)
      ensures r.Done? ==>
        var k := Key(CLOSE, client);
        && k in effects && effects[k].status == RECONCILED && effects[k].payload == Some(ReportPayload(r.value))
      ensures NotSent(old(log), log, Key(CLOSE, client))
      ensures old(effects)[Key(CLOSE, client)].status == PREPARED && !r.Crashed? ==> |log| > |old(log)|
    {
      hide Inv, Advances, StepOk;
      AdvancesTransitive();
      var k := Key(CLOSE, client);
      if effects[k].status == FAILED { return Raised; }
      var symbol := SymbolOf(effects[k].request);
      var flat :- IsFlat(symbol);
      if !flat { return Raised; }
      var report := NeutralClose(client, symbol, quantity, side);
      SeenFlat(effects, log, k, ReportPayload(report));
      var _ :- Settle(k, RECONCILED, ReportPayload(report));
      return Done(report);
    }

    /** `_recover_prepared_stop`: adopt the stop that exists, need none when flat, else create it again. */
    method RecoverStop(parent: Id) returns (r: Outcome<StopOutcome>)
      requires Inv(effects, log) && Key(STOP, parent) in effects && !Settled(effects[Key(STOP, parent)].status)
      modifies this
      ensures Inv(effects, log) && Advances(old(effects), old(log), effects, log)
      ensures r.Done? ==> Key(STOP, parent) in effects && Settled(effects[Key(STOP, parent)].status)
      ensures r.Done? ==> effects[Key(STOP, parent)].payload == Some(StopPaid(r.value))
      ensures !r.Crashed? ==> |log| > |old(log)|
    {
      hide Inv, Advances, StepOk;
      AdvancesTransitive();
      var k := Key(STOP, parent);
      var symbol := SymbolOf(effects[k].request);
      if !stopLookup {
        var flat :- IsFlat(symbol);
        if !flat { return Raised; }
        SeenFlat(effects, log, k, StopNotRequired);
        var _ :- Settle(k, RECONCILED, StopNotRequired);
        return Done(NotRequired);
      }
      var existing :- FindStop(symbol, parent);
      if existing.Some? {
        StopFound(effects, log, k, existing.value);
        var _ :- Settle(k, RECONCILED, StopPayload(existing.value));
        return Done(Protected(existing.value));
      }
      var flat :- IsFlat(symbol);
      if flat {
        SeenFlat(effects, log, k, StopNotRequired);
        var _ :- Settle(k, RECONCILED, StopNotRequired);
        return Done(NotRequired);
      }
      var answer :- Call(k);
      JustAnswered(effects, log, k, answer);
      var _ :- Settle(k, CONFIRMED, answer);
      return Done(Protected(answer.stop));
    }

    /** `_recover_effect`: a normal return means the effect is settled. */
    method RecoverEffect(k: Key) returns (r: Outcome<()>)
      requires Inv(effects, log) && k in effects && effects[k].status == PREPARED
      modifies this
      ensures Inv(effects, log) && Advances(old(effects), old(log), effects, log)
      ensures r.Done? ==> k in effects && Settled(effects[k].status)
      ensures OneShot(k) ==> NotSent(old(log), log, k)
      ensures k.kind != LEVERAGE && !r.Crashed? ==> |log| > |old(log)|
      ensures k.kind == LEVERAGE ==> effects == old(effects) && log == old(log)
    {
      hide Inv, Advances, StepOk;
      RowFacts(effects, log, k);
      match effects[k].request {
        case PlaceRequest(intent) =>
          var _ :- RecoverPlace(intent);
          return Done(());
        case CloseRequest(_, quantity, side) =>
          var _ :- RecoverClose(k.identity, quantity, side);
          return Done(());
        case StopRequest(_, _, _, parent) =>
          var _ :- RecoverStop(parent);
          return Done(());
        case CancelRequest(symbol) =>
          r := CancelOrder(symbol, k.identity);
        case LeverageRequest(_, _) =>
          AdvancesTransitive();
          return Raised;
      }
    }

    /** `recover_pending`: without blockers, every effect it was given is settled. */
    method RecoverPending(listed: seq<Key>) returns (r: Outcome<seq<Key>>)
      requires Inv(effects, log) && forall k :: k in listed ==> k in effects
      modifies this
      ensures Inv(effects, log) && Advances(old(effects), old(log), effects, log)
      ensures r == Done([]) ==> forall k :: k in listed ==> k in effects && Settled(effects[k].status)
      ensures r.Done? ==> forall k :: k in listed ==> k in effects && (Settled(effects[k].status) || k in r.value)
      ensures r.Done? && log == old(log) ==>
        forall k :: k in listed ==> k.kind == LEVERAGE || old(effects)[k].status != PREPARED
    {
      hide Inv, StepOk;
      AdvancesTransitive();
      var blockers: seq<Key> := [];
      for i := 0 to |listed|
        invariant Inv(effects, log) && Advances(old(effects), old(log), effects, log)
        invariant log == old(log) ==> effects == old(effects)
        invariant forall j :: 0 <= j < i && log == old(log) ==>
                    listed[j].kind == LEVERAGE || old(effects)[listed[j]].status != PREPARED
        invariant forall j :: 0 <= j < i ==> listed[j] in effects && (Settled(effects[listed[j]].status) || listed[j] in blockers)
      {
        var k := listed[i];
        ghost var before, history := effects, log;
        if effects[k].status == FAILED {
          blockers := blockers + [k];
        } else if effects[k].status == PREPARED {
          var recovered := RecoverEffect(k);
          if recovered.Crashed? { return Crashed; }
          if recovered.Raised? { blockers := blockers + [k]; }
        }
        assert Advances(before, history, effects, log);
      }
      return Done(blockers);
    }

    /** An operator marks an unresolved effect FAILED. */
    method OperatorFails(k: Key)
      requires Inv(effects, log)
      modifies `effects
      ensures Inv(effects, log) && Advances(old(effects), log, effects, log)
    {
      if k in effects && effects[k].status == PREPARED {
        LegalStays(effects, effects[k := effects[k].(status := FAILED)], log);
        effects := effects[k := effects[k].(status := FAILED)];
      }
    }

    /** Any sequence of calls, redeliveries and recoveries, each ending normally, in an exception or in a crash. */
    method Run(commands: seq<Command>)
      requires Inv(effects, log)
      modifies this
      ensures Inv(effects, log) && Advances(old(effects), old(log), effects, log)
      ensures forall i :: 0 <= i < |log| && log[i].Called? ==>
        && Prepared(log[i].key) in log[..i]
        && (OneShot(log[i].key) ==> forall j :: 0 <= j < |log| && j != i ==> !IsCall(log[j], log[i].key))
    {
      hide Inv, Advances, StepOk;
      AdvancesTransitive();
      for c := 0 to |commands|
        invariant Inv(effects, log) && Advances(old(effects), old(log), effects, log)
      {
        match commands[c] {
          case Place(intent) => var _ := PlaceOrder(intent);
          case Close(client, symbol, quantity, side) => var _ := ClosePosition(client, symbol, quantity, side);
          case Stop(symbol, price, position, parent) => var _ := SetProtectiveStop(symbol, price, position, parent);
          case Cancel(symbol, client) => var _ := CancelOrder(symbol, client);
          case Leverage(symbol, identity, leverage) => var _ := SetLeverage(symbol, identity, leverage);
          case Recover(listed) =>
            if forall k :: k in listed ==> k in effects {
              var _ := RecoverPending(listed);
            }
          case Fail(k) => OperatorFails(k);
        }
      }
      AllCalledOnce(effects, log);
    }
  }

  lemma PrepareKeeps(effects: map<Key, Effect>, log: seq<Event>, k: Key, request: Request)
    requires Inv(effects, log) && k !in effects && Fits(k, request)
    ensures Inv(effects[k := Effect(PREPARED, request, None)], log + [Prepared(k)])
    ensures Advances(effects, log, effects[k := Effect(PREPARED, request, None)], log + [Prepared(k)])
  {
    PreparedLegal(effects, log, k, effects[k := Effect(PREPARED, request, None)]);
    hide Legal, StepOk, RowsOk, Fits;
    RowsStay(effects, log, Prepared(k));
    PreparedRow(effects, log + [Prepared(k)], k, request);
  }

  lemma PreparedLegal(effects: map<Key, Effect>, log: seq<Event>, k: Key, after: map<Key, Effect>)
    requires Legal(effects, log) && Prepared(k) !in log
    requires forall j :: j in effects ==> j in after && after[j].request == effects[j].request
    ensures Legal(after, log + [Prepared(k)])
  {
    LegalStays(effects, after, log);
    LegalAppend(after, log, Prepared(k));
  }

  lemma RowsStay(effects: map<Key, Effect>, log: seq<Event>, e: Event)
    requires RowsOk(effects, log)
    ensures RowsOk(effects, log + [e])
  {
  }

  lemma PreparedRow(effects: map<Key, Effect>, log: seq<Event>, k: Key, request: Request)
    requires RowsOk(effects, log) && k !in effects && Fits(k, request)
    ensures RowsOk(effects[k := Effect(PREPARED, request, None)], log)
  {
  }

  lemma NewMeansUncalled(effects: map<Key, Effect>, log: seq<Event>, k: Key)
    requires Inv(effects, log)
    ensures k !in effects ==> forall x :: x in log + [Prepared(k)] ==> !IsCall(x, k)
  {
    if k !in effects {
      forall x | x in log ensures !IsCall(x, k) {
        var i :| 0 <= i < |log| && log[i] == x;
        assert StepOk(effects, log[..i], log[i]);
      }
    }
  }

  lemma PreparedOnce(effects: map<Key, Effect>, log: seq<Event>, k: Key)
    requires Inv(effects, log)
    ensures k in effects <==> Prepared(k) in log
  {
  }

  lemma MayCall(effects: map<Key, Effect>, log: seq<Event>, k: Key)
    requires Inv(effects, log) && k in effects && (OneShot(k) ==> forall x :: x in log ==> !IsCall(x, k))
    ensures StepOk(effects, log, Called(k, effects[k].request))
  {
  }

  lemma MayCancel(effects: map<Key, Effect>, log: seq<Event>, client: Id)
    requires Prepared(Key(PLACE, client)) in log
    ensures StepOk(effects, log, CancelSent(client))
  {
  }

  lemma MayAnswer(effects: map<Key, Effect>, log: seq<Event>, k: Key, answer: Payload)
    requires |log| > 0 && IsCall(log[|log| - 1], k)
    ensures StepOk(effects, log, Answered(k, answer))
  {
  }

  lemma NeutralClaimsNothing(intent: Intent)
    ensures ClaimsNothing(Key(PLACE, intent.client), PlaceRequest(intent), Neutral(intent))
  {
  }

  lemma JustAnswered(effects: map<Key, Effect>, log: seq<Event>, k: Key, answer: Payload)
    requires |log| > 0 && log[|log| - 1] == Answered(k, answer) && k.kind != CANCEL
    ensures StepOk(effects, log, Confirmed(k, answer))
  {
  }

  lemma SeenInactive(effects: map<Key, Effect>, log: seq<Event>, k: Key)
    requires k in effects && k.kind == CANCEL && |log| > 0 && log[|log| - 1] == SawActive(k.identity, false)
    ensures StepOk(effects, log, Reconciled(k, InactivePayload))
    ensures (exists e :: e in log && IsCall(e, k)) ==> StepOk(effects, log, Confirmed(k, InactivePayload))
  {
  }

  lemma SeenFlat(effects: map<Key, Effect>, log: seq<Event>, k: Key, p: Payload)
    requires k in effects && |log| > 0 && log[|log| - 1] == SawFlat(SymbolOf(effects[k].request), true)
    requires k.kind == PLACE ==> |log| > 1 && log[|log| - 2] == SawActive(k.identity, false)
    requires k.kind in {PLACE, CLOSE, STOP}
    requires if k.kind == STOP then p == StopNotRequired
             else p.ReportPayload? && ClaimsNothing(k, effects[k].request, p.report)
    ensures StepOk(effects, log, Reconciled(k, p))
  {
  }

  lemma StopFound(effects: map<Key, Effect>, log: seq<Event>, k: Key, stop: Id)
    requires k in effects && k.kind == STOP && |log| > 0
    requires log[|log| - 1] == FoundStop(SymbolOf(effects[k].request), k.identity, stop)
    ensures StepOk(effects, log, Reconciled(k, StopPayload(stop)))
  {
  }

  /** What the invariant says about one row. */
  lemma RowFacts(effects: map<Key, Effect>, log: seq<Event>, k: Key)
    requires Inv(effects, log) && k in effects
    ensures Fits(k, effects[k].request)
    ensures Settled(effects[k].status) ==> effects[k].payload.Some? && Pays(k, effects[k].payload.value)
  {
  }

  lemma SettleKeeps(effects: map<Key, Effect>, log: seq<Event>, k: Key, status: Status, p: Payload)
    requires Inv(effects, log) && k in effects && !Settled(effects[k].status) && Settled(status) && Pays(k, p)
    requires StepOk(effects, log, OutcomeOf(k, status, p))
    ensures
      var after := effects[k := Effect(status, effects[k].request, Some(p))];
      var longer := log + [OutcomeOf(k, status, p)];
      Inv(after, longer) && Advances(effects, log, after, longer)
  {
    var after := effects[k := Effect(status, effects[k].request, Some(p))];
    LegalAppend(effects, log, OutcomeOf(k, status, p));
    LegalStays(effects, after, log + [OutcomeOf(k, status, p)]);
  }
}
