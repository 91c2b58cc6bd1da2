/** N workers race to sign and to dispatch over one set of evidence tables. A run is any sequence of their
    single steps: other workers act between any two of them, a worker may stop for good at any point, a commit
    may succeed without its caller learning it, and an issued terminal write may land after its issuer is gone. */
module OneShotDispatch {
  import opened Outcomes
  import opened ProductionClaims

  /** What one worker was asked to do. `key` and `request` identify its own one-use claim. */
  datatype Job =
    | Sign(key: ClaimKey, request: Digest, context: Digest, expires: int)
    | Wire(key: ClaimKey, request: Digest, context: Digest, expires: int,
           signing: ClaimKey, signingRequest: Digest, signature: Digest)

  predicate ProperJob(j: Job) {
    j.key.kind == if j.Sign? then TYPED_SIGNING else WIRE_DISPATCH
  }

  function OwnClaim(j: Job): Claim {
    Claim(j.request, j.context)
  }

  /** Where a worker is. `Committed` has its claim decided at the server but not yet acknowledged. */
  datatype Phase =
    | Idle | Started | Evidenced | Verified | Authorized
    | Committed(created: bool) | Claimed | Admitted
    | Calling | Answered(digest: Digest) | Completing(digest: Digest)
    | Returned(digest: Digest) | Stopped

  /** `high` is the highest clock reading so far, `checks` the authority checks passed. */
  datatype Worker = Worker(job: Job, phase: Phase, high: int, checks: nat)

  /** A terminal write on its way to the tables. */
  datatype Write = Write(worker: nat, status: TerminalStatus, result: Option<Digest>)

  datatype Event =
    | External(worker: nat, at: int)
    | Released(worker: nat, digest: Digest)

  datatype System = System(
    tables: Tables,
    workers: seq<Worker>,
    owner: map<ClaimKey, nat>,
    issued: set<Write>,
    acknowledged: set<Write>,
    log: seq<Event>)

  /** One step of one worker, or of the database on a worker's behalf. Clock readings, verdicts and answers
      are whatever the environment makes them. */
  datatype Action =
    | Begin(w: nat, now: int)
    | LoadSigning(w: nat, now: int)
    | VerifySignature(w: nat, ok: bool, now: int)
    | Authorize(w: nat, ok: bool, now: int)
    | CommitClaim(w: nat)
    | AcknowledgeClaim(w: nat, now: int)
    | Recheck(w: nat, ok: bool, first: int, second: int, record: bool)
    | CallOut(w: nat)
    | Answer(w: nat, ok: bool, digest: Digest, now: int, record: bool)
    | IssueCompletion(w: nat, now: int)
    | CommitWrite(write: Write)
    | AcknowledgeWrite(w: nat, now: int)
    | Stop(w: nat)

  /** `fresh_time`: the reading neither runs backwards nor reaches the expiry. */
  predicate Fresh(x: Worker, now: int) {
    x.high <= now < x.job.expires
  }

  /** The signing claim is completed with exactly this signature, in this context. */
  predicate SigningProven(t: Tables, j: Job)
    requires j.Wire?
  {
    && j.signing.kind == TYPED_SIGNING
    && j.signing in t.claims && t.claims[j.signing] == Claim(j.signingRequest, j.context)
    && j.signing in t.terminals
    && t.terminals[j.signing].status == COMPLETED && t.terminals[j.signing].result == Some(j.signature)
  }

  function With(s: System, w: nat, x: Worker): System
    requires w < |s.workers|
  {
    s.(workers := s.workers[w := x])
  }

  /** The worker gives up; if it still can, it issues an UNRESOLVED terminal. */
  function GiveUp(s: System, w: nat, record: bool): System
    requires w < |s.workers|
  {
    var t := With(s, w, s.workers[w].(phase := Stopped));
    if record then t.(issued := t.issued + {Write(w, UNRESOLVED, None)}) else t
  }

  function Advance(s: System, w: nat, now: int, phase: Phase): System
    requires w < |s.workers|
  {
    if Fresh(s.workers[w], now) then With(s, w, s.workers[w].(phase := phase, high := now)) else GiveUp(s, w, false)
  }

  function Opened(s: System, w: nat, now: int): System
    requires w < |s.workers|
  {
    var x := s.workers[w];
    if now < x.job.expires <= now + 30 then With(s, w, x.(phase := Started, high := now)) else GiveUp(s, w, false)
  }

  function ClaimCommitted(s: System, w: nat): System
    requires w < |s.workers|
  {
    var x := s.workers[w];
    var answer := ClaimAnswer(s.tables, x.job.key, OwnClaim(x.job));
    if !answer.Done? then GiveUp(s, w, false)
    else
      var t := With(s, w, x.(phase := Committed(answer.value)));
      t.(tables := WithClaim(s.tables, x.job.key, OwnClaim(x.job)),
         owner := if answer.value then s.owner[x.job.key := w] else s.owner)
  }

  function CompletionIssued(s: System, w: nat, now: int): System
    requires w < |s.workers| && s.workers[w].phase.Answered?
  {
    var x := s.workers[w];
    With(s, w, x.(phase := Completing(x.phase.digest), high := now)).(
      issued := s.issued + {Write(w, COMPLETED, Some(x.phase.digest))})
  }

  function ResultReleased(s: System, w: nat, now: int): System
    requires w < |s.workers| && s.workers[w].phase.Completing?
  {
    var x := s.workers[w];
    With(s, w, x.(phase := Returned(x.phase.digest), high := now)).(log := s.log + [Released(w, x.phase.digest)])
  }

  function WriteCommitted(s: System, write: Write): System
    requires write.worker < |s.workers|
  {
    var j := s.workers[write.worker].job;
    s.(tables := WithTerminal(s.tables, j.key, OwnClaim(j), write.status, write.result),
       acknowledged := if MayFinish(s.tables, j.key, OwnClaim(j), write.status, write.result)
                       then s.acknowledged + {write} else s.acknowledged)
  }

  /** The worker an action belongs to. */
  function ActorOf(a: Action): nat {
    match a
    case Begin(w, _) => w
    case LoadSigning(w, _) => w
    case VerifySignature(w, _, _) => w
    case Authorize(w, _, _) => w
    case CommitClaim(w) => w
    case AcknowledgeClaim(w, _) => w
    case Recheck(w, _, _, _, _) => w
    case CallOut(w) => w
    case Answer(w, _, _, _, _) => w
    case IssueCompletion(w, _) => w
    case CommitWrite(write) => write.worker
    case AcknowledgeWrite(w, _) => w
    case Stop(w) => w
  }

  /** The step `a` takes from `s`; an action that is not enabled changes nothing. */
  function Step(s: System, a: Action): System {
    var w := ActorOf(a);
    if w >= |s.workers| then s
    else
      var x := s.workers[w];
      match a
      case Begin(_, now) =>
        if x.phase == Idle then Opened(s, w, now) else s
      case LoadSigning(_, now) =>
        if x.phase != Started || !x.job.Wire? then s
        else if SigningProven(s.tables, x.job) then Advance(s, w, now, Evidenced)
        else GiveUp(s, w, false)
      case VerifySignature(_, ok, now) =>
        if x.phase != Evidenced then s
        else if ok then Advance(s, w, now, Verified)
        else GiveUp(s, w, false)
      case Authorize(_, ok, now) =>
        if x.phase != (if x.job.Sign? then Started else Verified) then s
        else if ok && Fresh(x, now) then With(s, w, x.(phase := Authorized, high := now, checks := x.checks + 1))
        else GiveUp(s, w, false)
      case CommitClaim(_) =>
        if x.phase == Authorized then ClaimCommitted(s, w) else s
      case AcknowledgeClaim(_, now) =>
        if !x.phase.Committed? then s
        else if x.phase.created then Advance(s, w, now, if x.job.Sign? then Admitted else Claimed)
        else GiveUp(s, w, false)
      case Recheck(_, ok, first, second, record) =>
        if x.phase != Claimed then s
        else if ok && Fresh(x, first) && first <= second < x.job.expires then
          With(s, w, x.(phase := Admitted, high := second, checks := x.checks + 1))
        else GiveUp(s, w, record)
      case CallOut(_) =>
        if x.phase != Admitted then s
        else With(s, w, x.(phase := Calling)).(log := s.log + [External(w, x.high)])
      case Answer(_, ok, digest, now, record) =>
        if x.phase != Calling then s
        else if ok && Fresh(x, now) then With(s, w, x.(phase := Answered(digest), high := now))
        else GiveUp(s, w, record)
      case IssueCompletion(_, now) =>
        if !x.phase.Answered? then s
        else if Fresh(x, now) then CompletionIssued(s, w, now)
        else GiveUp(s, w, false)
      case CommitWrite(write) =>
        if write in s.issued then WriteCommitted(s, write) else s
      case AcknowledgeWrite(_, now) =>
        if !x.phase.Completing? || Write(w, COMPLETED, Some(x.phase.digest)) !in s.acknowledged then s
        else if Fresh(x, now) then ResultReleased(s, w, now)
        else GiveUp(s, w, false)
      case Stop(_) =>
        if x.phase.Returned? then s else GiveUp(s, w, false)
  }

  function Initial(jobs: seq<Job>): System {
    System(Tables(map[], map[]), seq(|jobs|, i requires 0 <= i < |jobs| => Worker(jobs[i], Idle, 0, 0)), map[], {}, {}, [])
  }

  function Run(s: System, actions: seq<Action>): System {
    if actions == [] then s else Step(Run(s, actions[..|actions| - 1]), actions[|actions| - 1])
  }

  // --------------------------------------------------------------- invariant

  /** The worker has won its claim, whether or not it has heard so yet. */
  predicate Holding(p: Phase) {
    (p.Committed? && p.created) || p.Claimed? || p.Admitted? || HasCalled(p)
  }

  predicate HasCalled(p: Phase) {
    p.Calling? || p.Answered? || p.Completing? || p.Returned?
  }

  predicate Early(p: Phase) {
    p in {Idle, Started, Evidenced, Verified, Authorized}
  }

  /** The worker has not called out and has issued no write. */
  predicate BeforeCall(p: Phase) {
    !HasCalled(p) && p != Stopped
  }

  predicate Owns(s: System, w: nat)
    requires w < |s.workers|
  {
    var j := s.workers[w].job;
    && j.key in s.owner && s.owner[j.key] == w
    && j.key in s.tables.claims && s.tables.claims[j.key] == OwnClaim(j)
  }

  function Checks(j: Job): nat {
    if j.Sign? then 1 else 2
  }

  /** What stands behind a call to the outside: the signing evidence and every authority check. */
  predicate Justified(s: System, w: nat)
    requires w < |s.workers|
  {
    var x := s.workers[w];
    Owns(s, w) && x.checks == Checks(x.job) && (x.job.Wire? ==> SigningProven(s.tables, x.job))
  }

  ghost predicate WorkerOk(s: System, w: nat)
    requires w < |s.workers|
  {
    var x := s.workers[w];
    && ProperJob(x.job)
    && (x.phase in {Idle, Started, Evidenced, Verified} ==> x.checks == 0)
    && (x.job.Wire? && x.phase in {Evidenced, Verified, Authorized, Claimed} ==> SigningProven(s.tables, x.job))
    && (x.job.Wire? && x.phase.Committed? ==> SigningProven(s.tables, x.job))
    && (x.phase == Authorized || x.phase.Committed? || x.phase == Claimed ==> x.checks == 1)
    && (x.phase == Admitted || HasCalled(x.phase) ==> Justified(s, w))
    && (Holding(x.phase) ==> Owns(s, w))
    && (x.phase == Claimed ==> x.job.Wire?)
    && (BeforeCall(x.phase) && x.phase != Idle ==> x.high < x.job.expires)
    && (HasCalled(x.phase) ==> exists i :: 0 <= i < |s.log| && s.log[i].External? && s.log[i].worker == w)
  }

  ghost predicate LogOk(s: System) {
    && (forall i :: 0 <= i < |s.log| ==> s.log[i].worker < |s.workers|)
    && (forall i :: 0 <= i < |s.log| && s.log[i].External? ==>
          && Justified(s, s.log[i].worker) && !BeforeCall(s.workers[s.log[i].worker].phase)
          && s.log[i].at < s.workers[s.log[i].worker].job.expires)
    && (forall i, j :: 0 <= i < j < |s.log| && s.log[i].External? && s.log[j].External? ==>
          s.log[i].worker != s.log[j].worker)
    && (forall i :: 0 <= i < |s.log| && s.log[i].Released? ==>
          Write(s.log[i].worker, COMPLETED, Some(s.log[i].digest)) in s.acknowledged)
  }

  ghost predicate OwnersOk(s: System) {
    && (forall k :: k in s.tables.claims <==> k in s.owner)
    && (forall k :: k in s.owner ==>
          s.owner[k] < |s.workers| && s.workers[s.owner[k]].job.key == k && Owns(s, s.owner[k])
          && !Early(s.workers[s.owner[k]].phase))
  }

  predicate Records(t: Tables, j: Job, write: Write) {
    && j.key in t.terminals && t.terminals[j.key].status == write.status && t.terminals[j.key].result == write.result
  }

  ghost predicate WriteOk(s: System, write: Write) {
    && write.worker < |s.workers| && Owns(s, write.worker)
    && WellFormed(write.status, write.result)
    && s.workers[write.worker].phase in {Stopped, Completing(if write.result.Some? then write.result.value else 0),
                                         Returned(if write.result.Some? then write.result.value else 0)}
    && (write.status == COMPLETED ==> exists i :: 0 <= i < |s.log| && s.log[i].External? && s.log[i].worker == write.worker)
  }

  ghost predicate WritesOk(s: System) {
    && (forall a :: a in s.issued ==> WriteOk(s, a))
    && (forall a, b :: a in s.issued && b in s.issued && a.worker == b.worker ==> a == b)
    && s.acknowledged <= s.issued
    && (forall a :: a in s.acknowledged ==> Records(s.tables, s.workers[a.worker].job, a))
    && (forall k :: k in s.tables.terminals ==>
          k in s.owner && Write(s.owner[k], s.tables.terminals[k].status, s.tables.terminals[k].result) in s.issued)
  }

  ghost predicate Inv(s: System) {
    && Consistent(s.tables)
    && (forall w :: 0 <= w < |s.workers| ==> WorkerOk(s, w))
    && LogOk(s) && OwnersOk(s) && WritesOk(s)
  }

  // ------------------------------------------------------------------ safety

  /** The sender, and the signing backend, is called at most once for each claimed identity. */
  ghost predicate CalledOnce(s: System) {
    forall i, j :: 0 <= i < j < |s.log| && s.log[i].External? && s.log[j].External? ==>
      && s.log[i].worker < |s.workers| && s.log[j].worker < |s.workers|
      && s.workers[s.log[i].worker].job.key != s.workers[s.log[j].worker].job.key
  }

  /** Every call rests on the caller's own committed claim, on all its authority checks, on a clock reading before
      the expiry and, for the wire, on a COMPLETED signing claim with that exact signature. */
  ghost predicate CallsJustified(s: System) {
    forall i :: 0 <= i < |s.log| && s.log[i].External? ==>
      && s.log[i].worker < |s.workers| && Justified(s, s.log[i].worker)
      && s.log[i].at < s.workers[s.log[i].worker].job.expires
  }

  /** Whatever a worker returned is on record as COMPLETED with its digest. */
  ghost predicate ReleasesRecorded(s: System) {
    forall i :: 0 <= i < |s.log| && s.log[i].Released? ==>
      && s.log[i].worker < |s.workers|
      && Records(s.tables, s.workers[s.log[i].worker].job, Write(s.log[i].worker, COMPLETED, Some(s.log[i].digest)))
  }

  /** A COMPLETED terminal exists only for an identity that was really called. */
  ghost predicate CompletionsReal(s: System) {
    forall k :: k in s.tables.terminals && s.tables.terminals[k].status == COMPLETED ==>
      exists i ::
        && 0 <= i < |s.log| && s.log[i].External? && s.log[i].worker < |s.workers|
        && s.workers[s.log[i].worker].job.key == k
  }

  ghost predicate Safe(s: System) {
    CalledOnce(s) && CallsJustified(s) && ReleasesRecorded(s) && CompletionsReal(s)
  }

  lemma InvIsSafe(s: System)
    requires Inv(s)
    ensures Safe(s)
  {
  }

  // ------------------------------------------------------------ preservation

  /** The step of `w` from `s` to `t` left every other worker alone and lost nothing. */
  ghost predicate Builds(s: System, w: nat, t: System) {
    && w < |s.workers| == |t.workers|
    && (forall v :: 0 <= v < |s.workers| && v != w ==> t.workers[v] == s.workers[v])
    && t.workers[w].job == s.workers[w].job
    && Grows(s.tables, t.tables) && s.log <= t.log && s.issued <= t.issued
    && (forall k :: k in s.owner ==> k in t.owner && t.owner[k] == s.owner[k])
  }

  lemma OwnersStay(s: System, w: nat, t: System)
    requires OwnersOk(s) && Builds(s, w, t) && t.owner == s.owner && t.tables.claims == s.tables.claims
    requires Early(s.workers[w].phase) || !Early(t.workers[w].phase)
    ensures OwnersOk(t)
  {
  }

  lemma OthersStay(s: System, w: nat, t: System)
    requires Inv(s) && Builds(s, w, t) && WorkerOk(t, w)
    ensures forall v :: 0 <= v < |t.workers| ==> WorkerOk(t, v)
  {
    hide WorkerOk, LogOk, OwnersOk, WritesOk, Grows;
    forall v | 0 <= v < |t.workers| ensures WorkerOk(t, v) {
      if v != w { WorkerStays(s, t, v); }
    }
  }

  /** The old calls stay justified; a worker that has called keeps its checks. */
  lemma CallsStay(s: System, w: nat, t: System)
    requires Inv(s) && Builds(s, w, t)
    requires BeforeCall(s.workers[w].phase) || t.workers[w].checks == s.workers[w].checks
    ensures forall i :: 0 <= i < |s.log| && s.log[i].External? ==> Justified(t, s.log[i].worker)
  {
  }

  lemma WritesStay(s: System, w: nat, t: System)
    requires Inv(s) && Builds(s, w, t) && t.owner == s.owner
    requires t.workers[w] == s.workers[w] || forall a :: a in s.issued ==> a.worker != w
    ensures forall a :: a in s.issued ==> WriteOk(t, a)
  {
  }

  lemma InRange(s: System, a: Write)
    requires WritesOk(s) && a in s.issued
    ensures WriteOk(s, a) && a.worker < |s.workers|
  {
  }

  /** Any step that only changes its own worker. */
  lemma LocalMove(s: System, w: nat, x: Worker)
    requires Inv(s) && w < |s.workers| && x.job == s.workers[w].job
    requires WorkerOk(With(s, w, x), w)
    requires !BeforeCall(s.workers[w].phase) ==> !BeforeCall(x.phase) && x.checks == s.workers[w].checks
    requires !Early(s.workers[w].phase) ==> !Early(x.phase)
    requires x.phase == Stopped || forall a :: a in s.issued ==> a.worker != w
    ensures Inv(With(s, w, x))
  {
    var t := With(s, w, x);
    OthersStay(s, w, t);
    CallsStay(s, w, t);
    OwnersStay(s, w, t);
    LocalWrites(s, w, t);
    hide WorkerOk, OwnersOk, Justified, WriteOk;
    assert LogOk(t);
  }

  lemma LocalWrites(s: System, w: nat, t: System)
    requires WritesOk(s) && Builds(s, w, t) && t == With(s, w, t.workers[w])
    requires t.workers[w].phase == Stopped || forall a :: a in s.issued ==> a.worker != w
    ensures WritesOk(t)
  {
  }

  /** A worker that has not yet issued a write has none under way. */
  lemma NothingIssued(s: System, w: nat)
    requires Inv(s) && w < |s.workers|
    requires BeforeCall(s.workers[w].phase) || s.workers[w].phase.Calling? || s.workers[w].phase.Answered?
    ensures forall a :: a in s.issued ==> a.worker != w
  {
  }

  lemma GiveUpKeeps(s: System, w: nat, record: bool)
    requires Inv(s) && w < |s.workers|
    requires record ==> s.workers[w].phase == Claimed || s.workers[w].phase == Calling
    ensures Inv(GiveUp(s, w, record))
  {
    var x := s.workers[w].(phase := Stopped);
    assert WorkerOk(s, w);
    LocalMove(s, w, x);
    if record {
      NothingIssued(s, w);
      IssueKeeps(With(s, w, x), Write(w, UNRESOLVED, None));
    }
  }

  /** A first write by a worker that holds its claim. */
  lemma IssueKeeps(s: System, a: Write)
    requires Inv(s) && a.worker < |s.workers| && WriteOk(s, a)
    requires forall b :: b in s.issued ==> b.worker != a.worker
    ensures Inv(s.(issued := s.issued + {a}))
  {
    var t := s.(issued := s.issued + {a});
    forall v | 0 <= v < |t.workers| ensures WorkerOk(t, v) {
      assert WorkerOk(s, v);
    }
    forall b | b in t.issued ensures WriteOk(t, b) {
      assert WriteOk(s, b);
    }
  }

  /** The tables and the owners grew; nothing that was known is lost. */
  lemma WorkerStays(s: System, t: System, v: nat)
    requires v < |s.workers| && WorkerOk(s, v)
    requires |t.workers| == |s.workers| && t.workers[v] == s.workers[v] && Grows(s.tables, t.tables) && s.log <= t.log
    requires forall k :: k in s.owner ==> k in t.owner && t.owner[k] == s.owner[k]
    ensures WorkerOk(t, v)
  {
  }

  lemma ClaimKeeps(s: System, w: nat)
    requires Inv(s) && w < |s.workers| && s.workers[w].phase == Authorized
    ensures Inv(ClaimCommitted(s, w))
  {
    var x := s.workers[w];
    var answer := ClaimAnswer(s.tables, x.job.key, OwnClaim(x.job));
    NothingIssued(s, w);
    assert WorkerOk(s, w);
    if !answer.Done? {
      GiveUpKeeps(s, w, false);
    } else if !answer.value {
      LocalMove(s, w, x.(phase := Committed(false)));
    } else {
      WinKeeps(s, w, ClaimCommitted(s, w));
    }
  }

  /** The one committed insertion makes its worker the owner of the identity. */
  lemma WinKeeps(s: System, w: nat, t: System)
    requires Inv(s) && w < |s.workers| && s.workers[w].phase == Authorized
    requires s.workers[w].job.key !in s.tables.claims
    requires forall a :: a in s.issued ==> a.worker != w
    requires t == ClaimCommitted(s, w)
    ensures Inv(t)
  {
    assert s.workers[w].job.key !in s.owner;
    hide OwnersOk, LogOk, WritesOk, Justified, Owns, ClaimCommitted;
    WinShape(s, w, t);
    WinnerFits(s, w, t);
    OthersStay(s, w, t);
    CallsStay(s, w, t);
    WinOwners(s, w, t);
    WinWrites(s, w, t);
    WinLog(s, w, t);
  }

  lemma WinShape(s: System, w: nat, t: System)
    requires Consistent(s.tables) && w < |s.workers| && s.workers[w].phase == Authorized
    requires s.workers[w].job.key !in s.tables.claims && s.workers[w].job.key !in s.owner
    requires t == ClaimCommitted(s, w)
    ensures Builds(s, w, t) && Consistent(t.tables)
    ensures t.log == s.log && t.acknowledged == s.acknowledged && t.workers[w].checks == s.workers[w].checks
  {
  }

  lemma WinLog(s: System, w: nat, t: System)
    requires LogOk(s) && Builds(s, w, t) && BeforeCall(s.workers[w].phase)
    requires t.log == s.log && t.acknowledged == s.acknowledged
    requires forall i :: 0 <= i < |s.log| && s.log[i].External? ==> Justified(t, s.log[i].worker)
    ensures LogOk(t)
  {
    hide Justified, Grows;
  }

  lemma WinWrites(s: System, w: nat, t: System)
    requires WritesOk(s) && w < |s.workers| && t == ClaimCommitted(s, w) && Builds(s, w, t)
    requires s.workers[w].job.key !in s.tables.claims
    requires forall a :: a in s.issued ==> a.worker != w
    ensures WritesOk(t)
  {
  }

  lemma WinnerFits(s: System, w: nat, t: System)
    requires w < |s.workers| && WorkerOk(s, w) && s.workers[w].phase == Authorized
    requires s.workers[w].job.key !in s.tables.claims && t == ClaimCommitted(s, w)
    ensures WorkerOk(t, w)
  {
  }

  lemma WinOwners(s: System, w: nat, t: System)
    requires OwnersOk(s) && w < |s.workers| && s.workers[w].phase == Authorized
    requires s.workers[w].job.key !in s.tables.claims && t == ClaimCommitted(s, w)
    ensures OwnersOk(t)
  {
  }

  lemma JustifiedStays(s: System, t: System, v: nat)
    requires v < |s.workers| && Justified(s, v)
    requires |t.workers| == |s.workers| && Grows(s.tables, t.tables)
    requires t.workers[v].job == s.workers[v].job && t.workers[v].checks == s.workers[v].checks
    requires forall k :: k in s.owner ==> k in t.owner && t.owner[k] == s.owner[k]
    ensures Justified(t, v)
  {
  }

  lemma CallKeeps(s: System, w: nat)
    requires Inv(s) && w < |s.workers| && s.workers[w].phase == Admitted
    ensures Inv(With(s, w, s.workers[w].(phase := Calling)).(log := s.log + [External(w, s.workers[w].high)]))
  {
    var x := s.workers[w];
    var t := With(s, w, x.(phase := Calling)).(log := s.log + [External(w, x.high)]);
    NothingIssued(s, w);
    hide WorkerOk, OwnersOk, LogOk, WritesOk, Justified;
    CallFits(s, w, t);
    OthersStay(s, w, t);
    CallsStay(s, w, t);
    OwnersStay(s, w, t);
    WritesStay(s, w, t);
    CallLog(s, w, t);
    CallWrites(s, t);
  }

  lemma CallWrites(s: System, t: System)
    requires WritesOk(s) && (forall a :: a in s.issued ==> WriteOk(t, a))
    requires t.tables == s.tables && t.owner == s.owner && t.issued == s.issued && t.acknowledged == s.acknowledged
    requires |t.workers| == |s.workers| && (forall v :: 0 <= v < |s.workers| ==> t.workers[v].job == s.workers[v].job)
    ensures WritesOk(t)
  {
    hide Justified, Owns, Records;
  }

  lemma CallFits(s: System, w: nat, t: System)
    requires w < |s.workers| && WorkerOk(s, w) && s.workers[w].phase == Admitted
    requires t == With(s, w, s.workers[w].(phase := Calling)).(log := s.log + [External(w, s.workers[w].high)])
    ensures Builds(s, w, t) && WorkerOk(t, w)
    ensures Justified(t, w) && s.workers[w].high < s.workers[w].job.expires
  {
    assert t.log[|s.log|] == External(w, s.workers[w].high);
    JustifiedStays(s, t, w);
  }

  lemma CallLog(s: System, w: nat, t: System)
    requires LogOk(s) && Builds(s, w, t) && s.workers[w].phase == Admitted && s.workers[w].high < s.workers[w].job.expires
    requires t.workers[w] == s.workers[w].(phase := Calling) && t.log == s.log + [External(w, s.workers[w].high)]
    requires t.acknowledged == s.acknowledged && Justified(t, w)
    requires forall i :: 0 <= i < |s.log| && s.log[i].External? ==> Justified(t, s.log[i].worker)
    ensures LogOk(t)
  {
    hide Justified, Grows;
  }

  /** A write stays admissible while its worker stays where it is, and the history grows. */
  lemma WriteStays(s: System, t: System, a: Write)
    requires WriteOk(s, a) && |t.workers| == |s.workers| && t.workers[a.worker] == s.workers[a.worker]
    requires Grows(s.tables, t.tables) && t.owner == s.owner && s.log <= t.log
    ensures WriteOk(t, a)
  {
  }

  lemma CompletionKeeps(s: System, w: nat, now: int)
    requires Inv(s) && w < |s.workers| && s.workers[w].phase.Answered? && Fresh(s.workers[w], now)
    ensures Inv(CompletionIssued(s, w, now))
  {
    var x := s.workers[w];
    var y := x.(phase := Completing(x.phase.digest), high := now);
    NothingIssued(s, w);
    var t := With(s, w, y);
    var write := Write(w, COMPLETED, Some(x.phase.digest));
    CompletionFits(s, w, y, write);
    LocalMove(s, w, y);
    hide WorkerOk, WriteOk, Inv, Fresh;
    IssueKeeps(t, write);
  }

  lemma CompletionFits(s: System, w: nat, y: Worker, a: Write)
    requires w < |s.workers| && WorkerOk(s, w) && s.workers[w].phase.Answered?
    requires y == s.workers[w].(phase := Completing(s.workers[w].phase.digest), high := y.high)
    requires a == Write(w, COMPLETED, Some(s.workers[w].phase.digest))
    ensures WorkerOk(With(s, w, y), w) && WriteOk(With(s, w, y), a)
  {
  }

  lemma WriteKeeps(s: System, write: Write)
    requires Inv(s) && write in s.issued
    ensures write.worker < |s.workers| && Inv(WriteCommitted(s, write))
  {
    InRange(s, write);
    var w := write.worker;
    var j := s.workers[w].job;
    var t := WriteCommitted(s, write);
    assert WorkerOk(s, w);
    assert j.key.kind != MANUAL_NONCE && Owns(s, w);
    assert Builds(s, w, t) && t.tables.claims == s.tables.claims;
    WorkerStays(s, t, w);
    OthersStay(s, w, t);
    CallsStay(s, w, t);
    OwnersStay(s, w, t);
    WritesStay(s, w, t);
    hide WorkerOk, OwnersOk, Justified, WriteOk, Builds;
    forall a | a in t.acknowledged ensures Records(t.tables, t.workers[a.worker].job, a) {
      if a in s.acknowledged { assert Records(s.tables, s.workers[a.worker].job, a); }
    }
    assert WritesOk(t);
  }

  lemma ReleaseKeeps(s: System, w: nat, now: int)
    requires Inv(s) && w < |s.workers| && s.workers[w].phase.Completing? && Fresh(s.workers[w], now)
    requires Write(w, COMPLETED, Some(s.workers[w].phase.digest)) in s.acknowledged
    ensures Inv(ResultReleased(s, w, now))
  {
    var x := s.workers[w];
    var d := x.phase.digest;
    var t := With(s, w, x.(phase := Returned(d), high := now)).(log := s.log + [Released(w, d)]);
    assert t.log[|s.log|] == Released(w, d);
    assert Builds(s, w, t);
    ReleaseFits(s, w, t);
    OthersStay(s, w, t);
    CallsStay(s, w, t);
    OwnersStay(s, w, t);
    ReleaseWrites(s, w, t);
    ReleaseLog(s, w, t);
    hide WorkerOk, OwnersOk, Justified, WritesOk, LogOk, Builds;
    assert Inv(t);
  }

  lemma ReleaseLog(s: System, w: nat, t: System)
    requires LogOk(s) && Builds(s, w, t) && s.workers[w].phase.Completing? && t.workers[w].phase.Returned?
    requires t.log == s.log + [Released(w, t.workers[w].phase.digest)] && t.acknowledged == s.acknowledged
    requires Write(w, COMPLETED, Some(t.workers[w].phase.digest)) in s.acknowledged
    requires forall i :: 0 <= i < |s.log| && s.log[i].External? ==> Justified(t, s.log[i].worker)
    ensures LogOk(t)
  {
    hide Justified, Grows;
  }

  lemma ReleaseFits(s: System, w: nat, t: System)
    requires Builds(s, w, t) && WorkerOk(s, w) && s.workers[w].phase.Completing?
    requires t.workers[w] == s.workers[w].(phase := Returned(s.workers[w].phase.digest), high := t.workers[w].high)
    ensures WorkerOk(t, w)
  {
  }

  lemma ReleaseWrites(s: System, w: nat, t: System)
    requires Inv(s) && w < |s.workers| && s.workers[w].phase.Completing? && Builds(s, w, t)
    requires t.workers[w].phase == Returned(s.workers[w].phase.digest)
    requires Write(w, COMPLETED, Some(s.workers[w].phase.digest)) in s.acknowledged
    requires t.tables == s.tables && t.owner == s.owner && t.issued == s.issued && t.acknowledged == s.acknowledged
    ensures WritesOk(t)
  {
    hide WorkerOk, LogOk, OwnersOk;
    forall a | a in t.issued ensures WriteOk(t, a) {
      InRange(s, a);
      if a.worker != w {
        WriteStays(s, t, a);
      } else {
        assert a == Write(w, COMPLETED, Some(s.workers[w].phase.digest));
        var i :| 0 <= i < |s.log| && s.log[i].External? && s.log[i].worker == a.worker;
        assert t.log[i] == s.log[i];
      }
    }
  }

  lemma StepKeeps(s: System, a: Action)
    requires Inv(s)
    ensures Inv(Step(s, a))
  {
    hide Inv, Fresh, SigningProven, With, GiveUp, ClaimCommitted, WriteCommitted, CompletionIssued, ResultReleased;
    var w := ActorOf(a);
    if w < |s.workers| {
      var x := s.workers[w];
      match a
      case CommitClaim(_) =>
        if x.phase == Authorized { ClaimKeeps(s, w); }
      case CallOut(_) =>
        if x.phase == Admitted { CallKeeps(s, w); }
      case IssueCompletion(_, now) =>
        if x.phase.Answered? {
          if Fresh(x, now) { CompletionKeeps(s, w, now); } else { GiveUpKeeps(s, w, false); }
        }
      case CommitWrite(write) =>
        if write in s.issued { WriteKeeps(s, write); }
      case AcknowledgeWrite(_, now) =>
        if x.phase.Completing? && Write(w, COMPLETED, Some(x.phase.digest)) in s.acknowledged {
          if Fresh(x, now) { ReleaseKeeps(s, w, now); } else { GiveUpKeeps(s, w, false); }
        }
      case Stop(_) =>
        if !x.phase.Returned? { GiveUpKeeps(s, w, false); }
      case _ =>
        ForwardKeeps(s, a);
    }
  }

  predicate IsForward(a: Action) {
    a.Begin? || a.LoadSigning? || a.VerifySignature? || a.Authorize? || a.AcknowledgeClaim? || a.Recheck? || a.Answer?
  }

  /** The steps by which a worker moves forward on its own. */
  lemma ForwardKeeps(s: System, a: Action)
    requires Inv(s) && ActorOf(a) < |s.workers|
    requires IsForward(a)
    ensures Inv(Step(s, a))
  {
    var w := ActorOf(a);
    var x := s.workers[w];
    var t := Step(s, a);
    if t != s {
      var y := t.workers[w];
      NothingIssued(s, w);
      if y.phase == Stopped {
        StoppedStep(s, a);
        GiveUpKeeps(s, w, t.issued != s.issued);
      } else {
        ForwardFits(s, a);
        LocalMove(s, w, y);
      }
    }
  }

  lemma StoppedStep(s: System, a: Action)
    requires ActorOf(a) < |s.workers| && forall b :: b in s.issued ==> b.worker != ActorOf(a)
    requires IsForward(a)
    requires Step(s, a) != s && Step(s, a).workers[ActorOf(a)].phase == Stopped
    ensures Step(s, a) == GiveUp(s, ActorOf(a), Step(s, a).issued != s.issued)
    ensures Step(s, a).issued != s.issued ==> s.workers[ActorOf(a)].phase in {Claimed, Calling}
  {
  }

  lemma ForwardFits(s: System, a: Action)
    requires ActorOf(a) < |s.workers| && WorkerOk(s, ActorOf(a))
    requires IsForward(a)
    requires Step(s, a) != s && Step(s, a).workers[ActorOf(a)].phase != Stopped
    ensures
      var w := ActorOf(a);
      var x, y := s.workers[w], Step(s, a).workers[w];
      && Step(s, a) == With(s, w, y) && y.job == x.job && WorkerOk(With(s, w, y), w)
      && (BeforeCall(x.phase) || (!BeforeCall(y.phase) && y.checks == x.checks))
      && (Early(x.phase) || !Early(y.phase))
  {
  }

  lemma InitialInv(jobs: seq<Job>)
    requires forall j :: j in jobs ==> ProperJob(j)
    ensures Inv(Initial(jobs))
  {
  }

  /** Every run of any number of workers is safe. */
  lemma {:induction false} RunSafe(jobs: seq<Job>, actions: seq<Action>)
    requires forall j :: j in jobs ==> ProperJob(j)
    ensures Inv(Run(Initial(jobs), actions)) && Safe(Run(Initial(jobs), actions))
  {
    if actions == [] {
      InitialInv(jobs);
    } else {
      RunSafe(jobs, actions[..|actions| - 1]);
      StepKeeps(Run(Initial(jobs), actions[..|actions| - 1]), actions[|actions| - 1]);
    }
    InvIsSafe(Run(Initial(jobs), actions));
  }

  /** Claims and terminals are write-once, and the history of calls only grows. */
  lemma StepGrows(s: System, a: Action)
    ensures Grows(s.tables, Step(s, a).tables) && s.log <= Step(s, a).log
  {
  }

  lemma {:induction false} RunGrows(s: System, actions: seq<Action>, n: nat)
    requires n <= |actions|
    ensures Grows(Run(s, actions[..n]).tables, Run(s, actions).tables) && Run(s, actions[..n]).log <= Run(s, actions).log
  {
    hide Step, Grows;
    if n == |actions| {
      assert actions[..n] == actions;
      GrowsReflexive(Run(s, actions).tables);
    } else {
      var m := |actions| - 1;
      assert actions[..m][..n] == actions[..n];
      RunGrows(s, actions[..m], n);
      StepGrows(Run(s, actions[..m]), actions[m]);
      GrowsTransitive(Run(s, actions[..n]).tables, Run(s, actions[..m]).tables, Run(s, actions).tables);
      assert Run(s, actions[..n]).log <= Run(s, actions[..m]).log <= Run(s, actions).log;
    }
  }

  lemma GrowsReflexive(a: Tables)
    ensures Grows(a, a)
  {
  }

  lemma GrowsTransitive(a: Tables, b: Tables, c: Tables)
    requires Grows(a, b) && Grows(b, c)
    ensures Grows(a, c)
  {
  }
}
