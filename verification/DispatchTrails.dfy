/** What every run of the one-shot protocol had to go through, told by the actions themselves: behind a call, a release
    and a completed terminal stands the whole walk of one worker, in order, with its verdicts, readings and answer. */
module DispatchTrails {
  import opened Outcomes
  import opened ProductionClaims
  import opened OneShotDispatch

  datatype Stage =
    | AtBegin | AtEvidence | AtSignature | AtAuthority | AtClaim | AtAcknowledgement | AtRecheck
    | AtCall | AtAnswer | AtCompletion | AtRelease

  /** The stages of a job, in the order in which they must be passed. */
  function Stages(j: Job): seq<Stage> {
    if j.Sign?
    then [AtBegin, AtAuthority, AtClaim, AtAcknowledgement, AtCall, AtAnswer, AtCompletion, AtRelease]
    else [AtBegin, AtEvidence, AtSignature, AtAuthority, AtClaim, AtAcknowledgement, AtRecheck,
          AtCall, AtAnswer, AtCompletion, AtRelease]
  }

  /** The index of the call among the stages. */
  function CallStage(j: Job): nat {
    if j.Sign? then 4 else 7
  }

  /** The action is this worker's and its verdict is the good one. */
  predicate Passes(stage: Stage, w: nat, a: Action) {
    match stage
    case AtBegin => a.Begin? && a.w == w
    case AtEvidence => a.LoadSigning? && a.w == w
    case AtSignature => a.VerifySignature? && a.w == w && a.ok
    case AtAuthority => a.Authorize? && a.w == w && a.ok
    case AtClaim => a == CommitClaim(w)
    case AtAcknowledgement => a.AcknowledgeClaim? && a.w == w
    case AtRecheck => a.Recheck? && a.w == w && a.ok
    case AtCall => a == CallOut(w)
    case AtAnswer => a.Answer? && a.w == w && a.ok
    case AtCompletion => a.IssueCompletion? && a.w == w
    case AtRelease => a.AcknowledgeWrite? && a.w == w
  }

  predicate Timed(stage: Stage) {
    stage != AtClaim && stage != AtCall
  }

  /** The first and the last clock reading of an action. */
  function FirstReading(a: Action): int {
    match a
    case Begin(_, now) => now
    case LoadSigning(_, now) => now
    case VerifySignature(_, _, now) => now
    case Authorize(_, _, now) => now
    case AcknowledgeClaim(_, now) => now
    case Recheck(_, _, first, _, _) => first
    case Answer(_, _, _, now, _) => now
    case IssueCompletion(_, now) => now
    case AcknowledgeWrite(_, now) => now
    case _ => 0
  }

  function LastReading(a: Action): int {
    if a.Recheck? then a.second else FirstReading(a)
  }

  /** One stage of a walk: which action passed it, and where the worker's clock then stood. */
  datatype Mark = Mark(at: nat, clock: int)

  /** The k-th mark is an action that passes the k-th stage, after the one before it; the clock never runs backwards and
      stays before the expiry. */
  predicate Marked(j: Job, w: nat, actions: seq<Action>, trail: seq<Mark>, k: nat)
    requires k < |trail| && k < |Stages(j)|
  {
    var stage, mark := Stages(j)[k], trail[k];
    && mark.at < |actions| && Passes(stage, w, actions[mark.at]) && mark.clock < j.expires
    && (k > 0 ==> trail[k - 1].at < mark.at && trail[k - 1].clock <= mark.clock)
    && (if Timed(stage) then
          && FirstReading(actions[mark.at]) <= LastReading(actions[mark.at]) == mark.clock
          && (k > 0 ==> trail[k - 1].clock <= FirstReading(actions[mark.at]))
        else k > 0 && trail[k - 1].clock == mark.clock)
  }

  /** `trail` picks out of the actions one for each of the first stages; the expiry was near when the walk began. */
  predicate Walked(j: Job, w: nat, actions: seq<Action>, trail: seq<Mark>) {
    && |trail| <= |Stages(j)|
    && (forall k :: 0 <= k < |trail| ==> Marked(j, w, actions, trail, k))
    && (trail != [] ==> j.expires <= trail[0].clock + 30)
  }

  lemma WalkedStays(j: Job, w: nat, a: seq<Action>, b: seq<Action>, trail: seq<Mark>)
    requires a <= b && Walked(j, w, a, trail)
    ensures Walked(j, w, b, trail)
  {
    forall k | 0 <= k < |trail| ensures Marked(j, w, b, trail, k) {
      assert Marked(j, w, a, trail, k);
    }
  }

  /** How many stages a worker in this phase has passed. */
  function Reached(j: Job, p: Phase): nat {
    match p
    case Idle => 0
    case Started => 1
    case Evidenced => 2
    case Verified => 3
    case Authorized => if j.Sign? then 2 else 4
    case Committed(_) => if j.Sign? then 3 else 5
    case Claimed => 6
    case Admitted => CallStage(j)
    case Calling => CallStage(j) + 1
    case Answered(_) => CallStage(j) + 2
    case Completing(_) => CallStage(j) + 3
    case Returned(_) => CallStage(j) + 4
    case Stopped => 0
  }

  /** The worker stands where its trail ends, with the answer it was given. */
  predicate OnTrail(j: Job, w: nat, x: Worker, actions: seq<Action>, trail: seq<Mark>) {
    && x.job == j && Walked(j, w, actions, trail) && |trail| == Reached(j, x.phase)
    && (j.Sign? ==> x.phase !in {Evidenced, Verified, Claimed})
    && (trail != [] ==> x.high == trail[|trail| - 1].clock)
    && (x.phase.Answered? || x.phase.Completing? || x.phase.Returned? ==> Answers(j, w, actions, trail, x.phase.digest))
  }

  /** The answer on the trail carries this digest. */
  predicate Answers(j: Job, w: nat, actions: seq<Action>, trail: seq<Mark>, digest: Digest) {
    && |trail| > CallStage(j) + 1 && trail[CallStage(j) + 1].at < |actions|
    && actions[trail[CallStage(j) + 1].at].Answer? && actions[trail[CallStage(j) + 1].at].w == w
    && actions[trail[CallStage(j) + 1].at].ok && actions[trail[CallStage(j) + 1].at].digest == digest
  }

  /** The mark that `a`, coming next, leaves. */
  function NextMark(j: Job, actions: seq<Action>, trail: seq<Mark>, a: Action): Mark
    requires |trail| < |Stages(j)|
  {
    Mark(|actions|, if Timed(Stages(j)[|trail|]) || trail == [] then LastReading(a) else trail[|trail| - 1].clock)
  }

  /** `a` passes the stage that comes next, in time. */
  predicate Next(j: Job, w: nat, trail: seq<Mark>, a: Action) {
    && |trail| < |Stages(j)| && Passes(Stages(j)[|trail|], w, a)
    && (if trail == [] then FirstReading(a) < j.expires <= FirstReading(a) + 30
        else Timed(Stages(j)[|trail|]) ==>
               trail[|trail| - 1].clock <= FirstReading(a) <= LastReading(a) < j.expires)
  }

  lemma WalkOn(j: Job, w: nat, actions: seq<Action>, trail: seq<Mark>, a: Action)
    requires Walked(j, w, actions, trail) && Next(j, w, trail, a)
    ensures Walked(j, w, actions + [a], trail + [NextMark(j, actions, trail, a)])
  {
    var longer, further := actions + [a], trail + [NextMark(j, actions, trail, a)];
    WalkedStays(j, w, actions, longer, trail);
    NewMark(j, w, actions, trail, a);
    forall k | 0 <= k < |further| ensures Marked(j, w, longer, further, k) {
      if k < |trail| {
        assert Marked(j, w, longer, trail, k);
        SameMark(j, w, longer, trail, further, k);
      }
    }
    hide Marked, Next, Passes;
    if trail == [] { FirstMark(j, w, actions, a); }
  }

  lemma FirstMark(j: Job, w: nat, actions: seq<Action>, a: Action)
    requires Next(j, w, [], a)
    ensures NextMark(j, actions, [], a).clock == FirstReading(a) && j.expires <= FirstReading(a) + 30
  {
  }

  /** A mark depends on itself and the one before it only. */
  lemma SameMark(j: Job, w: nat, actions: seq<Action>, trail: seq<Mark>, further: seq<Mark>, k: nat)
    requires k < |trail| && k < |Stages(j)| && trail <= further && Marked(j, w, actions, trail, k)
    ensures Marked(j, w, actions, further, k)
  {
    hide Passes;
  }

  lemma NewMark(j: Job, w: nat, actions: seq<Action>, trail: seq<Mark>, a: Action)
    requires Walked(j, w, actions, trail) && Next(j, w, trail, a)
    ensures Marked(j, w, actions + [a], trail + [NextMark(j, actions, trail, a)], |trail|)
  {
    if trail != [] { assert Marked(j, w, actions, trail, |trail| - 1); }
    assert trail == [] ==> a.Begin?;
    hide Passes;
  }

  /** A step that does not stop a worker leaves it where it is or takes it one stage further. */
  lemma StepOnTrail(s: System, a: Action, w: nat, actions: seq<Action>, trail: seq<Mark>) returns (further: seq<Mark>)
    requires w < |s.workers| && OnTrail(s.workers[w].job, w, s.workers[w], actions, trail)
    ensures |Step(s, a).workers| == |s.workers| && Step(s, a).workers[w].job == s.workers[w].job
    ensures trail <= further
    ensures Step(s, a).workers[w].phase != Stopped ==>
      OnTrail(s.workers[w].job, w, Step(s, a).workers[w], actions + [a], further)
  {
    StepShape(s, a, w);
    hide Step, OnTrail, Walked, Next, Advanced;
    var x, y := s.workers[w], Step(s, a).workers[w];
    if y == x || y.phase == Stopped {
      further := trail;
      if y == x { Stays(x, w, actions, trail, a); }
    } else {
      StepPasses(s, a, w, actions, trail);
      WalksOn(x, y, w, actions, trail, a);
      NextFits(x.job, w, trail, a);
      WalkOn(x.job, w, actions, trail, a);
      further := trail + [NextMark(x.job, actions, trail, a)];
      Further(x, y, w, actions, trail, a);
    }
  }

  lemma StepShape(s: System, a: Action, w: nat)
    requires w < |s.workers|
    ensures |Step(s, a).workers| == |s.workers| && Step(s, a).workers[w].job == s.workers[w].job
  {
    hide SigningProven, WithClaim, ClaimAnswer, WithTerminal, MayFinish;
  }

  lemma Stays(x: Worker, w: nat, actions: seq<Action>, trail: seq<Mark>, a: Action)
    requires OnTrail(x.job, w, x, actions, trail)
    ensures OnTrail(x.job, w, x, actions + [a], trail)
  {
    WalkedStays(x.job, w, actions, actions + [a], trail);
    hide Walked;
  }

  lemma WalksOn(x: Worker, y: Worker, w: nat, actions: seq<Action>, trail: seq<Mark>, a: Action)
    requires OnTrail(x.job, w, x, actions, trail) && Advanced(x, y, w, trail, a)
    ensures Walked(x.job, w, actions, trail) && Next(x.job, w, trail, a)
  {
    hide Walked, Next;
  }

  lemma NextFits(j: Job, w: nat, trail: seq<Mark>, a: Action)
    requires Next(j, w, trail, a)
    ensures |trail| < |Stages(j)|
  {
  }

  lemma Further(x: Worker, y: Worker, w: nat, actions: seq<Action>, trail: seq<Mark>, a: Action)
    requires OnTrail(x.job, w, x, actions, trail) && Advanced(x, y, w, trail, a)
    requires Walked(x.job, w, actions + [a], trail + [NextMark(x.job, actions, trail, a)])
    ensures OnTrail(x.job, w, y, actions + [a], trail + [NextMark(x.job, actions, trail, a)])
  {
    hide Walked;
  }

  /** From `x` to `y` the worker passed the next stage. */
  predicate Advanced(x: Worker, y: Worker, w: nat, trail: seq<Mark>, a: Action) {
    var j := x.job;
    && y.job == j && Next(j, w, trail, a) && Reached(j, y.phase) == |trail| + 1
    && y.high == (if Timed(Stages(j)[|trail|]) then LastReading(a) else x.high)
    && (j.Sign? ==> y.phase !in {Evidenced, Verified, Claimed})
    && (y.phase.Answered? ==> a.Answer? && y.phase.digest == a.digest)
    && (y.phase.Completing? || y.phase.Returned? ==>
          (x.phase.Answered? || x.phase.Completing?) && y.phase.digest == x.phase.digest)
  }

  /** What the one step further was. */
  lemma StepPasses(s: System, a: Action, w: nat, actions: seq<Action>, trail: seq<Mark>)
    requires w < |s.workers| && OnTrail(s.workers[w].job, w, s.workers[w], actions, trail)
    requires Step(s, a).workers[w] != s.workers[w] && Step(s, a).workers[w].phase != Stopped
    ensures Advanced(s.workers[w], Step(s, a).workers[w], w, trail, a)
  {
    assert ActorOf(a) == w;
    hide Walked, SigningProven, WithClaim, ClaimAnswer, WithTerminal, MayFinish, Answers, Advanced;
    if a.Begin? || a.LoadSigning? || a.VerifySignature? || a.Authorize? {
      EarlyPasses(s, a, w, actions, trail);
    } else if a.CommitClaim? || a.AcknowledgeClaim? || a.Recheck? || a.CallOut? {
      ClaimPasses(s, a, w, actions, trail);
    } else {
      LatePasses(s, a, w, actions, trail);
    }
  }

  lemma EarlyPasses(s: System, a: Action, w: nat, actions: seq<Action>, trail: seq<Mark>)
    requires w < |s.workers| && OnTrail(s.workers[w].job, w, s.workers[w], actions, trail)
    requires Step(s, a).workers[w] != s.workers[w] && Step(s, a).workers[w].phase != Stopped
    requires ActorOf(a) == w && (a.Begin? || a.LoadSigning? || a.VerifySignature? || a.Authorize?)
    ensures Advanced(s.workers[w], Step(s, a).workers[w], w, trail, a)
  {
    hide Walked, SigningProven, Answers;
  }

  lemma ClaimPasses(s: System, a: Action, w: nat, actions: seq<Action>, trail: seq<Mark>)
    requires w < |s.workers| && OnTrail(s.workers[w].job, w, s.workers[w], actions, trail)
    requires Step(s, a).workers[w] != s.workers[w] && Step(s, a).workers[w].phase != Stopped
    requires ActorOf(a) == w && (a.CommitClaim? || a.AcknowledgeClaim? || a.Recheck? || a.CallOut?)
    ensures Advanced(s.workers[w], Step(s, a).workers[w], w, trail, a)
  {
    hide Walked, SigningProven, WithClaim, ClaimAnswer, Answers;
  }

  lemma LatePasses(s: System, a: Action, w: nat, actions: seq<Action>, trail: seq<Mark>)
    requires w < |s.workers| && OnTrail(s.workers[w].job, w, s.workers[w], actions, trail)
    requires Step(s, a).workers[w] != s.workers[w] && Step(s, a).workers[w].phase != Stopped
    requires ActorOf(a) == w && (a.Answer? || a.IssueCompletion? || a.CommitWrite? || a.AcknowledgeWrite? || a.Stop?)
    ensures Advanced(s.workers[w], Step(s, a).workers[w], w, trail, a)
  {
    hide Walked, SigningProven, WithTerminal, MayFinish, Answers;
  }

  // ---------------------------------------------------------------- the laws

  /** Whatever was done so far, a worker that has not stopped got where it is by its own walk. */
  lemma {:induction false} TrailOf(jobs: seq<Job>, actions: seq<Action>, w: nat) returns (trail: seq<Mark>)
    requires w < |jobs|
    ensures |Run(Initial(jobs), actions).workers| == |jobs| && Run(Initial(jobs), actions).workers[w].job == jobs[w]
    ensures Run(Initial(jobs), actions).workers[w].phase != Stopped ==>
      OnTrail(jobs[w], w, Run(Initial(jobs), actions).workers[w], actions, trail)
  {
    trail := [];
    if actions != [] {
      var before, a := actions[..|actions| - 1], actions[|actions| - 1];
      assert actions == before + [a];
      var s := Run(Initial(jobs), before);
      trail := TrailOf(jobs, before, w);
      hide Step, OnTrail;
      if s.workers[w].phase != Stopped {
        trail := StepOnTrail(s, a, w, before, trail);
      } else {
        StoppedStays(s, a, w);
      }
    }
  }

  lemma StoppedStays(s: System, a: Action, w: nat)
    requires w < |s.workers| && s.workers[w].phase == Stopped
    ensures |Step(s, a).workers| == |s.workers| && Step(s, a).workers[w].job == s.workers[w].job
    ensures Step(s, a).workers[w].phase == Stopped
  {
    hide SigningProven, WithClaim, ClaimAnswer, WithTerminal, MayFinish;
  }

  /** What one step may add to the history. */
  lemma StepLogs(s: System, a: Action)
    ensures Step(s, a).log == s.log || (ActorOf(a) < |s.workers| &&
      var w := ActorOf(a);
      var x, y := s.workers[w], Step(s, a).workers[w];
      || (a.CallOut? && x.phase == Admitted && y.phase == Calling && Step(s, a).log == s.log + [External(w, x.high)])
      || (a.AcknowledgeWrite? && y.phase.Returned? && Step(s, a).log == s.log + [Released(w, y.phase.digest)]))
  {
    hide SigningProven, WithClaim, ClaimAnswer, WithTerminal, MayFinish;
  }

  /** Behind every call stands the whole walk of its worker up to the call: the evidence, the independent verification,
      both authority checks and its own committed claim, in this order and in time. */
  lemma {:induction false} CallsWalked(jobs: seq<Job>, actions: seq<Action>, i: nat) returns (trail: seq<Mark>)
    requires i < |Run(Initial(jobs), actions).log| && Run(Initial(jobs), actions).log[i].External?
    ensures
      var call := Run(Initial(jobs), actions).log[i];
      && call.worker < |jobs| && Walked(jobs[call.worker], call.worker, actions, trail)
      && |trail| == CallStage(jobs[call.worker]) + 1 && trail[|trail| - 1].clock == call.at
  {
    if actions == [] { assert false; }
    var before, a := actions[..|actions| - 1], actions[|actions| - 1];
    assert actions == before + [a];
    var s := Run(Initial(jobs), before);
    StepLogs(s, a);
    if i < |s.log| {
      StepGrows(s, a);
      trail := CallsWalked(jobs, before, i);
      var w := s.log[i].worker;
      WalkedStays(jobs[w], w, before, actions, trail);
    } else {
      InRangeOf(jobs, before);
      trail := TrailOf(jobs, before, ActorOf(a));
      trail := CallWalked(s, a, before, trail);
    }
  }

  /** The step that calls out. */
  lemma CallWalked(s: System, a: Action, before: seq<Action>, trail: seq<Mark>) returns (further: seq<Mark>)
    requires ActorOf(a) < |s.workers| && a.CallOut? && s.workers[ActorOf(a)].phase == Admitted
    requires Step(s, a).workers[ActorOf(a)].phase == Calling
    requires OnTrail(s.workers[ActorOf(a)].job, ActorOf(a), s.workers[ActorOf(a)], before, trail)
    ensures
      var w := ActorOf(a);
      var j := s.workers[w].job;
      && Walked(j, w, before + [a], further) && |further| == CallStage(j) + 1
      && further[|further| - 1].clock == s.workers[w].high
  {
    var w := ActorOf(a);
    further := StepOnTrail(s, a, w, before, trail);
    assert Step(s, a).workers[w].high == s.workers[w].high;
    hide Walked, Step;
  }

  lemma InRangeOf(jobs: seq<Job>, actions: seq<Action>)
    ensures |Run(Initial(jobs), actions).workers| == |jobs|
  {
    if jobs != [] {
      var _ := TrailOf(jobs, actions, 0);
    } else {
      NobodyActs(actions);
    }
  }

  lemma {:induction false} NobodyActs(actions: seq<Action>)
    ensures Run(Initial([]), actions) == Initial([])
  {
    if actions != [] { NobodyActs(actions[..|actions| - 1]); }
  }

  /** Whatever a worker released is the digest of the good answer to its own call, recorded and acknowledged in time. */
  lemma {:induction false} ReleasesWalked(jobs: seq<Job>, actions: seq<Action>, i: nat) returns (trail: seq<Mark>)
    requires i < |Run(Initial(jobs), actions).log| && Run(Initial(jobs), actions).log[i].Released?
    ensures
      var release := Run(Initial(jobs), actions).log[i];
      && release.worker < |jobs| && Walked(jobs[release.worker], release.worker, actions, trail)
      && |trail| == |Stages(jobs[release.worker])|
      && Answers(jobs[release.worker], release.worker, actions, trail, release.digest)
  {
    if actions == [] { assert false; }
    var before, a := actions[..|actions| - 1], actions[|actions| - 1];
    assert actions == before + [a];
    var s := Run(Initial(jobs), before);
    StepLogs(s, a);
    if i < |s.log| {
      StepGrows(s, a);
      trail := ReleasesWalked(jobs, before, i);
      var w := s.log[i].worker;
      WalkedStays(jobs[w], w, before, actions, trail);
    } else {
      var w := ActorOf(a);
      InRangeOf(jobs, before);
      trail := TrailOf(jobs, before, w);
      if s.workers[w].phase == Stopped { StoppedStays(s, a, w); }
      trail := ReleaseWalked(s, a, before, trail);
    }
  }

  /** The step that releases. */
  lemma ReleaseWalked(s: System, a: Action, before: seq<Action>, trail: seq<Mark>) returns (further: seq<Mark>)
    requires ActorOf(a) < |s.workers| && Step(s, a).workers[ActorOf(a)].phase.Returned?
    requires OnTrail(s.workers[ActorOf(a)].job, ActorOf(a), s.workers[ActorOf(a)], before, trail)
    ensures
      var w := ActorOf(a);
      var j := s.workers[w].job;
      && Walked(j, w, before + [a], further) && |further| == |Stages(j)|
      && Answers(j, w, before + [a], further, Step(s, a).workers[w].phase.digest)
  {
    further := StepOnTrail(s, a, ActorOf(a), before, trail);
    hide Walked, Step, Answers;
  }

  /** Which writes one step may issue. */
  lemma StepIssues(s: System, a: Action, write: Write)
    requires write in Step(s, a).issued && write !in s.issued
    ensures ActorOf(a) < |s.workers| && write.worker == ActorOf(a)
    ensures write.result.Some? ==>
      && s.workers[write.worker].phase.Answered?
      && Step(s, a).workers[write.worker].phase == Completing(write.result.value)
  {
    hide SigningProven, WithClaim, ClaimAnswer, WithTerminal, MayFinish;
  }

  /** Every completion a worker ever issued carries the digest of the good answer to its own call. */
  lemma {:induction false} WritesWalked(jobs: seq<Job>, actions: seq<Action>, write: Write) returns (trail: seq<Mark>)
    requires write in Run(Initial(jobs), actions).issued && write.result.Some?
    ensures write.worker < |jobs| && Walked(jobs[write.worker], write.worker, actions, trail)
    ensures |trail| == CallStage(jobs[write.worker]) + 3
    ensures Answers(jobs[write.worker], write.worker, actions, trail, write.result.value)
  {
    if actions == [] { assert false; }
    var before, a := actions[..|actions| - 1], actions[|actions| - 1];
    assert actions == before + [a];
    var s := Run(Initial(jobs), before);
    if write in s.issued {
      trail := WritesWalked(jobs, before, write);
      WalkedStays(jobs[write.worker], write.worker, before, actions, trail);
    } else {
      StepIssues(s, a, write);
      InRangeOf(jobs, before);
      trail := TrailOf(jobs, before, write.worker);
      trail := StepOnTrail(s, a, write.worker, before, trail);
      hide Walked;
    }
  }

  /** A COMPLETED terminal holds the digest of the good answer to the call of the worker that owns its identity. */
  lemma CompletionsWalked(jobs: seq<Job>, actions: seq<Action>, k: ClaimKey) returns (w: nat, trail: seq<Mark>)
    requires forall j :: j in jobs ==> ProperJob(j)
    requires k in Run(Initial(jobs), actions).tables.terminals
    requires Run(Initial(jobs), actions).tables.terminals[k].status == COMPLETED
    ensures w < |jobs| && jobs[w].key == k && Walked(jobs[w], w, actions, trail) && |trail| == CallStage(jobs[w]) + 3
    ensures Run(Initial(jobs), actions).tables.terminals[k].result.Some?
    ensures Answers(jobs[w], w, actions, trail, Run(Initial(jobs), actions).tables.terminals[k].result.value)
  {
    var s := Run(Initial(jobs), actions);
    RunSafe(jobs, actions);
    w := s.owner[k];
    InRangeOf(jobs, actions);
    trail := WritesWalked(jobs, actions, Write(w, COMPLETED, s.tables.terminals[k].result));
    var _ := TrailOf(jobs, actions, w);
  }

  // ------------------------------------------------------------- progress

  lemma RunStep(s: System, actions: seq<Action>, n: nat)
    requires n < |actions|
    ensures Run(s, actions[..n + 1]) == Step(Run(s, actions[..n]), actions[n])
    ensures Run(s, actions[..0]) == s
  {
    assert actions[..n + 1][..n] == actions[..n];
  }

  /** What an unobstructed worker does before it owns a claim, all at the clock reading `t`. */
  function Checking(j: Job, w: nat, t: int): seq<Action> {
    if j.Sign? then [Begin(w, t), Authorize(w, true, t)]
    else [Begin(w, t), LoadSigning(w, t), VerifySignature(w, true, t), Authorize(w, true, t)]
  }

  /** How it gets from there to its call. */
  function Claiming(j: Job, w: nat, t: int): seq<Action> {
    [CommitClaim(w), AcknowledgeClaim(w, t)] + if j.Sign? then [] else [Recheck(w, true, t, t, true)]
  }

  /** The call, its answer, and the terminal that precedes the release. */
  function Completion(w: nat, t: int, digest: Digest): seq<Action> {
    [CallOut(w), Answer(w, true, digest, t, true), IssueCompletion(w, t),
     CommitWrite(Write(w, COMPLETED, Some(digest))), AcknowledgeWrite(w, t)]
  }

  /** `s` with worker `w` at another phase of its job. */
  function Moved(s: System, w: nat, phase: Phase, t: int, checks: nat): System
    requires w < |s.workers|
  {
    With(s, w, Worker(s.workers[w].job, phase, t, checks))
  }

  lemma Begins(s: System, w: nat, t: int)
    requires w < |s.workers| && s.workers[w].phase == Idle && s.workers[w].checks == 0
    requires t < s.workers[w].job.expires <= t + 30
    ensures Step(s, Begin(w, t)) == Moved(s, w, Started, t, 0)
  {
  }

  /** The evidence is loaded and verified. */
  lemma Verifies(s: System, w: nat, t: int)
    requires w < |s.workers| && s.workers[w].job.Wire? && SigningProven(s.tables, s.workers[w].job)
    requires t < s.workers[w].job.expires
    ensures Step(Moved(s, w, Started, t, 0), LoadSigning(w, t)) == Moved(s, w, Evidenced, t, 0)
    ensures Step(Moved(s, w, Evidenced, t, 0), VerifySignature(w, true, t)) == Moved(s, w, Verified, t, 0)
  {
    hide SigningProven;
  }

  lemma Authorizes(s: System, w: nat, t: int)
    requires w < |s.workers| && t < s.workers[w].job.expires
    ensures Step(Moved(s, w, if s.workers[w].job.Sign? then Started else Verified, t, 0), Authorize(w, true, t))
         == Moved(s, w, Authorized, t, 1)
  {
  }

  /** A worker whose evidence is in place and whose verdicts are good is authorized, and nothing else changed. */
  lemma CheckingAuthorizes(s: System, w: nat, t: int)
    requires w < |s.workers| && s.workers[w].phase == Idle && s.workers[w].checks == 0
    requires t < s.workers[w].job.expires <= t + 30
    requires s.workers[w].job.Wire? ==> SigningProven(s.tables, s.workers[w].job)
    ensures Run(s, Checking(s.workers[w].job, w, t)) == With(s, w, Worker(s.workers[w].job, Authorized, t, 1))
  {
    hide SigningProven, Run, Step;
    var path := Checking(s.workers[w].job, w, t);
    assert path[..|path|] == path;
    if s.workers[w].job.Sign? { SignAuthorizes(s, w, t); } else { WireAuthorizes(s, w, t); }
    assert Run(s, path) == Moved(s, w, Authorized, t, 1);
  }

  lemma SignAuthorizes(s: System, w: nat, t: int)
    requires w < |s.workers| && s.workers[w].phase == Idle && s.workers[w].checks == 0 && s.workers[w].job.Sign?
    requires t < s.workers[w].job.expires <= t + 30
    ensures Run(s, Checking(s.workers[w].job, w, t)) == Moved(s, w, Authorized, t, 1)
  {
    var path := Checking(s.workers[w].job, w, t);
    hide Run, Step, Moved;
    assert path[..2] == path;
    Begins(s, w, t);
    Authorizes(s, w, t);
    RunStep(s, path, 0);
    RunStep(s, path, 1);
  }

  lemma WireAuthorizes(s: System, w: nat, t: int)
    requires w < |s.workers| && s.workers[w].phase == Idle && s.workers[w].checks == 0 && s.workers[w].job.Wire?
    requires t < s.workers[w].job.expires <= t + 30 && SigningProven(s.tables, s.workers[w].job)
    ensures Run(s, Checking(s.workers[w].job, w, t)) == Moved(s, w, Authorized, t, 1)
  {
    var path := Checking(s.workers[w].job, w, t);
    hide SigningProven, Run, Step, Moved;
    assert path[..4] == path;
    Begins(s, w, t);
    Verifies(s, w, t);
    Authorizes(s, w, t);
    RunStep(s, path, 0);
    RunStep(s, path, 1);
    RunStep(s, path, 2);
    RunStep(s, path, 3);
  }

  /** An authorized worker whose identity is unclaimed owns it and is admitted, and nobody else moved. */
  lemma ClaimingAdmits(s: System, w: nat, t: int)
    requires w < |s.workers| && s.workers[w].phase == Authorized && s.workers[w].checks == 1
    requires s.workers[w].high == t < s.workers[w].job.expires && s.workers[w].job.key !in s.tables.claims
    ensures
      var j := s.workers[w].job;
      Run(s, Claiming(j, w, t)) == With(s, w, Worker(j, Admitted, t, if j.Sign? then 1 else 2)).(
        tables := s.tables.(claims := s.tables.claims[j.key := Claim(j.request, j.context)]),
        owner := s.owner[j.key := w])
  {
    var j := s.workers[w].job;
    var path := Claiming(j, w, t);
    hide Run;
    assert path[..|path|] == path;
    RunStep(s, path, 0);
    RunStep(s, path, 1);
    if j.Wire? {
      RunStep(s, path, 2);
    }
  }

  /** The call goes out, is answered, and its digest is issued as the completion. */
  lemma CallsAndIssues(s: System, w: nat, t: int, digest: Digest)
    requires w < |s.workers| && s.workers[w].phase == Admitted && s.workers[w].high == t < s.workers[w].job.expires
    ensures
      var called := With(s, w, s.workers[w].(phase := Calling)).(log := s.log + [External(w, t)]);
      var answered := With(called, w, called.workers[w].(phase := Answered(digest)));
      && Step(s, CallOut(w)) == called
      && Step(called, Answer(w, true, digest, t, true)) == answered
      && Step(answered, IssueCompletion(w, t)) ==
           With(answered, w, answered.workers[w].(phase := Completing(digest))).(
             issued := s.issued + {Write(w, COMPLETED, Some(digest))})
  {
  }

  /** The completion lands, and its acknowledgement releases the digest. */
  lemma LandsAndReleases(s: System, w: nat, t: int, digest: Digest)
    requires w < |s.workers| && s.workers[w].phase == Completing(digest) && s.workers[w].high == t < s.workers[w].job.expires
    requires Write(w, COMPLETED, Some(digest)) in s.issued
    requires
      var j := s.workers[w].job;
      && j.key.kind != MANUAL_NONCE && j.key !in s.tables.terminals
      && j.key in s.tables.claims && s.tables.claims[j.key] == OwnClaim(j)
    ensures
      var x, write := s.workers[w], Write(w, COMPLETED, Some(digest));
      var landed := s.(tables := s.tables.(
        terminals := s.tables.terminals[x.job.key := Terminal(x.job.request, COMPLETED, Some(digest))]),
        acknowledged := s.acknowledged + {write});
      && Step(s, CommitWrite(write)) == landed
      && Step(landed, AcknowledgeWrite(w, t)) ==
           With(landed, w, x.(phase := Returned(digest))).(log := s.log + [Released(w, digest)])
  {
  }

  /** The call was answered and the completion is on its way. */
  function OnItsWay(s: System, w: nat, t: int, digest: Digest): System
    requires w < |s.workers|
  {
    With(s, w, s.workers[w].(phase := Completing(digest))).(
      issued := s.issued + {Write(w, COMPLETED, Some(digest))}, log := s.log + [External(w, t)])
  }

  lemma RunIssues(s: System, w: nat, t: int, digest: Digest)
    requires w < |s.workers| && s.workers[w].phase == Admitted && s.workers[w].high == t < s.workers[w].job.expires
    ensures Run(s, Completion(w, t, digest)[..3]) == OnItsWay(s, w, t, digest)
  {
    var path := Completion(w, t, digest);
    hide Run, Step;
    CallsAndIssues(s, w, t, digest);
    RunStep(s, path, 0);
    RunStep(s, path, 1);
    RunStep(s, path, 2);
  }

  /** An admitted worker whose call is answered in time calls once and releases that answer behind its own terminal. */
  lemma CompletionReleases(s: System, w: nat, t: int, digest: Digest)
    requires w < |s.workers| && s.workers[w].phase == Admitted && s.workers[w].high == t < s.workers[w].job.expires
    requires
      var j := s.workers[w].job;
      && j.key.kind != MANUAL_NONCE && j.key !in s.tables.terminals
      && j.key in s.tables.claims && s.tables.claims[j.key] == OwnClaim(j)
    ensures
      var x, write := s.workers[w], Write(w, COMPLETED, Some(digest));
      Run(s, Completion(w, t, digest)) == With(s, w, x.(phase := Returned(digest))).(
        tables := s.tables.(terminals := s.tables.terminals[x.job.key := Terminal(x.job.request, COMPLETED, Some(digest))]),
        issued := s.issued + {write}, acknowledged := s.acknowledged + {write},
        log := s.log + [External(w, t), Released(w, digest)])
  {
    var path := Completion(w, t, digest);
    hide Run, Step;
    assert path[..|path|] == path;
    RunIssues(s, w, t, digest);
    var issued := OnItsWay(s, w, t, digest);
    LandsAndReleases(issued, w, t, digest);
    RunStep(s, path, 3);
    RunStep(s, path, 4);
    assert s.log + [External(w, t)] + [Released(w, digest)] == s.log + [External(w, t), Released(w, digest)];
  }

  /** A failed call or second check that can still be recorded stops its worker behind an UNRESOLVED write. */
  lemma FailureIsIssued(s: System, w: nat, a: Action)
    requires w < |s.workers| && ActorOf(a) == w
    requires
      || (s.workers[w].phase == Claimed && a.Recheck? && !a.ok && a.record)
      || (s.workers[w].phase == Calling && a.Answer? && !a.ok && a.record)
    ensures Step(s, a) == With(s, w, s.workers[w].(phase := Stopped)).(issued := s.issued + {Write(w, UNRESOLVED, None)})
  {
  }

  /** Once that write lands, the identity is UNRESOLVED, for good by `RunGrows`, and nothing was released. */
  lemma FailureIsRecorded(s: System, w: nat, a: Action)
    requires Inv(s) && w < |s.workers| && ActorOf(a) == w
    requires
      || (s.workers[w].phase == Claimed && a.Recheck? && !a.ok && a.record)
      || (s.workers[w].phase == Calling && a.Answer? && !a.ok && a.record)
    ensures
      var failed := Step(s, a);
      var landed := Step(failed, CommitWrite(Write(w, UNRESOLVED, None)));
      var key := s.workers[w].job.key;
      && failed.workers[w].phase == Stopped && landed.log == s.log
      && key in landed.tables.terminals
      && landed.tables.terminals[key] == Terminal(s.workers[w].job.request, UNRESOLVED, None)
  {
    NotYetFinished(s, w);
    FailureIsIssued(s, w, a);
    var failed := With(s, w, s.workers[w].(phase := Stopped)).(issued := s.issued + {Write(w, UNRESOLVED, None)});
    hide Inv, Step;
    Lands(failed, w);
  }

  lemma Lands(s: System, w: nat)
    requires w < |s.workers| && Write(w, UNRESOLVED, None) in s.issued
    requires
      var j := s.workers[w].job;
      && j.key.kind != MANUAL_NONCE && j.key !in s.tables.terminals
      && j.key in s.tables.claims && s.tables.claims[j.key] == OwnClaim(j)
    ensures
      var landed := Step(s, CommitWrite(Write(w, UNRESOLVED, None)));
      && landed.log == s.log && s.workers[w].job.key in landed.tables.terminals
      && landed.tables.terminals[s.workers[w].job.key] == Terminal(s.workers[w].job.request, UNRESOLVED, None)
  {
  }

  lemma NotYetFinished(s: System, w: nat)
    requires Inv(s) && w < |s.workers| && s.workers[w].phase in {Claimed, Calling}
    ensures
      var j := s.workers[w].job;
      && j.key.kind != MANUAL_NONCE && j.key !in s.tables.terminals
      && j.key in s.tables.claims && s.tables.claims[j.key] == OwnClaim(j)
  {
    assert WorkerOk(s, w);
    NothingIssued(s, w);
  }
}
