/** Self-commissioning runs: a checkpointed list of steps, the operations on one run, and the store of runs. */
module SelfCommissioning {
  import opened Common
  import opened Acceptance

  datatype Actor = LCC | TX66KWH | GTX1060 | CODEX | GITHUB

  datatype StepKind = TxOperation | GtxOperation | CodexJob | SupervisorOperation

  /** A step; whether its job passes the policy check is given. */
  datatype CStep = CStep(stepId: string, kind: StepKind, safe: bool)

  datatype Status = Running | Queued | WaitingHuman | Blocked | Idle | Succeeded | Failed | Cancelled

  datatype Kind =
    | Created | Dispatched | Reported | RestartResume | KillSwitch | ReadinessBlocked | Recovered | Recovering
    | HumanOk | HumanNg | CancelRequested

  datatype Event = Event(kind: Kind, at: int, summary: string)

  /** The identity of a dispatch: a hash of exactly these three values. */
  datatype ExecutionId = ExecutionId(runId: string, stepId: string, attempt: int)

  /** What a recovery request must name: a hash of exactly these four values. */
  datatype Revision = Revision(runId: string, failedStep: string, blocker: string, attempt: int)

  datatype Budget = Budget(limit: int, consumed: int)

  datatype Run = Run(
    runId: string, objective: string, status: Status, currentStep: Option<string>,
    activeActor: Option<Actor>, activeExecutionId: Option<ExecutionId>,
    queuedActor: Option<Actor>, queuedStep: Option<string>, startedAt: int, updatedAt: int,
    completedSteps: seq<string>, failedStep: Option<string>, blocker: Option<string>, humanGate: Option<string>,
    retryBudget: Budget, recoveryBudget: Budget, history: seq<Event>)

  datatype Stored = Stored(run: Run, steps: seq<CStep>)

  datatype ResultStatus = StepSucceeded | StepFailed | StepBlocked | StepWaiting

  /** An executor's answer, its texts already redacted; an executor that throws reports a retryable failure. */
  datatype StepResult = StepResult(
    status: ResultStatus, summary: string, retryable: bool, blocker: Option<string>, humanGate: Option<string>)

  // ------------------------------------------------------------ invariant

  predicate Given(s: Option<string>) { s.Some? && !Blank(s.value) }

  predicate BudgetOk(b: Budget) { 0 <= b.consumed <= b.limit }

  /** The check that every stored run passes after every store update. */
  predicate RunValid(r: Run) {
    var active := r.activeActor.Some? || r.activeExecutionId.Some?;
    var queued := r.queuedActor.Some? || r.queuedStep.Some?;
    && !Blank(r.runId) && !Blank(r.objective) && BudgetOk(r.retryBudget) && BudgetOk(r.recoveryBudget)
    && match r.status
       case Running =>
         && r.activeActor.Some? && r.activeExecutionId.Some? && Given(r.currentStep)
         && !queued && !Given(r.blocker) && !Given(r.humanGate)
       case Queued =>
         r.queuedActor.Some? && Given(r.queuedStep) && !active && !Given(r.blocker) && !Given(r.humanGate)
       case WaitingHuman => Given(r.humanGate) && !active && !queued && !Given(r.blocker)
       case Blocked => Given(r.blocker) && !active && !queued && !Given(r.humanGate)
       case Idle => Given(r.blocker) && !active && !queued && !Given(r.humanGate)
       case _ => !active && !queued && !Given(r.humanGate)
  }

  function ActorOf(step: CStep): Actor {
    match step.kind
    case TxOperation => TX66KWH
    case GtxOperation => GTX1060
    case CodexJob => CODEX
    case SupervisorOperation => LCC
  }

  /** The first step with an id, or |steps|. */
  function StepIndex(steps: seq<CStep>, id: string): (i: nat)
    ensures i <= |steps|
    ensures i < |steps| ==> steps[i].stepId == id
    ensures forall k :: 0 <= k < i ==> steps[k].stepId != id
  {
    FirstIndex(steps, (x: CStep) => x.stepId == id)
  }

  function FindStep(steps: seq<CStep>, id: Option<string>): Option<CStep> {
    if id.Some? && StepIndex(steps, id.value) < |steps| then Some(steps[StepIndex(steps, id.value)]) else None
  }

  /** The first step that is not among the completed ones. */
  function NextStep(steps: seq<CStep>, done: seq<string>): Option<CStep> {
    if |steps| == 0 then None else if steps[0].stepId in done then NextStep(steps[1..], done) else Some(steps[0])
  }

  function Logged(r: Run, kind: Kind, at: int, summary: string): Run {
    r.(updatedAt := at, history := r.history + [Event(kind, at, summary)])
  }

  /** Nobody holds or waits for the run. */
  function Resting(r: Run): Run {
    r.(activeActor := None, activeExecutionId := None, queuedActor := None, queuedStep := None)
  }

  function QueuedFor(r: Run, step: CStep): Run {
    r.(status := Queued, activeActor := None, activeExecutionId := None,
       queuedActor := Some(ActorOf(step)), queuedStep := Some(step.stepId))
  }

  // ------------------------------------------------------------- operations

  predicate WordChar(c: char) { CheckChar(c) }

  predicate Token(s: string) { 1 <= |s| <= 100 && forall i :: 0 <= i < |s| ==> WordChar(s[i]) }

  predicate Person(s: string) { 1 <= |s| <= 100 && forall i :: 0 <= i < |s| ==> WordChar(s[i]) || s[i] == '@' }

  function StepIds(steps: seq<CStep>): (ids: seq<string>)
    ensures |ids| == |steps| && forall i :: 0 <= i < |ids| ==> ids[i] == steps[i].stepId
  {
    seq(|steps|, i requires 0 <= i < |steps| => steps[i].stepId)
  }

  predicate Acceptable(runId: string, objective: string, steps: seq<CStep>, retryLimit: int) {
    && Token(runId) && !Blank(objective) && |objective| <= 500 && 0 <= retryLimit <= 3
    && 1 <= |steps| <= 50 && Distinct(StepIds(steps))
    && forall i :: 0 <= i < |steps| ==>
         Token(steps[i].stepId) && (steps[i].kind.CodexJob? || steps[i].kind.SupervisorOperation? ==> steps[i].safe)
  }

  function NewRun(runId: string, objective: string, steps: seq<CStep>, retryLimit: int, at: int): Result<Stored> {
    if !Acceptable(runId, objective, steps, retryLimit) then Err("invalid bounded run")
    else
      Ok(Stored(Run(runId, objective, Queued, Some(steps[0].stepId), None, None, Some(ActorOf(steps[0])),
                    Some(steps[0].stepId), at, at, [], None, None, None, Budget(retryLimit, 0), Budget(3, 0),
                    [Event(Created, at, "Durable objective registered")]),
                steps))
  }

  function KindText(kind: StepKind): string {
    match kind
    case TxOperation => "TX_OPERATION"
    case GtxOperation => "GTX_OPERATION"
    case CodexJob => "CODEX_JOB"
    case SupervisorOperation => "SUPERVISOR_OPERATION"
  }

  /** What a tick does to a QUEUED run before it waits for the executor. */
  function Claim(v: Stored, enabled: bool, at: int): Result<Run> {
    if !enabled then
      Ok(Logged(v.run.(status := Blocked, queuedActor := None, queuedStep := None, failedStep := v.run.currentStep,
                       blocker := Some("Autonomous dispatch kill switch is disabled")),
                KillSwitch, at, "New dispatch prevented"))
    else
      var step := FindStep(v.steps, v.run.currentStep);
      if step.None? then Err("checkpoint unavailable")
      else
        Ok(Logged(v.run.(status := Running, activeActor := Some(ActorOf(step.value)),
                         activeExecutionId :=
                           Some(ExecutionId(v.run.runId, step.value.stepId, v.run.retryBudget.consumed)),
                         queuedActor := None, queuedStep := None, blocker := None, humanGate := None),
                  Dispatched, at, KindText(step.value.kind) + " dispatched"))
  }

  function TextOr(text: Option<string>, summary: string): Option<string> {
    if text.Some? then text else Some(summary)
  }

  /** What a tick does when its executor has answered. */
  function Finish(v: Stored, step: CStep, r: StepResult, at: int): Run {
    var base := Logged(v.run.(activeActor := None, activeExecutionId := None), Reported, at, r.summary);
    match r.status
    case StepSucceeded =>
      var done := v.run.completedSteps + [step.stepId];
      var next := NextStep(v.steps, done);
      if next.Some? then QueuedFor(base, next.value).(currentStep := Some(next.value.stepId), completedSteps := done)
      else Resting(base).(status := Succeeded, currentStep := None, completedSteps := done)
    case StepWaiting => Resting(base).(status := WaitingHuman, humanGate := TextOr(r.humanGate, r.summary))
    case StepBlocked =>
      Resting(base).(status := Blocked, failedStep := Some(step.stepId), blocker := TextOr(r.blocker, r.summary))
    case StepFailed =>
      if r.retryable && v.run.retryBudget.consumed < v.run.retryBudget.limit then
        QueuedFor(base, step).(retryBudget := Budget(v.run.retryBudget.limit, v.run.retryBudget.consumed + 1))
      else if r.retryable then
        Resting(base).(status := Blocked, failedStep := Some(step.stepId),
                       blocker := Some("Autonomous retry budget exhausted"))
      else Resting(base).(status := Failed, failedStep := Some(step.stepId), blocker := Some(r.summary))
  }

  function FailureRevision(r: Run): Revision {
    Revision(r.runId, if r.failedStep.Some? then r.failedStep.value else "",
             if r.blocker.Some? then r.blocker.value else "", r.retryBudget.consumed)
  }

  function Recover(v: Stored, person: string, reason: string, expected: Revision, at: int): Result<Run> {
    if !v.run.status.Blocked? || !NonEmpty(v.run.failedStep) || !NonEmpty(v.run.blocker) then
      Err("run is not recoverable")
    else if expected != FailureRevision(v.run) then Err("failure revision mismatch")
    else if !Person(person) || Blank(reason) || |reason| > 500 then Err("invalid recovery request")
    else if v.run.recoveryBudget.consumed >= v.run.recoveryBudget.limit then Err("recovery budget exhausted")
    else
      var step := FindStep(v.steps, v.run.failedStep);
      if step.None? then Err("failed checkpoint unavailable")
      else
        Ok(Logged(QueuedFor(v.run, step.value).(
                    currentStep := Some(step.value.stepId), failedStep := None, blocker := None,
                    recoveryBudget := Budget(v.run.recoveryBudget.limit, v.run.recoveryBudget.consumed + 1)),
                  Recovered, at, person + ": " + reason))
  }

  function RecoverInterrupted(v: Stored, reason: string, staleBefore: int, at: int): Result<Run> {
    if !v.run.status.Running? then Ok(v.run)
    else if v.run.updatedAt > staleBefore then Err("run is not stale")
    else if v.run.recoveryBudget.consumed >= v.run.recoveryBudget.limit then Err("recovery budget exhausted")
    else
      var step := FindStep(v.steps, v.run.currentStep);
      if step.None? then Err("checkpoint unavailable")
      else
        Ok(Logged(QueuedFor(v.run, step.value).(
                    recoveryBudget := Budget(v.run.recoveryBudget.limit, v.run.recoveryBudget.consumed + 1)),
                  Recovering, at, reason))
  }

  function Completing(done: seq<string>, id: string): seq<string> { if id in done then done else done + [id] }

  function HumanDecision(v: Stored, person: string, ok: bool, reason: Option<string>, at: int): Result<Run> {
    if !v.run.status.WaitingHuman? || !NonEmpty(v.run.currentStep) then Err("run is not waiting for Human")
    else if !Person(person) || (reason.Some? && |reason.value| > 500) then Err("invalid Human decision")
    else
      var step := FindStep(v.steps, v.run.currentStep);
      if step.None? then Err("checkpoint unavailable")
      else if ok then
        Ok(Logged(v.run.(status := Succeeded, currentStep := None, humanGate := None,
                         completedSteps := Completing(v.run.completedSteps, step.value.stepId)),
                  HumanOk, at, person + ": " + OrElse(reason, Some("accepted")).value))
      else
        Ok(Logged(v.run.(status := Queued, queuedActor := Some(ActorOf(step.value)),
                         queuedStep := Some(step.value.stepId), humanGate := None),
                  HumanNg, at, person + ": " + OrElse(reason, Some("rejected; repair required")).value))
  }

  /** Cancelling does not clear a human gate, so a waiting run refuses it when the store checks the result. */
  function Cancel(v: Stored, at: int): Run {
    if v.run.status.Succeeded? || v.run.status.Failed? || v.run.status.Cancelled? then v.run
    else Logged(Resting(v.run).(status := Cancelled), CancelRequested, at, "Cancellation requested")
  }

  function Block(v: Stored, reason: string, at: int): Run {
    Logged(Resting(v.run).(status := Blocked, failedStep := v.run.currentStep, blocker := Some(reason)),
           ReadinessBlocked, at, reason)
  }

  /** What opening the store does to a run that was interrupted. */
  function Reopen(v: Stored, at: int): Result<Run> {
    if !v.run.status.Running? then Ok(v.run)
    else
      var step := FindStep(v.steps, v.run.currentStep);
      if step.None? then Err("checkpoint unavailable")
      else Ok(Logged(QueuedFor(v.run, step.value), RestartResume, at, "Interrupted actor no longer claimed"))
  }

  // --------------------------------------------------------------- the store

  /** The first run with an id, or |runs|. */
  function RunIndex(runs: seq<Stored>, id: string): (i: nat)
    ensures i <= |runs|
    ensures i < |runs| ==> runs[i].run.runId == id
    ensures forall k :: 0 <= k < i ==> runs[k].run.runId != id
  {
    FirstIndex(runs, (x: Stored) => x.run.runId == id)
  }

  predicate AllRunsValid(runs: seq<Stored>) { forall i :: 0 <= i < |runs| ==> RunValid(runs[i].run) }

  /** The runs after one run has been replaced, unless the check of all runs or the write fails. */
  function Replaced(runs: seq<Stored>, id: string, run: Result<Run>, written: bool): seq<Stored> {
    var i := RunIndex(runs, id);
    if i == |runs| || run.Err? then runs
    else
      var next := runs[i := Stored(run.value, runs[i].steps)];
      if AllRunsValid(next) && written then next else runs
  }

  /** The runs after opening the store: every interrupted run is queued again. */
  function ReopenAll(runs: seq<Stored>, at: int): Result<seq<Stored>> {
    if |runs| == 0 then Ok([])
    else
      var first := Reopen(runs[0], at);
      var rest := ReopenAll(runs[1..], at);
      if first.Err? then Err(first.error)
      else if !RunValid(first.value) then Err("invalid run")
      else if rest.Err? then rest
      else Ok([Stored(first.value, runs[0].steps)] + rest.value)
  }

  class Store {
    var runs: seq<Stored>
    var dispatchEnabled: bool

    constructor ()
      ensures runs == [] && dispatchEnabled
    {
      runs, dispatchEnabled := [], true;
    }

    /** The tail of every update: check every run, write, publish. */
    method Publish(next: seq<Stored>, written: bool) returns (ok: bool)
      modifies this`runs
      ensures ok == (AllRunsValid(next) && written)
      ensures runs == if ok then next else old(runs)
    {
      ok := true;
      for i := 0 to |next|
        invariant ok == forall k :: 0 <= k < i ==> RunValid(next[k].run)
      {
        if !RunValid(next[i].run) { ok := false; }
      }
      ok := ok && written;
      if ok { runs := next; }
    }

    method Create(v: Stored, written: bool) returns (ok: bool)
      modifies this
      ensures ok == (RunIndex(old(runs), v.run.runId) == |old(runs)| && AllRunsValid(old(runs) + [v]) && written)
      ensures runs == if ok then old(runs) + [v] else old(runs)
      ensures dispatchEnabled == old(dispatchEnabled)
    {
      if RunIndex(runs, v.run.runId) < |runs| { return false; }
      ok := Publish(runs + [v], written);
    }

    /** Replaces one run by the result of an operation on it; `replace`, `cancel`, `recover`,
        `recoverInterrupted` and `humanDecision` all end here. */
    method ReplaceWith(id: string, run: Result<Run>, written: bool) returns (ok: bool)
      modifies this
      ensures runs == Replaced(old(runs), id, run, written)
      ensures ok ==> runs == Replaced(old(runs), id, run, true) && run.Ok?
      ensures dispatchEnabled == old(dispatchEnabled)
    {
      var i := RunIndex(runs, id);
      if i == |runs| || run.Err? { return false; }
      ok := Publish(runs[i := Stored(run.value, runs[i].steps)], written);
    }

    method RecoverRun(id: string, person: string, reason: string, expected: Revision, at: int, written: bool)
      returns (ok: bool)
      modifies this
      ensures RunIndex(old(runs), id) == |old(runs)| ==> runs == old(runs)
      ensures RunIndex(old(runs), id) < |old(runs)| ==>
        runs == Replaced(old(runs), id, Recover(old(runs)[RunIndex(old(runs), id)], person, reason, expected, at),
                         written)
    {
      var i := RunIndex(runs, id);
      if i == |runs| { return false; }
      ok := ReplaceWith(id, Recover(runs[i], person, reason, expected, at), written);
    }

    method DecideRun(id: string, person: string, accepted: bool, reason: Option<string>, at: int, written: bool)
      returns (ok: bool)
      modifies this
      ensures RunIndex(old(runs), id) == |old(runs)| ==> runs == old(runs)
      ensures RunIndex(old(runs), id) < |old(runs)| ==>
        runs == Replaced(old(runs), id, HumanDecision(old(runs)[RunIndex(old(runs), id)], person, accepted, reason, at),
                         written)
    {
      var i := RunIndex(runs, id);
      if i == |runs| { return false; }
      ok := ReplaceWith(id, HumanDecision(runs[i], person, accepted, reason, at), written);
    }

    /** Opening: a loop over the loaded runs that queues every interrupted one and checks each. */
    method Open(loaded: seq<Stored>, enabled: bool, at: int) returns (ok: bool)
      modifies this
      ensures ok == ReopenAll(loaded, at).Ok?
      ensures ok ==> runs == ReopenAll(loaded, at).value && dispatchEnabled == enabled
      ensures !ok ==> runs == old(runs) && dispatchEnabled == old(dispatchEnabled)
    {
      var next: seq<Stored> := [];
      assert loaded[0..] == loaded;
      assert ReopenAll(loaded, at).Ok? ==> next + ReopenAll(loaded, at).value == ReopenAll(loaded, at).value;
      for k := 0 to |loaded|
        invariant runs == old(runs) && dispatchEnabled == old(dispatchEnabled)
        invariant Continues(ReopenAll(loaded, at), next, ReopenAll(loaded[k..], at))
      {
        assert loaded[k..][0] == loaded[k] && loaded[k..][1..] == loaded[k+1..];
        var run := Reopen(loaded[k], at);
        if run.Err? || !RunValid(run.value) { return false; }
        var entry := Stored(run.value, loaded[k].steps);
        ghost var rest := ReopenAll(loaded[k+1..], at);
        assert rest.Ok? ==> next + ([entry] + rest.value) == (next + [entry]) + rest.value;
        next := next + [entry];
      }
      assert loaded[|loaded|..] == [] && next + [] == next;
      runs, dispatchEnabled, ok := next, enabled, true;
    }
  }

  /** The whole result is what has been opened so far, followed by the rest, if the rest opens. */
  predicate Continues(whole: Result<seq<Stored>>, done: seq<Stored>, rest: Result<seq<Stored>>) {
    if rest.Err? then whole.Err? else whole == Ok(done + rest.value)
  }
}
