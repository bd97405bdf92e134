/** Whole histories of self-commissioning runs: ticks, crashes, kill switch, recoveries and human decisions. */
module SelfCommissioningRuns {
  import opened Common
  import opened Acceptance
  import opened SelfCommissioning

  // ------------------------------------------------------ invariant of a run

  /** How many events of a kind a history has. */
  function Count(h: seq<Event>, kind: Kind): nat {
    if |h| == 0 then 0 else Count(h[..|h|-1], kind) + if h[|h|-1].kind == kind then 1 else 0
  }

  lemma {:induction false} CountAppend(h: seq<Event>, e: Event, kind: Kind)
    ensures Count(h + [e], kind) == Count(h, kind) + if e.kind == kind then 1 else 0
  {
    assert (h + [e])[..|h|] == h;
  }

  /** Dispatches and refused dispatches, less everything that pays for one: a completed step, a retry, a
      recovery, a restart, a human rejection. */
  function Balance(r: Run): int {
    Count(r.history, Dispatched) + Count(r.history, KillSwitch) + Count(r.history, ReadinessBlocked)
    - |r.completedSteps| - r.retryBudget.consumed - r.recoveryBudget.consumed
    - Count(r.history, RestartResume) - Count(r.history, HumanNg)
  }

  /** The balance is settled while a run is queued or has succeeded, and open by one otherwise. */
  predicate Balanced(r: Run) {
    match r.status
    case Queued => Balance(r) == 0
    case Succeeded => Balance(r) == 0
    case Cancelled => 0 <= Balance(r) <= 1
    case _ => Balance(r) == 1
  }

  predicate StepsOk(steps: seq<CStep>) {
    && |steps| > 0
    && (forall i :: 0 <= i < |steps| ==> steps[i].stepId != "" && !Blank(steps[i].stepId))
    && (forall i, k :: 0 <= i < k < |steps| ==> steps[i].stepId != steps[k].stepId)
  }

  /** The statuses from which a run can still be dispatched, directly or after a decision. */
  predicate Unfinished(s: Status) { s.Running? || s.Queued? || s.WaitingHuman? || s.Blocked? || s.Failed? }

  /** The completed steps are exactly the first ones, and an unfinished run stands at the next. */
  predicate AtCheckpoint(v: Stored) {
    var k := |v.run.completedSteps|;
    && k <= |v.steps| && v.run.completedSteps == StepIds(v.steps)[..k]
    && (Unfinished(v.run.status) ==> k < |v.steps| && v.run.currentStep == Some(v.steps[k].stepId))
    && (v.run.status.Queued? ==>
          v.run.queuedStep == v.run.currentStep && v.run.queuedActor == Some(ActorOf(v.steps[k])))
    && (v.run.status.Running? ==>
          && v.run.activeActor == Some(ActorOf(v.steps[k])) && v.run.activeExecutionId.Some?
          && v.run.activeExecutionId.value == ExecutionId(v.run.runId, v.steps[k].stepId, v.run.retryBudget.consumed))
    && (v.run.status.Blocked? ==> v.run.failedStep == v.run.currentStep)
  }

  predicate RunInv(v: Stored) {
    RunValid(v.run) && StepsOk(v.steps) && !v.run.status.Idle? && AtCheckpoint(v) && Balanced(v.run)
  }

  // --------------------------------------------------------- one operation

  lemma {:induction false} StepIs(steps: seq<CStep>, k: nat)
    requires StepsOk(steps) && k < |steps|
    ensures FindStep(steps, Some(steps[k].stepId)) == Some(steps[k])
  {
    var i := StepIndex(steps, steps[k].stepId);
    assert i == k;
  }

  lemma {:induction false} NextIs(steps: seq<CStep>, done: seq<string>, k: nat)
    requires k <= |steps| && (forall i :: 0 <= i < k ==> steps[i].stepId in done)
    requires k < |steps| ==> steps[k].stepId !in done
    ensures NextStep(steps, done) == if k < |steps| then Some(steps[k]) else None
  {
    if k > 0 { NextIs(steps[1..], done, k - 1); }
  }

  lemma {:induction false} NextAfter(steps: seq<CStep>, k: nat)
    requires StepsOk(steps) && k < |steps|
    ensures
      var done := StepIds(steps)[..k] + [steps[k].stepId];
      && done == StepIds(steps)[..k+1]
      && NextStep(steps, done) == if k + 1 < |steps| then Some(steps[k+1]) else None
  {
    var done := StepIds(steps)[..k+1];
    assert done == StepIds(steps)[..k] + [steps[k].stepId];
    forall i | 0 <= i < k + 1 ensures steps[i].stepId in done { assert done[i] == steps[i].stepId; }
    NextIs(steps, done, k + 1);
  }

  function Weight(kind: Kind): int {
    match kind
    case Dispatched => 1
    case KillSwitch => 1
    case ReadinessBlocked => 1
    case RestartResume => -1
    case HumanNg => -1
    case _ => 0
  }

  /** How one logged event moves the balance. */
  lemma {:induction false} BalanceMoves(r: Run, r': Run, e: Event)
    requires r'.history == r.history + [e]
    ensures Balance(r') == Balance(r) + Weight(e.kind)
                           - (|r'.completedSteps| - |r.completedSteps|)
                           - (r'.retryBudget.consumed - r.retryBudget.consumed)
                           - (r'.recoveryBudget.consumed - r.recoveryBudget.consumed)
  {
    CountAppend(r.history, e, Dispatched);
    CountAppend(r.history, e, KillSwitch);
    CountAppend(r.history, e, ReadinessBlocked);
    CountAppend(r.history, e, RestartResume);
    CountAppend(r.history, e, HumanNg);
  }

  lemma {:induction false} NotYetDone(v: Stored, k: nat)
    requires StepsOk(v.steps) && k < |v.steps| && v.run.completedSteps == StepIds(v.steps)[..k]
    ensures v.steps[k].stepId !in v.run.completedSteps
  {
    forall i | 0 <= i < k ensures v.run.completedSteps[i] != v.steps[k].stepId {
      assert v.run.completedSteps[i] == StepIds(v.steps)[i];
    }
  }

  lemma {:induction false} NewRunInv(runId: string, objective: string, steps: seq<CStep>, retryLimit: int, at: int)
    requires NewRun(runId, objective, steps, retryLimit, at).Ok?
    requires RunValid(NewRun(runId, objective, steps, retryLimit, at).value.run)
    ensures RunInv(NewRun(runId, objective, steps, retryLimit, at).value)
  {
    var v := NewRun(runId, objective, steps, retryLimit, at).value;
    forall i | 0 <= i < |steps| ensures steps[i].stepId != "" && !Blank(steps[i].stepId) {
      assert Token(steps[i].stepId) && !Space(steps[i].stepId[0]);
    }
    forall i, k | 0 <= i < k < |steps| ensures steps[i].stepId != steps[k].stepId {
      assert StepIds(steps)[i] != StepIds(steps)[k];
    }
    BalanceMoves(v.run.(history := []), v.run, v.run.history[0]);
  }

  /** The tick claims the step after the completed ones; it is never one of them, and it is always found. */
  lemma {:induction false} ClaimKeepsInv(v: Stored, enabled: bool, at: int)
    requires RunInv(v) && v.run.status.Queued?
    ensures Claim(v, enabled, at).Ok?
    ensures
      var r := Claim(v, enabled, at).value;
      && (RunValid(r) ==> RunInv(Stored(r, v.steps)))
      && (enabled ==> r.status.Running? && r.currentStep.Some? && r.currentStep.value !in v.run.completedSteps
                      && Count(r.history, Dispatched) == Count(v.run.history, Dispatched) + 1)
      && (!enabled ==> r.status.Blocked? && Count(r.history, Dispatched) == Count(v.run.history, Dispatched))
  {
    var k := |v.run.completedSteps|;
    StepIs(v.steps, k);
    NotYetDone(v, k);
    var r := Claim(v, enabled, at).value;
    BalanceMoves(v.run, r, r.history[|v.run.history|]);
  }

  lemma {:induction false} FinishAtCheckpoint(v: Stored, step: CStep, r: StepResult, at: int)
    requires AtCheckpoint(v) && StepsOk(v.steps) && v.run.status.Running?
    requires FindStep(v.steps, v.run.currentStep) == Some(step)
    ensures
      var r' := Finish(v, step, r, at);
      && AtCheckpoint(Stored(r', v.steps))
      && (r'.status.Succeeded? <==> r.status.StepSucceeded? && |v.run.completedSteps| + 1 == |v.steps|)
      && |r'.completedSteps| == |v.run.completedSteps| + if r.status.StepSucceeded? then 1 else 0
  {
    var k := |v.run.completedSteps|;
    StepIs(v.steps, k);
    if r.status.StepSucceeded? { NextAfter(v.steps, k); }
  }

  /** Whatever the executor answers, the result keeps the invariant; the tick ends SUCCEEDED only when every step
      is completed. */
  lemma {:induction false} FinishKeepsInv(v: Stored, step: CStep, r: StepResult, at: int)
    requires RunInv(v) && v.run.status.Running? && FindStep(v.steps, v.run.currentStep) == Some(step)
    requires RunValid(Finish(v, step, r, at))
    ensures RunInv(Stored(Finish(v, step, r, at), v.steps))
    ensures Finish(v, step, r, at).status.Succeeded? <==>
              r.status.StepSucceeded? && |v.run.completedSteps| + 1 == |v.steps|
    ensures r.status.StepSucceeded? <==> |Finish(v, step, r, at).completedSteps| == |v.run.completedSteps| + 1
  {
    FinishAtCheckpoint(v, step, r, at);
    BalanceMoves(v.run, Finish(v, step, r, at), Event(Reported, at, r.summary));
  }

  lemma {:induction false} RecoverKeepsInv(v: Stored, person: string, reason: string, expected: Revision, at: int)
    requires RunInv(v) && v.run.status.Blocked?
    ensures FindStep(v.steps, v.run.failedStep).Some?
    ensures Recover(v, person, reason, expected, at).Ok? && RunValid(Recover(v, person, reason, expected, at).value) ==>
              RunInv(Stored(Recover(v, person, reason, expected, at).value, v.steps))
  {
    StepIs(v.steps, |v.run.completedSteps|);
    var r := Recover(v, person, reason, expected, at);
    if r.Ok? { BalanceMoves(v.run, r.value, r.value.history[|v.run.history|]); }
  }

  lemma {:induction false} RecoverInterruptedKeepsInv(v: Stored, reason: string, staleBefore: int, at: int)
    requires RunInv(v) && RecoverInterrupted(v, reason, staleBefore, at).Ok?
    requires RunValid(RecoverInterrupted(v, reason, staleBefore, at).value)
    ensures RunInv(Stored(RecoverInterrupted(v, reason, staleBefore, at).value, v.steps))
  {
    if v.run.status.Running? {
      StepIs(v.steps, |v.run.completedSteps|);
      var r := RecoverInterrupted(v, reason, staleBefore, at).value;
      BalanceMoves(v.run, r, r.history[|v.run.history|]);
    }
  }

  /** A human answer keeps the invariant. Accepting ends the run with the waiting step as its last completed one, so
      that steps are left over exactly when the gate was not at the last step. */
  lemma {:induction false} DecisionKeepsInv(v: Stored, person: string, ok: bool, reason: Option<string>, at: int)
    requires RunInv(v) && HumanDecision(v, person, ok, reason, at).Ok?
    ensures
      var r := HumanDecision(v, person, ok, reason, at).value;
      && (RunValid(r) ==> RunInv(Stored(r, v.steps)))
      && (ok ==> r.status.Succeeded?)
      && (ok ==> (|r.completedSteps| == |v.steps| <==> v.run.currentStep == Some(v.steps[|v.steps|-1].stepId)))
  {
    var k := |v.run.completedSteps|;
    assert k < |v.steps| && v.run.currentStep == Some(v.steps[k].stepId);
    StepIs(v.steps, k);
    NotYetDone(v, k);
    NextAfter(v.steps, k);
    var r := HumanDecision(v, person, ok, reason, at).value;
    BalanceMoves(v.run, r, r.history[|v.run.history|]);
  }

  lemma {:induction false} CancelKeepsInv(v: Stored, at: int)
    requires RunInv(v) && RunValid(Cancel(v, at))
    ensures RunInv(Stored(Cancel(v, at), v.steps))
  {
    var r := Cancel(v, at);
    if r != v.run { BalanceMoves(v.run, r, r.history[|v.run.history|]); }
  }

  /** A waiting run cannot be cancelled: its gate stays, and the store's check refuses the result. */
  lemma CancelNeedsNoGate(v: Stored, at: int)
    requires RunInv(v)
    ensures RunValid(Cancel(v, at)) <==> !v.run.status.WaitingHuman?
  {
  }

  lemma {:induction false} BlockKeepsInv(v: Stored, reason: string, at: int)
    requires RunInv(v) && v.run.status.Queued? && RunValid(Block(v, reason, at))
    ensures RunInv(Stored(Block(v, reason, at), v.steps))
  {
    BalanceMoves(v.run, Block(v, reason, at), Event(ReadinessBlocked, at, reason));
  }

  lemma {:induction false} ReopenKeepsInv(v: Stored, at: int)
    requires RunInv(v)
    ensures Reopen(v, at).Ok? && RunInv(Stored(Reopen(v, at).value, v.steps)) && !Reopen(v, at).value.status.Running?
  {
    if v.run.status.Running? {
      StepIs(v.steps, |v.run.completedSteps|);
      var r := Reopen(v, at).value;
      BalanceMoves(v.run, r, r.history[|v.run.history|]);
    }
  }

  // ------------------------------------------------------------ whole histories

  /** The stored runs, the switch, and the runs whose executor has been called and not yet answered, each with
      the copy its tick goes on with. */
  datatype System = System(runs: seq<Stored>, enabled: bool, inflight: map<string, Stored>)

  ghost predicate At(s: System, i: int) { 0 <= i < |s.runs| }

  function IdOf(s: System, i: int): string
    requires 0 <= i < |s.runs|
  {
    s.runs[i].run.runId
  }

  /** Replaces run i by `run` when the store accepts it. */
  predicate Updated(s: System, s': System, i: int, run: Run) {
    && 0 <= i < |s.runs| && RunValid(run)
    && s'.runs == s.runs[i := Stored(run, s.runs[i].steps)] && s'.enabled == s.enabled
  }

  ghost predicate CreateWith(
    s: System, s': System, runId: string, objective: string, steps: seq<CStep>, retryLimit: int, at: int)
  {
    var v := NewRun(runId, objective, steps, retryLimit, at);
    && v.Ok? && RunValid(v.value.run) && RunIndex(s.runs, runId) == |s.runs|
    && s' == s.(runs := s.runs + [v.value])
  }

  ghost predicate CreateStep(s: System, s': System) {
    exists runId, objective, steps, retryLimit, at :: CreateWith(s, s', runId, objective, steps, retryLimit, at)
  }

  /** A tick claims a queued run; its executor is called when the claim has been stored. */
  ghost predicate ClaimStep(s: System, s': System, i: int, at: int) {
    && At(s, i) && s.runs[i].run.status.Queued? && IdOf(s, i) !in s.inflight
    && Claim(s.runs[i], s.enabled, at).Ok?
    && Updated(s, s', i, Claim(s.runs[i], s.enabled, at).value)
    && s'.inflight == if s.enabled then s.inflight[IdOf(s, i) := s'.runs[i]] else s.inflight
  }

  /** The executor answers, and the tick writes back the copy it went on with. */
  ghost predicate FinishStep(s: System, s': System, i: int, r: StepResult, at: int) {
    && At(s, i) && IdOf(s, i) in s.inflight
    && var v := s.inflight[IdOf(s, i)];
       var step := FindStep(v.steps, v.run.currentStep);
       && step.Some? && Updated(s, s', i, Finish(v, step.value, r, at))
       && s'.inflight == s.inflight - {IdOf(s, i)}
  }

  /** The tick's last write fails or is refused: the run stays RUNNING and nobody works on it. */
  ghost predicate LoseStep(s: System, s': System, i: int) {
    At(s, i) && IdOf(s, i) in s.inflight && s' == s.(inflight := s.inflight - {IdOf(s, i)})
  }

  /** The operations on a run from outside its tick. */
  datatype Action =
    | Recovery(person: string, reason: string, expected: Revision)
    | Interruption(reason: string, staleBefore: int)
    | Decision(person: string, ok: bool, comment: Option<string>)
    | Cancellation
    | Blocking(reason: string)

  function Outcome(v: Stored, a: Action, at: int): Result<Run> {
    match a
    case Recovery(person, reason, expected) => Recover(v, person, reason, expected, at)
    case Interruption(reason, staleBefore) => RecoverInterrupted(v, reason, staleBefore, at)
    case Decision(person, ok, comment) => HumanDecision(v, person, ok, comment, at)
    case Cancellation => Ok(Cancel(v, at))
    case Blocking(reason) => Ok(Block(v, reason, at))
  }

  /** An outside operation on a run that no tick has in flight; only queued runs are blocked. */
  ghost predicate OutsideStep(s: System, s': System, i: int, a: Action, at: int) {
    && At(s, i) && IdOf(s, i) !in s.inflight && s'.inflight == s.inflight
    && (a.Blocking? ==> s.runs[i].run.status.Queued?)
    && Outcome(s.runs[i], a, at).Ok? && Updated(s, s', i, Outcome(s.runs[i], a, at).value)
  }

  ghost predicate SwitchStep(s: System, s': System) { s'.runs == s.runs && s'.inflight == s.inflight }

  /** A crash loses the ticks; opening the store queues the interrupted runs. */
  ghost predicate CrashStep(s: System, s': System) {
    && s'.inflight == map[] && s'.enabled == s.enabled
    && exists at :: ReopenAll(s.runs, at) == Ok(s'.runs)
  }

  ghost predicate Step(s: System, s': System) {
    || CreateStep(s, s') || SwitchStep(s, s') || CrashStep(s, s')
    || (exists i, at :: ClaimStep(s, s', i, at))
    || (exists i, r, at :: FinishStep(s, s', i, r, at))
    || (exists i :: LoseStep(s, s', i))
    || (exists i, a, at :: OutsideStep(s, s', i, a, at))
  }

  ghost predicate StepAt(trace: seq<System>, i: int)
    requires 0 <= i < |trace| - 1
  {
    Step(trace[i], trace[i+1])
  }

  ghost predicate History(trace: seq<System>) {
    && |trace| > 0 && trace[0].runs == [] && trace[0].inflight == map[]
    && forall i :: 0 <= i < |trace| - 1 ==> StepAt(trace, i)
  }

  ghost predicate RunsOk(runs: seq<Stored>) { forall i :: 0 <= i < |runs| ==> RunInv(runs[i]) }

  ghost predicate DistinctRuns(runs: seq<Stored>) {
    forall i, k :: 0 <= i < k < |runs| ==> runs[i].run.runId != runs[k].run.runId
  }

  /** A copy in flight is the stored run. */
  ghost predicate CopiesStored(s: System) {
    forall id :: id in s.inflight ==>
      s.inflight[id] in s.runs && s.inflight[id].run.runId == id && s.inflight[id].run.status.Running?
  }

  ghost predicate Inv(s: System) { RunsOk(s.runs) && DistinctRuns(s.runs) && CopiesStored(s) }

  lemma {:induction false} CopyIsStored(s: System, i: nat)
    requires Inv(s) && i < |s.runs| && s.runs[i].run.runId in s.inflight
    ensures s.inflight[s.runs[i].run.runId] == s.runs[i] && RunInv(s.runs[i]) && s.runs[i].run.status.Running?
  {
    var k :| 0 <= k < |s.runs| && s.runs[k] == s.inflight[s.runs[i].run.runId];
    assert k == i;
  }

  /** The copies in flight after run i has been replaced: its own is untouched, dropped or renewed. */
  predicate CopiesFollow(s: System, s': System, v: Stored) {
    || (s'.inflight == s.inflight && v.run.runId !in s.inflight)
    || s'.inflight == s.inflight - {v.run.runId}
    || (s'.inflight == s.inflight[v.run.runId := v] && v.run.status.Running?)
  }

  lemma {:induction false} CopiesKept(s: System, s': System, i: int, v: Stored)
    requires CopiesStored(s) && 0 <= i < |s.runs| && s'.runs == s.runs[i := v] && v.run.runId == s.runs[i].run.runId
    requires CopiesFollow(s, s', v)
    ensures CopiesStored(s')
  {
    forall id | id in s'.inflight && id != v.run.runId ensures s'.inflight[id] in s'.runs {
      var k :| 0 <= k < |s.runs| && s.runs[k] == s.inflight[id];
      assert s'.runs[k] == s'.inflight[id];
    }
    assert s'.runs[i] == v;
  }

  lemma {:induction false} UpdatedKeepsInv(s: System, s': System, i: int, run: Run)
    requires Inv(s) && Updated(s, s', i, run) && RunInv(Stored(run, s.runs[i].steps))
    requires run.runId == s.runs[i].run.runId
    requires CopiesFollow(s, s', Stored(run, s.runs[i].steps))
    ensures Inv(s')
  {
    CopiesKept(s, s', i, Stored(run, s.runs[i].steps));
  }

  lemma {:induction false} AddedKeepsInv(s: System, s': System, v: Stored)
    requires Inv(s) && RunInv(v) && RunIndex(s.runs, v.run.runId) == |s.runs| && s' == s.(runs := s.runs + [v])
    ensures Inv(s')
  {
    forall id | id in s'.inflight ensures s'.inflight[id] in s'.runs { assert s'.inflight[id] in s.runs; }
  }

  lemma {:induction false} CreateKeepsInv(s: System, s': System)
    requires Inv(s) && CreateStep(s, s')
    ensures Inv(s')
  {
    var runId, objective, steps, retryLimit, at :| CreateWith(s, s', runId, objective, steps, retryLimit, at);
    NewRunInv(runId, objective, steps, retryLimit, at);
    AddedKeepsInv(s, s', NewRun(runId, objective, steps, retryLimit, at).value);
  }

  lemma {:induction false} ClaimStepKeepsInv(s: System, s': System, i: int, at: int)
    requires Inv(s) && ClaimStep(s, s', i, at)
    ensures Inv(s')
  {
    assert RunInv(s.runs[i]);
    ClaimKeepsInv(s.runs[i], s.enabled, at);
    UpdatedKeepsInv(s, s', i, Claim(s.runs[i], s.enabled, at).value);
  }

  lemma {:induction false} FinishedRun(v: Stored, r: StepResult, at: int, run: Run)
    requires RunInv(v) && v.run.status.Running? && FindStep(v.steps, v.run.currentStep).Some?
    requires run == Finish(v, FindStep(v.steps, v.run.currentStep).value, r, at) && RunValid(run)
    ensures RunInv(Stored(run, v.steps)) && run.runId == v.run.runId
  {
    FinishKeepsInv(v, FindStep(v.steps, v.run.currentStep).value, r, at);
  }

  lemma {:induction false} FinishStepKeepsInv(s: System, s': System, i: int, r: StepResult, at: int)
    requires Inv(s) && FinishStep(s, s', i, r, at)
    ensures Inv(s')
  {
    CopyIsStored(s, i);
    FinishedRun(s.runs[i], r, at, s'.runs[i].run);
    UpdatedKeepsInv(s, s', i, s'.runs[i].run);
  }

  lemma {:induction false} ActionKeepsInv(v: Stored, a: Action, at: int)
    requires RunInv(v) && (a.Blocking? ==> v.run.status.Queued?)
    requires Outcome(v, a, at).Ok? && RunValid(Outcome(v, a, at).value)
    ensures RunInv(Stored(Outcome(v, a, at).value, v.steps)) && Outcome(v, a, at).value.runId == v.run.runId
  {
    match a
    case Recovery(person, reason, expected) => RecoverKeepsInv(v, person, reason, expected, at);
    case Interruption(reason, staleBefore) => RecoverInterruptedKeepsInv(v, reason, staleBefore, at);
    case Decision(person, ok, comment) => DecisionKeepsInv(v, person, ok, comment, at);
    case Cancellation => CancelKeepsInv(v, at);
    case Blocking(reason) => BlockKeepsInv(v, reason, at);
  }

  lemma {:induction false} OutsideKeepsInv(s: System, s': System, i: int, a: Action, at: int)
    requires Inv(s) && OutsideStep(s, s', i, a, at)
    ensures Inv(s')
  {
    assert RunInv(s.runs[i]);
    ActionKeepsInv(s.runs[i], a, at);
    UpdatedKeepsInv(s, s', i, Outcome(s.runs[i], a, at).value);
  }

  lemma {:induction false} ReopenAllIs(runs: seq<Stored>, at: int)
    requires forall i :: 0 <= i < |runs| ==> RunInv(runs[i])
    ensures ReopenAll(runs, at).Ok? && |ReopenAll(runs, at).value| == |runs|
    ensures forall i :: 0 <= i < |runs| ==>
      Reopen(runs[i], at).Ok? && ReopenAll(runs, at).value[i] == Stored(Reopen(runs[i], at).value, runs[i].steps)
  {
    if |runs| > 0 {
      ReopenKeepsInv(runs[0], at);
      ReopenAllIs(runs[1..], at);
    }
  }

  lemma {:induction false} CrashKeepsInv(s: System, s': System)
    requires Inv(s) && CrashStep(s, s')
    ensures Inv(s')
  {
    var at :| ReopenAll(s.runs, at) == Ok(s'.runs);
    ReopenAllIs(s.runs, at);
    forall i | 0 <= i < |s'.runs| ensures RunInv(s'.runs[i]) && s'.runs[i].run.runId == s.runs[i].run.runId {
      ReopenKeepsInv(s.runs[i], at);
    }
  }

  lemma {:induction false} StepKeepsInv(s: System, s': System)
    requires Inv(s) && Step(s, s')
    ensures Inv(s')
  {
    if CreateStep(s, s') {
      CreateKeepsInv(s, s');
    } else if CrashStep(s, s') {
      CrashKeepsInv(s, s');
    } else if i, at :| ClaimStep(s, s', i, at) {
      ClaimStepKeepsInv(s, s', i, at);
    } else if i, r, at :| FinishStep(s, s', i, r, at) {
      FinishStepKeepsInv(s, s', i, r, at);
    } else if i, a, at :| OutsideStep(s, s', i, a, at) {
      OutsideKeepsInv(s, s', i, a, at);
    }
  }

  lemma {:induction false} HistoryKeepsInv(trace: seq<System>, n: nat)
    requires History(trace) && n < |trace|
    ensures Inv(trace[n])
    decreases n
  {
    if n > 0 {
      HistoryKeepsInv(trace, n - 1);
      assert StepAt(trace, n - 1);
      StepKeepsInv(trace[n-1], trace[n]);
    }
  }

  // ------------------------------------------------------------ main results

  /** Dispatches are paid for: in every history each run satisfies the exact balance, so that its dispatches never
      exceed its steps, its two budgets, the restarts and the human rejections, plus one. */
  lemma {:induction false} DispatchesArePaidFor(trace: seq<System>, n: nat, i: nat)
    requires History(trace) && n < |trace| && i < |trace[n].runs|
    ensures
      var v := trace[n].runs[i];
      var paid := |v.run.completedSteps| + v.run.retryBudget.consumed + v.run.recoveryBudget.consumed
                  + Count(v.run.history, RestartResume) + Count(v.run.history, HumanNg);
      && Balanced(v.run)
      && Count(v.run.history, Dispatched) <= paid + (if v.run.status.Queued? then 0 else 1)
      && v.run.retryBudget.consumed <= v.run.retryBudget.limit
      && v.run.recoveryBudget.consumed <= v.run.recoveryBudget.limit
      && |v.run.completedSteps| <= |v.steps|
  {
    HistoryKeepsInv(trace, n);
    assert RunInv(trace[n].runs[i]);
  }

  /** The completed steps are always a prefix of the steps, an unfinished run stands at the next one, and a copy
      in flight is the stored run, so that writing it back loses nothing. */
  lemma {:induction false} CheckpointsArePrefixes(trace: seq<System>, n: nat, i: nat)
    requires History(trace) && n < |trace| && i < |trace[n].runs|
    ensures AtCheckpoint(trace[n].runs[i]) && RunValid(trace[n].runs[i].run)
    ensures trace[n].runs[i].run.runId in trace[n].inflight ==>
              trace[n].inflight[trace[n].runs[i].run.runId] == trace[n].runs[i]
  {
    HistoryKeepsInv(trace, n);
    var s := trace[n];
    assert RunInv(s.runs[i]);
    if s.runs[i].run.runId in s.inflight { CopyIsStored(s, i); }
  }

  /** From every reachable state the store can be reopened, and no operation misses its checkpoint. */
  lemma {:induction false} CheckpointsAreFound(trace: seq<System>, n: nat, i: nat, at: int)
    requires History(trace) && n < |trace| && i < |trace[n].runs|
    ensures ReopenAll(trace[n].runs, at).Ok?
    ensures Unfinished(trace[n].runs[i].run.status) ==>
              FindStep(trace[n].runs[i].steps, trace[n].runs[i].run.currentStep).Some?
    ensures trace[n].runs[i].run.status.Blocked? ==>
              FindStep(trace[n].runs[i].steps, trace[n].runs[i].run.failedStep).Some?
  {
    HistoryKeepsInv(trace, n);
    ReopenAllIs(trace[n].runs, at);
    var v := trace[n].runs[i];
    assert RunInv(v);
    if Unfinished(v.run.status) { StepIs(v.steps, |v.run.completedSteps|); }
  }
}
