/** What each operation makes of a self-commissioning run, field by field, and when it is accepted. */
module SelfCommissioningEffects {
  import opened Common
  import opened SelfCommissioning
  import opened SelfCommissioningRuns

  // ------------------------------------------------------------ what is said

  /** The same run, one event later. */
  predicate OneMore(r: Run, w: Run, kind: Kind, at: int, summary: string) {
    && w.runId == r.runId && w.objective == r.objective && w.startedAt == r.startedAt && w.updatedAt == at
    && w.history == r.history + [Event(kind, at, summary)]
  }

  /** Who executes a step of a kind. */
  predicate Executes(actor: Actor, kind: StepKind) {
    && (actor.TX66KWH? <==> kind.TxOperation?) && (actor.GTX1060? <==> kind.GtxOperation?)
    && (actor.CODEX? <==> kind.CodexJob?) && (actor.LCC? <==> kind.SupervisorOperation?)
  }

  predicate NoActor(w: Run) { w.activeActor.None? && w.activeExecutionId.None? }

  predicate NoQueue(w: Run) { w.queuedActor.None? && w.queuedStep.None? }

  predicate WaitsFor(w: Run, step: CStep) {
    && w.status.Queued? && NoActor(w) && w.queuedStep == Some(step.stepId)
    && w.queuedActor.Some? && Executes(w.queuedActor.value, step.kind)
  }

  predicate SameBudgets(r: Run, w: Run) { w.retryBudget == r.retryBudget && w.recoveryBudget == r.recoveryBudget }

  // --------------------------------------------------------------- an answer

  /** What the answer of an executor makes of its run, which stands at `step`, the next after the completed ones. */
  predicate AnsweredAs(v: Stored, step: CStep, answer: StepResult, w: Run, at: int) {
    var r, left := v.run, v.run.retryBudget.consumed < v.run.retryBudget.limit;
    var done := answer.status.StepSucceeded?;
    var failed := answer.status.StepFailed?;
    var k := |r.completedSteps| + 1;
    && OneMore(r, w, Reported, at, answer.summary) && NoActor(w) && w.recoveryBudget == r.recoveryBudget
    && (w.status.Succeeded? <==> done && k == |v.steps|)
    && (w.status.Queued? <==> (done && k < |v.steps|) || (failed && answer.retryable && left))
    && (w.status.WaitingHuman? <==> answer.status.StepWaiting?)
    && (w.status.Blocked? <==> answer.status.StepBlocked? || (failed && answer.retryable && !left))
    && (w.status.Failed? <==> failed && !answer.retryable)
    && w.completedSteps == r.completedSteps + (if done then [step.stepId] else [])
    && w.retryBudget.limit == r.retryBudget.limit
    && w.retryBudget.consumed == r.retryBudget.consumed + (if failed && answer.retryable && left then 1 else 0)
    && (done && k < |v.steps| ==> WaitsFor(w, v.steps[k]) && w.currentStep == Some(v.steps[k].stepId))
    && (done && k == |v.steps| ==> NoQueue(w) && w.currentStep.None?)
    && (!done ==> w.currentStep == r.currentStep) && (!w.status.Queued? ==> NoQueue(w))
    && (failed && answer.retryable && left ==> WaitsFor(w, step))
    && w.failedStep == (if w.status.Blocked? || w.status.Failed? then Some(step.stepId) else r.failedStep)
    && (answer.status.StepWaiting? ==>
          w.humanGate == if answer.humanGate.Some? then answer.humanGate else Some(answer.summary))
    && (!answer.status.StepWaiting? ==> w.humanGate == r.humanGate)
    && (answer.status.StepBlocked? ==>
          w.blocker == if answer.blocker.Some? then answer.blocker else Some(answer.summary))
    && (failed && answer.retryable && !left ==> w.blocker == Some("Autonomous retry budget exhausted"))
    && (failed && !answer.retryable ==> w.blocker == Some(answer.summary))
    && (done || answer.status.StepWaiting? || (failed && answer.retryable && left) ==> w.blocker == r.blocker)
  }

  /** Whatever an executor answers, its run becomes exactly this: queued again for the same step, with one retry
      consumed, if and only if the step failed retryably and a retry is left; waiting, blocked or failed if and only
      if the answer says so or no retry is left. */
  lemma {:induction false} AnswersAreExact(s: System, s': System, i: int, answer: StepResult, at: int)
    requires Inv(s) && FinishStep(s, s', i, answer, at)
    ensures
      var v, k := s.runs[i], |s.runs[i].run.completedSteps|;
      && v.run.status.Running? && k < |v.steps| && v.run.currentStep == Some(v.steps[k].stepId)
      && AnsweredAs(v, v.steps[k], answer, s'.runs[i].run, at)
  {
    CopyIsStored(s, i);
    var v, k := s.runs[i], |s.runs[i].run.completedSteps|;
    StepIs(v.steps, k);
    AnswerIs(v, k, answer, at);
  }

  lemma {:induction false} AnswerIs(v: Stored, k: nat, answer: StepResult, at: int)
    requires RunInv(v) && v.run.status.Running? && k == |v.run.completedSteps| < |v.steps|
    ensures AnsweredAs(v, v.steps[k], answer, Finish(v, v.steps[k], answer, at), at)
  {
    if answer.status.StepSucceeded? { SuccessIs(v, k, answer, at); } else { SetbackIs(v, k, answer, at); }
  }

  lemma {:induction false} SuccessIs(v: Stored, k: nat, answer: StepResult, at: int)
    requires RunInv(v) && v.run.status.Running? && k == |v.run.completedSteps| < |v.steps|
    requires answer.status.StepSucceeded?
    ensures AnsweredAs(v, v.steps[k], answer, Finish(v, v.steps[k], answer, at), at)
  {
    NextAfter(v.steps, k);
  }

  lemma {:induction false} SetbackIs(v: Stored, k: nat, answer: StepResult, at: int)
    requires RunInv(v) && v.run.status.Running? && k == |v.run.completedSteps| < |v.steps|
    requires !answer.status.StepSucceeded?
    ensures AnsweredAs(v, v.steps[k], answer, Finish(v, v.steps[k], answer, at), at)
  {
  }

  // ---------------------------------------------------------- creation and claim

  predicate WordText(s: string) {
    && 1 <= |s| <= 100
    && forall i :: 0 <= i < |s| ==>
         'a' <= s[i] <= 'z' || 'A' <= s[i] <= 'Z' || '0' <= s[i] <= '9' || s[i] in {'_', '.', '-'}
  }

  /** What is accepted as a new run: a plain id, an objective, at most three retries, and up to fifty steps with
      distinct plain ids, whose jobs pass the policy check. */
  predicate Bounded(runId: string, objective: string, steps: seq<CStep>, retryLimit: int) {
    && WordText(runId) && (exists i :: 0 <= i < |objective| && !Space(objective[i])) && |objective| <= 500
    && 0 <= retryLimit <= 3 && 1 <= |steps| <= 50
    && (forall i, k :: 0 <= i < k < |steps| ==> steps[i].stepId != steps[k].stepId)
    && forall i :: 0 <= i < |steps| ==>
         WordText(steps[i].stepId) && (steps[i].kind.CodexJob? || steps[i].kind.SupervisorOperation? ==> steps[i].safe)
  }

  lemma {:induction false} WordsAreTokens(s: string)
    ensures Token(s) <==> WordText(s)
  {
  }

  lemma {:induction false} BoundedIs(runId: string, objective: string, steps: seq<CStep>, retryLimit: int)
    ensures Acceptable(runId, objective, steps, retryLimit) <==> Bounded(runId, objective, steps, retryLimit)
  {
    WordsAreTokens(runId);
    forall i | 0 <= i < |steps| ensures Token(steps[i].stepId) <==> WordText(steps[i].stepId) {
      WordsAreTokens(steps[i].stepId);
    }
    var ids := StepIds(steps);
    if Acceptable(runId, objective, steps, retryLimit) {
      forall i, k | 0 <= i < k < |steps| ensures steps[i].stepId != steps[k].stepId { assert ids[i] != ids[k]; }
    }
  }

  /** A run is created if and only if it is bounded, and then waits for its first step, with full budgets. */
  lemma {:induction false} CreationIsExact(
    runId: string, objective: string, steps: seq<CStep>, retryLimit: int, at: int)
    ensures
      var v := NewRun(runId, objective, steps, retryLimit, at);
      && (v.Ok? <==> Bounded(runId, objective, steps, retryLimit))
      && (v.Ok? ==>
            var w := v.value.run;
            && v.value.steps == steps && w.runId == runId && w.objective == objective && WaitsFor(w, steps[0])
            && w.currentStep == Some(steps[0].stepId) && w.startedAt == w.updatedAt == at
            && w.completedSteps == [] && w.failedStep.None? && w.blocker.None? && w.humanGate.None?
            && w.retryBudget.limit == retryLimit && w.retryBudget.consumed == 0
            && w.recoveryBudget.limit == 3 && w.recoveryBudget.consumed == 0
            && w.history == [Event(Created, at, "Durable objective registered")])
  {
    BoundedIs(runId, objective, steps, retryLimit);
  }

  function NameOf(kind: StepKind): string {
    if kind.TxOperation? then "TX_OPERATION" else if kind.GtxOperation? then "GTX_OPERATION"
    else if kind.CodexJob? then "CODEX_JOB" else "SUPERVISOR_OPERATION"
  }

  /** A claim: with dispatch enabled the run is RUNNING its next step under an id made of run, step and retries; with
      the switch off it is blocked there. */
  predicate ClaimedAs(v: Stored, step: CStep, enabled: bool, w: Run, at: int) {
    var r := v.run;
    && w.currentStep == r.currentStep && w.completedSteps == r.completedSteps && SameBudgets(r, w) && NoQueue(w)
    && (enabled ==>
          && w.status.Running? && w.activeActor.Some? && Executes(w.activeActor.value, step.kind)
          && w.activeExecutionId == Some(ExecutionId(r.runId, step.stepId, r.retryBudget.consumed))
          && w.failedStep == r.failedStep && w.blocker.None? && w.humanGate.None?
          && OneMore(r, w, Dispatched, at, NameOf(step.kind) + " dispatched"))
    && (!enabled ==>
          && w.status.Blocked? && w.activeActor == r.activeActor && w.activeExecutionId == r.activeExecutionId
          && w.failedStep == r.currentStep && w.humanGate == r.humanGate
          && w.blocker == Some("Autonomous dispatch kill switch is disabled")
          && OneMore(r, w, KillSwitch, at, "New dispatch prevented"))
  }

  lemma {:induction false} ClaimIsExact(v: Stored, enabled: bool, at: int)
    requires RunInv(v) && v.run.status.Queued?
    ensures
      var k := |v.run.completedSteps|;
      k < |v.steps| && Claim(v, enabled, at).Ok? && ClaimedAs(v, v.steps[k], enabled, Claim(v, enabled, at).value, at)
  {
    StepIs(v.steps, |v.run.completedSteps|);
  }

  // ------------------------------------------------------- recoveries and decisions

  predicate Signed(person: string) {
    && 1 <= |person| <= 100
    && forall i :: 0 <= i < |person| ==>
         || 'a' <= person[i] <= 'z' || 'A' <= person[i] <= 'Z' || '0' <= person[i] <= '9'
         || person[i] in {'_', '.', '-', '@'}
  }

  lemma {:induction false} PersonsSign(s: string)
    ensures Person(s) <==> Signed(s)
  {
  }

  /** A recovery is accepted if and only if the run is BLOCKED, the request names its failure as it is, is signed and
      explained, and a recovery is left; the run then waits for its failed step with one recovery consumed. */
  lemma {:induction false} RecoveryIsExact(v: Stored, person: string, reason: string, expected: Revision, at: int)
    requires RunInv(v)
    ensures
      var r, result := v.run, Recover(v, person, reason, expected, at);
      && (result.Ok? <==>
            && r.status.Blocked?
            && expected == Revision(r.runId, r.failedStep.value, r.blocker.value, r.retryBudget.consumed)
            && Signed(person) && (exists i :: 0 <= i < |reason| && !Space(reason[i])) && |reason| <= 500
            && r.recoveryBudget.consumed < r.recoveryBudget.limit)
      && (result.Ok? ==>
            var w, step := result.value, v.steps[|r.completedSteps|];
            && OneMore(r, w, Recovered, at, person + ": " + reason) && WaitsFor(w, step)
            && r.failedStep == w.currentStep == Some(step.stepId) && w.failedStep.None? && w.blocker.None?
            && w.completedSteps == r.completedSteps && w.humanGate == r.humanGate && w.retryBudget == r.retryBudget
            && w.recoveryBudget.limit == r.recoveryBudget.limit
            && w.recoveryBudget.consumed == r.recoveryBudget.consumed + 1)
  {
    PersonsSign(person);
    if v.run.status.Blocked? { StepIs(v.steps, |v.run.completedSteps|); }
  }

  /** An interrupted run that has been quiet long enough waits for its step again, for one recovery; a run that is not
      RUNNING is left alone. */
  lemma {:induction false} InterruptionIsExact(v: Stored, reason: string, staleBefore: int, at: int)
    requires RunInv(v)
    ensures
      var r, result := v.run, RecoverInterrupted(v, reason, staleBefore, at);
      && (!r.status.Running? ==> result == Ok(r))
      && (r.status.Running? ==>
            && (result.Ok? <==> r.updatedAt <= staleBefore && r.recoveryBudget.consumed < r.recoveryBudget.limit)
            && (result.Ok? ==>
                  var w := result.value;
                  && OneMore(r, w, Recovering, at, reason) && WaitsFor(w, v.steps[|r.completedSteps|])
                  && w.currentStep == r.currentStep && w.completedSteps == r.completedSteps
                  && w.failedStep == r.failedStep && w.blocker == r.blocker && w.humanGate == r.humanGate
                  && w.retryBudget == r.retryBudget && w.recoveryBudget.limit == r.recoveryBudget.limit
                  && w.recoveryBudget.consumed == r.recoveryBudget.consumed + 1))
  {
    if v.run.status.Running? { StepIs(v.steps, |v.run.completedSteps|); }
  }

  /** A human decision is accepted if and only if the run waits for one and it is signed and not too long. Accepted,
      the run has succeeded with its step completed; rejected, it waits for the same step again. */
  lemma {:induction false} DecisionIsExact(v: Stored, person: string, ok: bool, reason: Option<string>, at: int)
    requires RunInv(v)
    ensures
      var r, result := v.run, HumanDecision(v, person, ok, reason, at);
      && (result.Ok? <==> r.status.WaitingHuman? && Signed(person) && (reason.Some? ==> |reason.value| <= 500))
      && (result.Ok? ==>
            var w, step := result.value, v.steps[|r.completedSteps|];
            var text := if reason.Some? then reason.value else if ok then "accepted" else "rejected; repair required";
            && OneMore(r, w, if ok then HumanOk else HumanNg, at, person + ": " + text) && SameBudgets(r, w)
            && w.humanGate.None? && w.failedStep == r.failedStep && w.blocker == r.blocker && NoActor(w)
            && (ok ==> w.status.Succeeded? && NoQueue(w) && w.currentStep.None?
                       && w.completedSteps == r.completedSteps + [step.stepId])
            && (!ok ==> WaitsFor(w, step) && w.currentStep == r.currentStep && w.completedSteps == r.completedSteps))
  {
    PersonsSign(person);
    if v.run.status.WaitingHuman? {
      StepIs(v.steps, |v.run.completedSteps|);
      NotYetDone(v, |v.run.completedSteps|);
    }
  }

  /** Cancelling leaves a finished run alone and ends any other; nothing else of it changes. */
  lemma {:induction false} CancellationIsExact(v: Stored, at: int)
    ensures
      var r, w := v.run, Cancel(v, at);
      if r.status.Succeeded? || r.status.Failed? || r.status.Cancelled? then w == r
      else
        && OneMore(r, w, CancelRequested, at, "Cancellation requested") && w.status.Cancelled? && NoActor(w)
        && NoQueue(w) && w.currentStep == r.currentStep && w.completedSteps == r.completedSteps && SameBudgets(r, w)
        && w.failedStep == r.failedStep && w.blocker == r.blocker && w.humanGate == r.humanGate
  {
  }

  /** A run blocked from outside stands where it was, for the given reason. */
  lemma {:induction false} BlockingIsExact(v: Stored, reason: string, at: int)
    ensures
      var r, w := v.run, Block(v, reason, at);
      && OneMore(r, w, ReadinessBlocked, at, reason) && w.status.Blocked? && NoActor(w) && NoQueue(w)
      && w.currentStep == r.currentStep && w.completedSteps == r.completedSteps && SameBudgets(r, w)
      && w.failedStep == r.currentStep && w.blocker == Some(reason) && w.humanGate == r.humanGate
  {
  }

  /** Opening the store makes an interrupted run wait for its step again, at no cost, and leaves any other alone. */
  lemma {:induction false} ReopeningIsExact(v: Stored, at: int)
    requires RunInv(v)
    ensures Reopen(v, at).Ok?
    ensures
      var r, w := v.run, Reopen(v, at).value;
      if !r.status.Running? then w == r
      else
        && OneMore(r, w, RestartResume, at, "Interrupted actor no longer claimed")
        && WaitsFor(w, v.steps[|r.completedSteps|]) && w.currentStep == r.currentStep
        && w.completedSteps == r.completedSteps && SameBudgets(r, w) && w.failedStep == r.failedStep
        && w.blocker == r.blocker && w.humanGate == r.humanGate
  {
    if v.run.status.Running? { StepIs(v.steps, |v.run.completedSteps|); }
  }

  predicate Says(text: Option<string>) { text.Some? && exists i :: 0 <= i < |text.value| && !Space(text.value[i]) }

  lemma {:induction false} GivenSays(text: Option<string>)
    ensures Given(text) <==> Says(text)
  {
  }

  /** On every history a stored run is consistent: it has an actor and an execution exactly while RUNNING, waits in a
      queue exactly while QUEUED, has a question exactly while it waits for a human, and says why it is blocked. */
  lemma {:induction false} RunsAreConsistent(trace: seq<System>, n: nat, i: nat)
    requires History(trace) && n < |trace| && i < |trace[n].runs|
    ensures
      var r := trace[n].runs[i].run;
      && (r.status.Running? <==> r.activeActor.Some? || r.activeExecutionId.Some?)
      && (r.status.Running? ==> r.activeActor.Some? && r.activeExecutionId.Some?)
      && (r.status.Queued? <==> r.queuedActor.Some? || r.queuedStep.Some?)
      && (r.status.Queued? ==> r.queuedActor.Some? && Says(r.queuedStep))
      && (r.status.WaitingHuman? <==> Says(r.humanGate))
      && (r.status.Blocked? ==> Says(r.blocker))
      && (r.status.Running? || r.status.Queued? || r.status.WaitingHuman? ==> !Says(r.blocker))
      && Says(Some(r.runId)) && Says(Some(r.objective))
  {
    HistoryKeepsInv(trace, n);
    assert RunInv(trace[n].runs[i]);
    var r := trace[n].runs[i].run;
    GivenSays(r.humanGate);
    GivenSays(r.blocker);
    GivenSays(r.queuedStep);
    GivenSays(Some(r.runId));
    GivenSays(Some(r.objective));
  }

  /** What a stored run must look like in each status: the actor and execution only while RUNNING, the queue only
      while QUEUED, a question only while waiting for a human, a reason while blocked or idle and none while under
      way; and budgets that are not overdrawn. */
  predicate Consistent(r: Run) {
    var under, queued := r.activeActor.Some? || r.activeExecutionId.Some?, r.queuedActor.Some? || r.queuedStep.Some?;
    && Says(Some(r.runId)) && Says(Some(r.objective))
    && r.retryBudget.consumed >= 0 && r.retryBudget.limit - r.retryBudget.consumed >= 0
    && r.recoveryBudget.consumed >= 0 && r.recoveryBudget.limit - r.recoveryBudget.consumed >= 0
    && (r.status.Running? ==> r.activeActor.Some? && r.activeExecutionId.Some? && Says(r.currentStep))
    && (!r.status.Running? ==> !under)
    && (r.status.Queued? ==> r.queuedActor.Some? && Says(r.queuedStep)) && (!r.status.Queued? ==> !queued)
    && (Says(r.humanGate) <==> r.status.WaitingHuman?)
    && (r.status.Blocked? || r.status.Idle? ==> Says(r.blocker))
    && (r.status.Running? || r.status.Queued? || r.status.WaitingHuman? ==> !Says(r.blocker))
  }

  /** The store accepts exactly the consistent runs. */
  lemma {:induction false} CheckIsExact(r: Run)
    ensures RunValid(r) <==> Consistent(r)
  {
    GivenSays(r.humanGate);
    GivenSays(r.blocker);
    GivenSays(r.queuedStep);
    GivenSays(r.currentStep);
    GivenSays(Some(r.runId));
    GivenSays(Some(r.objective));
  }

  /** The text an answer gives as its question, reason or failure. */
  function TextOf(answer: StepResult): Option<string> {
    if answer.status.StepWaiting? && answer.humanGate.Some? then answer.humanGate
    else if answer.status.StepBlocked? && answer.blocker.Some? then answer.blocker
    else Some(answer.summary)
  }

  /** From every reachable state an answer is stored if and only if it says something where it waits or blocks; an
      answer that is not stored leaves its run RUNNING. */
  lemma {:induction false} AnswersAreStored(v: Stored, k: nat, answer: StepResult, at: int)
    requires RunInv(v) && v.run.status.Running? && k == |v.run.completedSteps| < |v.steps|
    ensures RunValid(Finish(v, v.steps[k], answer, at)) <==>
              (answer.status.StepWaiting? || answer.status.StepBlocked? ==> Says(TextOf(answer)))
  {
    AnswerIs(v, k, answer, at);
    var w := Finish(v, v.steps[k], answer, at);
    CheckIsExact(v.run);
    CheckIsExact(w);
    NextIsSaid(v, k, w);
    assert Says(w.humanGate) <==> answer.status.StepWaiting? && Says(TextOf(answer));
    assert w.status.Blocked? && !answer.status.StepBlocked? ==> Says(w.blocker) by {
      assert !Space("Autonomous retry budget exhausted"[0]);
    }
  }

  lemma {:induction false} NextIsSaid(v: Stored, k: nat, w: Run)
    requires RunInv(v) && k < |v.steps|
    ensures Says(Some(v.steps[k].stepId))
    ensures k + 1 < |v.steps| ==> Says(Some(v.steps[k+1].stepId))
  {
    GivenSays(Some(v.steps[k].stepId));
    if k + 1 < |v.steps| { GivenSays(Some(v.steps[k+1].stepId)); }
  }
}
