/** Execution leases, records and results, and the gate in front of an execution. */
module Execution {
  import opened Common
  import opened WorkStateMachine

  /** Where an item came from. */
  datatype Source = Source(provider: string, repository: string, externalId: string)

  /** The part of a work item that execution reads and writes. */
  datatype View = View(id: string, source: Source, exec: Exec)

  datatype LeaseStatus = Held | Released | Abandoned

  datatype Lease = Lease(
    executionId: string, workItemId: string, repository: string, workerId: string, acquiredAt: int,
    status: LeaseStatus, attempt: nat)

  datatype RunStatus = InProgress | Succeeded | FailedRun | Cancelled | TimedOut | WorkerLost

  datatype Record = Record(
    executionId: string, workItemId: string, attempt: nat, workerId: string, requestedAt: int, startedAt: int,
    finishedAt: Option<int>, status: RunStatus, summary: string, evidence: seq<string>, retryable: Option<bool>,
    finalAgentMessage: Option<string>, baseHead: Option<string>, candidateBranch: Option<string>,
    candidateHead: Option<string>)

  datatype RunResult = RunResult(
    status: RunStatus, finishedAt: int, summary: string, evidence: seq<string>, retryable: bool,
    finalAgentMessage: Option<string>, baseHead: Option<string>, candidateBranch: Option<string>,
    candidateHead: Option<string>)

  datatype Target = Target(repository: string, workerId: string, workspaceId: string, requiredCapabilities: seq<string>)

  datatype WorkerStatus = Online | Offline | Occupied | Draining | Uncertain

  datatype Worker = Worker(
    workerId: string, status: WorkerStatus, capabilities: seq<string>, workspaceIds: seq<string>,
    executorKinds: seq<string>, codexReady: Option<bool>)

  datatype Gate = Eligible | WaitForWorker(reason: string) | Rejected(reason: string) | AlreadyRunning

  predicate HeldFor(leases: seq<Lease>, itemId: string, repository: string) {
    exists i :: 0 <= i < |leases| && leases[i].status.Held?
      && (leases[i].workItemId == itemId || leases[i].repository == repository)
  }

  predicate RetryEligible(e: Exec) { e.workState.Retrying? && e.ballHolder.LCC? && e.nextAction.kind.Retry? }

  predicate ReadyEligible(e: Exec) { e.workState.Ready? && e.ballHolder.CODEX? && e.nextAction.kind.Execute? }

  /** The gate, in the order in which its conditions are examined. */
  function EvaluateGate(
    item: View, target: Option<Target>, worker: Option<Worker>, leases: seq<Lease>, shuttingDown: bool): Gate
  {
    if shuttingDown then Rejected("execution service is shutting down")
    else if target.None? || target.value.repository != item.source.repository then
      Rejected("repository is not uniquely allowlisted")
    else if HeldFor(leases, item.id, target.value.repository) then AlreadyRunning
    else if (!ReadyEligible(item.exec) && !RetryEligible(item.exec)) || !item.exec.nextAction.aiExecutable then
      Rejected("WorkItem execution state is not eligible")
    else if |item.exec.nextAction.requiredCapabilities| == 0 then Rejected("required capabilities are empty")
    else if worker.None? || worker.value.workerId != target.value.workerId then
      WaitForWorker("configured worker is unavailable")
    else if !worker.value.status.Online? then WaitForWorker("worker is not ONLINE")
    else if worker.value.codexReady == Some(false) then WaitForWorker("worker Codex runtime is not ready")
    else if target.value.workspaceId !in worker.value.workspaceIds || "CODEX" !in worker.value.executorKinds then
      WaitForWorker("worker cannot handle workspace or executor kind")
    else if exists c :: c in item.exec.nextAction.requiredCapabilities + target.value.requiredCapabilities
                        && c !in worker.value.capabilities then
      WaitForWorker("worker capabilities do not satisfy requirements")
    else Eligible
  }

  /** ELIGIBLE is exactly the conjunction of the conditions, so no order of examining them could admit more. */
  lemma GateIsExact(
    item: View, target: Option<Target>, worker: Option<Worker>, leases: seq<Lease>, shuttingDown: bool)
    ensures EvaluateGate(item, target, worker, leases, shuttingDown).Eligible? <==>
              && !shuttingDown
              && target.Some? && target.value.repository == item.source.repository
              && !HeldFor(leases, item.id, item.source.repository)
              && (ReadyEligible(item.exec) || RetryEligible(item.exec)) && item.exec.nextAction.aiExecutable
              && item.exec.nextAction.requiredCapabilities != []
              && worker.Some? && worker.value.workerId == target.value.workerId && worker.value.status.Online?
              && worker.value.codexReady != Some(false)
              && target.value.workspaceId in worker.value.workspaceIds && "CODEX" in worker.value.executorKinds
              && (forall c :: c in item.exec.nextAction.requiredCapabilities || c in target.value.requiredCapabilities
                    ==> c in worker.value.capabilities)
  {
    if target.Some? {
      var needed := item.exec.nextAction.requiredCapabilities + target.value.requiredCapabilities;
      assert forall c :: c in needed <==>
        c in item.exec.nextAction.requiredCapabilities || c in target.value.requiredCapabilities;
    }
  }

  /** Which refusal comes first: shutting down, a wrong target, a held lease, an item that is not ready, and only then
      a worker that has to be waited for. */
  lemma GateAnswersExactly(
    item: View, target: Option<Target>, worker: Option<Worker>, leases: seq<Lease>, shuttingDown: bool)
    ensures
      var gate := EvaluateGate(item, target, worker, leases, shuttingDown);
      var e := item.exec;
      var addressed := !shuttingDown && target.Some? && target.value.repository == item.source.repository;
      var held := exists i :: 0 <= i < |leases| && leases[i].status.Held?
                    && (leases[i].workItemId == item.id || leases[i].repository == item.source.repository);
      var due := (e.workState.Ready? && e.ballHolder.CODEX? && e.nextAction.kind.Execute?)
                 || (e.workState.Retrying? && e.ballHolder.LCC? && e.nextAction.kind.Retry?);
      var ready := due && e.nextAction.aiExecutable && e.nextAction.requiredCapabilities != [];
      && (gate.AlreadyRunning? <==> addressed && held)
      && (gate.Rejected? <==> !addressed || (!held && !ready))
      && (gate.WaitForWorker? || gate.Eligible? <==> addressed && !held && ready)
      && (shuttingDown ==> gate == Rejected("execution service is shutting down"))
      && (!shuttingDown && !addressed ==> gate == Rejected("repository is not uniquely allowlisted"))
      && (addressed && !held && !(due && e.nextAction.aiExecutable) ==>
            gate == Rejected("WorkItem execution state is not eligible"))
      && (addressed && !held && due && e.nextAction.aiExecutable && !ready ==>
            gate == Rejected("required capabilities are empty"))
  {
  }

  /** What a request that has nothing else against it waits for: the first that applies. */
  lemma WaitsExactly(item: View, target: Target, worker: Option<Worker>, leases: seq<Lease>)
    requires var gate := EvaluateGate(item, Some(target), worker, leases, false); gate.WaitForWorker? || gate.Eligible?
    ensures
      var gate := EvaluateGate(item, Some(target), worker, leases, false);
      if worker.None? || worker.value.workerId != target.workerId then
        gate == WaitForWorker("configured worker is unavailable")
      else if !worker.value.status.Online? then gate == WaitForWorker("worker is not ONLINE")
      else if worker.value.codexReady == Some(false) then gate == WaitForWorker("worker Codex runtime is not ready")
      else if !(target.workspaceId in worker.value.workspaceIds && "CODEX" in worker.value.executorKinds) then
        gate == WaitForWorker("worker cannot handle workspace or executor kind")
      else if !forall c :: c in item.exec.nextAction.requiredCapabilities || c in target.requiredCapabilities
                           ==> c in worker.value.capabilities then
        gate == WaitForWorker("worker capabilities do not satisfy requirements")
      else gate.Eligible?
  {
    var needed := item.exec.nextAction.requiredCapabilities + target.requiredCapabilities;
    assert forall c :: c in needed <==>
      c in item.exec.nextAction.requiredCapabilities || c in target.requiredCapabilities;
  }

  function IndexOfHeld(leases: seq<Lease>, executionId: string): (i: nat)
    ensures i <= |leases|
    ensures i < |leases| ==> leases[i].executionId == executionId && leases[i].status.Held?
    ensures forall k :: 0 <= k < i ==> !(leases[k].executionId == executionId && leases[k].status.Held?)
  {
    FirstIndex(leases, (x: Lease) => x.executionId == executionId && x.status.Held?)
  }

  function IndexOfRecord(records: seq<Record>, executionId: string): (i: nat)
    ensures i <= |records|
    ensures i < |records| ==> records[i].executionId == executionId
    ensures forall k :: 0 <= k < i ==> records[k].executionId != executionId
  {
    FirstIndex(records, (x: Record) => x.executionId == executionId)
  }

  /** How many executions an item has been leased for. */
  function Attempts(leases: seq<Lease>, itemId: string): nat {
    if |leases| == 0 then 0
    else Attempts(leases[..|leases|-1], itemId) + if leases[|leases|-1].workItemId == itemId then 1 else 0
  }

  /** The event a finished run sends to its item. */
  function RunEvent(r: RunResult): Event {
    match r.status
    case Succeeded => ExecutionCompleted(false)
    case WorkerLost => WorkerUnavailable(LCC)
    case _ => if r.retryable then RetryableFailure else TerminalFailure
  }

  /** Optional results replace recorded ones only when they are not empty. */
  function Reported(reported: Option<string>, recorded: Option<string>): Option<string> {
    if reported.Some? && reported.value != "" then reported else recorded
  }
}
