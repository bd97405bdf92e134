/** What holds in every run of the work item repository. */
module WorkItemTheorems {
  import opened Common
  import opened WorkStateMachine
  import opened Acceptance
  import opened Execution
  import opened WorkItemRepository
  import opened SyncCommutes
  import opened WorkItemRuns
  import V = Verification

  // ------------------------------------------------------ evidence for DONE

  lemma {:induction false} EvidencePersists(a: Logs, b: Logs, id: string)
    requires Evidenced(a, id) && LogsGrow(a, b)
    ensures Evidenced(b, id)
  {
  }

  lemma {:induction false} RecoveredVerifies(e: Exec, recoveryId: string)
    requires e.workState.Failed?
    ensures Recovered(e, recoveryId).Ok? && AwaitsVerification(Recovered(e, recoveryId).value)
  {
  }

  lemma {:induction false} RunsDoNotMoveToDone(cmd: Command, item: Option<View>, logs: Logs)
    requires cmd.Acquire? || cmd.RecoverCandidate? || (cmd.CompleteRun? && cmd.event == RunEvent(cmd.result))
    requires Act(cmd, item, logs).Ok? && Act(cmd, item, logs).value.exec.Some?
    ensures !Act(cmd, item, logs).value.exec.value.workState.Done?
  {
    if cmd.CompleteRun? {
      DecisionsAreAllowed(item.value.exec, cmd.event);
    } else if cmd.Acquire? {
      DecisionsAreAllowed(item.value.exec, ExecutionStarted);
    } else {
      RecoveredVerifies(item.value.exec, cmd.recoveryId);
    }
  }

  /** The event of a verdict is accepted by a VERIFYING item, and only a pass without a candidate leads to DONE. */
  lemma {:induction false} VerdictEvents(e: Exec, d: V.Decision, pilotHead: Option<string>)
    requires !d.status.Error?
    ensures e.workState.Verifying? ==> Transition(e, VerificationEvent(d, pilotHead)).Ok?
    ensures Transition(e, VerificationEvent(d, pilotHead)).Ok? ==>
              var to := Transition(e, VerificationEvent(d, pilotHead)).value.workState;
              && (to.Done? <==> d.status.Passed? && !NonEmpty(pilotHead))
              && (d.status.Passed? && NonEmpty(pilotHead) ==> to.WaitingHuman?)
  {
    DecisionsAreAllowed(e, VerificationEvent(d, pilotHead));
  }

  /** What completing a verification does to its item. */
  lemma {:induction false} VerdictMoves(cmd: Command, item: Option<View>, logs: Logs)
    requires cmd.CompleteVerification? && Act(cmd, item, logs).Ok?
    ensures
      var k := V.IndexOfVRecord(logs.vrecords, cmd.verificationId);
      && k < |logs.vrecords|
      && var record := logs.vrecords[k];
         var pilotHead := PilotHead(logs.records, record.sourceExecutionId);
         var d := V.Decide(record.criteria, Effective(pilotHead, cmd.vresult));
         var e := Act(cmd, item, logs).value.exec;
         && (e.Some? <==> !d.status.Error?)
         && (e.Some? ==> item.Some? && Transition(item.value.exec, VerificationEvent(d, pilotHead)).Ok?
                         && e.value.workState ==
                              Transition(item.value.exec, VerificationEvent(d, pilotHead)).value.workState)
  {
  }

  /** Of the production commands only a passed verification, and not of a pilot, moves an item to DONE. */
  lemma {:induction false} OnlyVerificationMovesToDone(s: Snapshot, cmd: Command, item: Option<View>)
    requires Issued(s, cmd) && Act(cmd, item, s.logs).Ok?
    requires var e := Act(cmd, item, s.logs).value.exec; e.Some? && e.value.workState.Done?
    ensures cmd.CompleteVerification?
    ensures
      var k := V.IndexOfVRecord(s.logs.vrecords, cmd.verificationId);
      && k < |s.logs.vrecords|
      && var record := s.logs.vrecords[k];
         var pilotHead := PilotHead(s.logs.records, record.sourceExecutionId);
         !NonEmpty(pilotHead) && V.Decide(record.criteria, Effective(pilotHead, cmd.vresult)).status.Passed?
  {
    if cmd.Transit? {
      DecisionsAreAllowed(item.value.exec, cmd.event);
    } else if cmd.CompleteVerification? {
      VerdictMoves(cmd, item, s.logs);
      var record := s.logs.vrecords[V.IndexOfVRecord(s.logs.vrecords, cmd.verificationId)];
      var pilotHead := PilotHead(s.logs.records, record.sourceExecutionId);
      VerdictEvents(item.value.exec, V.Decide(record.criteria, Effective(pilotHead, cmd.vresult)), pilotHead);
    } else if !cmd.AcquireVerification? {
      RunsDoNotMoveToDone(cmd, item, s.logs);
    }
  }

  lemma {:induction false} PassedIsEvidence(s: Snapshot, cmd: Command, item: Option<View>)
    requires LogsInv(s.logs) && cmd.CompleteVerification? && Act(cmd, item, s.logs).Ok?
    requires LogsInv(Act(cmd, item, s.logs).value.logs)
    requires
      var record := s.logs.vrecords[V.IndexOfVRecord(s.logs.vrecords, cmd.verificationId)];
      var pilotHead := PilotHead(s.logs.records, record.sourceExecutionId);
      !NonEmpty(pilotHead) && V.Decide(record.criteria, Effective(pilotHead, cmd.vresult)).status.Passed?
    ensures
      var k := V.IndexOfVRecord(s.logs.vrecords, cmd.verificationId);
      Evidenced(Act(cmd, item, s.logs).value.logs, s.logs.vrecords[k].workItemId)
  {
    var b := Act(cmd, item, s.logs).value.logs;
    VerdictShape(cmd, item, s.logs);
    var k := V.IndexOfVRecord(s.logs.vrecords, cmd.verificationId);
    var record := b.vrecords[k];
    assert Grounded(record, b.records);
    var j :| 0 <= j < |b.records| && b.records[j].executionId == record.sourceExecutionId
      && b.records[j].workItemId == record.workItemId && b.records[j].status.Succeeded?;
    RecordIs(b.leases, b.records, j);
    assert Evidence(record, b.records, record.workItemId);
  }

  lemma {:induction false} MovedItemKeepsDone(s: Snapshot, cmd: Command, item: Option<View>)
    requires LogsInv(s.logs) && Issued(s, cmd) && ItemOf(cmd, s.logs).Ok? && Act(cmd, item, s.logs).Ok?
    requires LogsInv(Act(cmd, item, s.logs).value.logs)
    requires var e := Act(cmd, item, s.logs).value; e.exec.Some? && e.exec.value.workState.Done?
    ensures Evidenced(Act(cmd, item, s.logs).value.logs, ItemOf(cmd, s.logs).value)
  {
    OnlyVerificationMovesToDone(s, cmd, item);
    PassedIsEvidence(s, cmd, item);
  }

  lemma {:induction false} CommandKeepsDone(s: Snapshot, s': Snapshot, cmd: Command)
    requires Recorded(s) && CommandStep(s, s', cmd) && LogsInv(s'.logs) && LogsGrow(s.logs, s'.logs)
    ensures DoneRests(s')
  {
    var id := ItemOf(cmd, s.logs).value;
    var e := Act(cmd, FindView(s.repos, id), s.logs).value;
    forall other | Find(s'.repos, other).Some? && Find(s'.repos, other).value.exec.workState.Done?
      ensures Evidenced(s'.logs, other)
    {
      if e.exec.Some? { FindAfterSet(s.repos, id, e.exec.value, other); }
      if e.exec.Some? && other == id && Find(s.repos, id).Some? {
        MovedItemKeepsDone(s, cmd, FindView(s.repos, id));
      } else {
        EvidencePersists(s.logs, s'.logs, other);
      }
    }
  }

  // ------------------------------------------------------------- sync steps

  /** After a sync an item reads as before, or it is new and starts at the beginning. */
  lemma {:induction false} FoundAfterSync(
    repos: seq<Repo>, name: string, batch: seq<WorkItem>, metadata: Metadata, id: string)
    requires Committable(repos, name, batch) && Find(Synced(repos, name, batch, metadata), id).Some?
    ensures
      var after := FindView(Synced(repos, name, batch, metadata), id).value;
      after.exec == INITIAL || FindView(repos, id) == Some(after)
  {
    var synced := Synced(repos, name, batch, metadata);
    SyncKeepsPlaced(repos, name, batch, metadata);
    var r := RepoIndex(synced, id);
    var i := ItemIndex(synced[r].items, id);
    var n := NameIndex(repos, name);
    if r != n {
      FindIs(repos, r, i);
    } else {
      var current := if n < |repos| then repos[n].items else [];
      assert synced[r].items == MergeAll(batch, current);
      var prior := CurrentOf(current, batch[i].source.externalId);
      CurrentComesFrom(current, batch[i].source.externalId);
      assert ItemPlaced(batch[i], name);
      if prior.Some? {
        var k :| 0 <= k < |current| && current[k] == prior.value;
        assert ItemPlaced(repos[n].items[k], repos[n].name);
        FindIs(repos, n, k);
      }
    }
  }

  lemma {:induction false} SyncKeepsRecorded(
    s: Snapshot, s': Snapshot, name: string, batch: seq<WorkItem>, metadata: Metadata)
    requires Recorded(s) && SyncStep(s, s', name, batch, metadata)
    ensures Recorded(s') && s'.logs == s.logs
  {
    SyncKeepsPlaced(s.repos, name, batch, metadata);
    assert s'.repos == Synced(s.repos, name, batch, metadata);
    forall id | Find(s'.repos, id).Some? && Find(s'.repos, id).value.exec.workState.Done?
      ensures Evidenced(s'.logs, id)
    {
      FoundAfterSync(s.repos, name, batch, metadata, id);
    }
  }

  lemma {:induction false} KeepingLeasedCouples(
    s: Snapshot, s': Snapshot, name: string, batch: seq<WorkItem>, metadata: Metadata)
    requires Coupled(s) && SyncStep(s, s', name, batch, metadata) && KeepsLeased(s, name, batch)
    ensures Coupled(s')
  {
    assert s'.repos == Synced(s.repos, name, batch, metadata);
    forall id, repository | Executing(s'.logs.leases, id, repository)
      ensures InState(s'.repos, id, repository, Running)
    {
      assert InState(s.repos, id, repository, Running);
      ViewKept(s.repos, name, batch, metadata, id);
    }
    forall id, repository | BeingVerified(s'.logs.vleases, id, repository)
      ensures InState(s'.repos, id, repository, Verifying)
    {
      assert InState(s.repos, id, repository, Verifying);
      ViewKept(s.repos, name, batch, metadata, id);
    }
  }

  lemma {:induction false} FailureKeepsFinds(s: Snapshot, s': Snapshot, name: string, metadata: Metadata, id: string)
    requires RecordFailure(s, name, metadata) == Ok(s')
    ensures Find(s'.repos, id) == Find(s.repos, id)
  {
    var r := NameIndex(s.repos, name);
    if r < |s.repos| {
      SameRepo(s.repos, s'.repos, id);
    } else {
      EmptyRepoIsSilent(s.repos, s'.repos[r], id);
    }
  }

  lemma {:induction false} EmptyRepoIsSilent(repos: seq<Repo>, repo: Repo, id: string)
    requires repo.items == []
    ensures RepoIndex(repos + [repo], id) ==
            if RepoIndex(repos, id) < |repos| then RepoIndex(repos, id) else |repos| + 1
  {
    if |repos| > 0 {
      assert (repos + [repo])[1..] == repos[1..] + [repo];
      EmptyRepoIsSilent(repos[1..], repo, id);
    }
  }

  lemma {:induction false} FailureKeepsInv(s: Snapshot, s': Snapshot, name: string, metadata: Metadata)
    requires Recorded(s) && FailureStep(s, s', name, metadata)
    ensures Recorded(s') && s'.logs == s.logs && (Coupled(s) ==> Coupled(s'))
  {
    forall id ensures Find(s'.repos, id) == Find(s.repos, id) {
      FailureKeepsFinds(s, s', name, metadata, id);
    }
    assert Placed(s'.repos) by {
      var r := NameIndex(s.repos, name);
      forall k | 0 <= k < |s'.repos| ensures ItemsPlaced(s'.repos[k].items, s'.repos[k].name) {
        if k < |s.repos| { assert ItemsPlaced(s.repos[k].items, s.repos[k].name); }
      }
    }
    if Coupled(s) { SameFindsCouple(s, s'); }
  }

  lemma {:induction false} SameFindsCouple(s: Snapshot, s': Snapshot)
    requires Coupled(s) && s'.logs == s.logs && forall id :: Find(s'.repos, id) == Find(s.repos, id)
    ensures Coupled(s')
  {
    forall id, repository | Executing(s'.logs.leases, id, repository)
      ensures InState(s'.repos, id, repository, Running)
    {
      assert InState(s.repos, id, repository, Running);
    }
    forall id, repository | BeingVerified(s'.logs.vleases, id, repository)
      ensures InState(s'.repos, id, repository, Verifying)
    {
      assert InState(s.repos, id, repository, Verifying);
    }
  }

  lemma {:induction false} CommandKeepsRecorded(s: Snapshot, s': Snapshot, cmd: Command)
    requires Recorded(s) && CommandStep(s, s', cmd)
    ensures Recorded(s') && LogsGrow(s.logs, s'.logs)
  {
    var id := ItemOf(cmd, s.logs).value;
    var item := FindView(s.repos, id);
    var e := Act(cmd, item, s.logs).value;
    CommandKeepsLogs(s, cmd, item);
    CommandKeepsDone(s, s', cmd);
    if e.exec.Some? { SetKeepsPlaced(s.repos, id, e.exec.value); }
  }

  /** Every step keeps the logs in step and the evidence behind DONE. */
  lemma {:induction false} StepKeepsRecorded(s: Snapshot, s': Snapshot)
    requires Recorded(s) && Step(s, s')
    ensures Recorded(s') && LogsGrow(s.logs, s'.logs)
  {
    if cmd :| CommandStep(s, s', cmd) {
      CommandKeepsRecorded(s, s', cmd);
    } else if name, batch, metadata :| SyncStep(s, s', name, batch, metadata) {
      SyncKeepsRecorded(s, s', name, batch, metadata);
    } else if name, metadata :| FailureStep(s, s', name, metadata) {
      FailureKeepsInv(s, s', name, metadata);
    }
  }

  lemma {:induction false} EmptyHasInv()
    ensures Inv(EMPTY)
  {
  }

  lemma {:induction false} RunKeepsRecorded(trace: seq<Snapshot>, n: nat)
    requires Run(trace) && n < |trace|
    ensures Recorded(trace[n])
    decreases n
  {
    if n == 0 {
      EmptyHasInv();
    } else {
      RunKeepsRecorded(trace, n - 1);
      assert StepAt(trace, n - 1);
      StepKeepsRecorded(trace[n-1], trace[n]);
    }
  }

  /** A step that leaves leased items alone also keeps leases and states coupled. */
  lemma {:induction false} StepKeepsInv(s: Snapshot, s': Snapshot)
    requires Inv(s) && CarefulStep(s, s')
    ensures Inv(s') && LogsGrow(s.logs, s'.logs)
  {
    StepKeepsRecorded(s, s');
    if cmd :| CarefulCommand(s, s', cmd) {
      CommandKeepsCoupled(s, s', cmd);
    } else if name, batch, metadata :| CarefulSync(s, s', name, batch, metadata) {
      KeepingLeasedCouples(s, s', name, batch, metadata);
    } else if name, metadata :| FailureStep(s, s', name, metadata) {
      FailureKeepsInv(s, s', name, metadata);
    }
  }

  lemma {:induction false} RunKeepsInv(trace: seq<Snapshot>, n: nat)
    requires CarefulRun(trace) && n < |trace|
    ensures Inv(trace[n])
    decreases n
  {
    if n == 0 {
      EmptyHasInv();
    } else {
      RunKeepsInv(trace, n - 1);
      assert CarefulStepAt(trace, n - 1);
      StepKeepsInv(trace[n-1], trace[n]);
    }
  }

  // --------------------------------------------------------- main results

  /** In every run leases and records stay in step, and an item or a repository is never executed twice at once,
      nor verified twice at once, also when a leased item is dropped or waits for a human. */
  lemma {:induction false} LogsStayInStep(trace: seq<Snapshot>, n: nat)
    requires Run(trace) && n < |trace|
    ensures RunLogs(trace[n].logs.leases, trace[n].logs.records)
    ensures CheckLogs(trace[n].logs.vleases, trace[n].logs.vrecords)
  {
    RunKeepsRecorded(trace, n);
  }

  lemma {:induction false} GrowTrans(a: Logs, b: Logs, c: Logs)
    requires LogsGrow(a, b) && LogsGrow(b, c)
    ensures LogsGrow(a, c)
  {
  }

  predicate GrowAt(logs: seq<Logs>, k: int)
    requires 0 <= k < |logs| - 1
  {
    LogsGrow(logs[k], logs[k+1])
  }

  lemma {:induction false} GrowAlong(logs: seq<Logs>, m: nat, n: nat)
    requires m <= n < |logs| && forall k :: m <= k < n ==> GrowAt(logs, k)
    ensures LogsGrow(logs[m], logs[n])
    decreases n
  {
    if m < n {
      GrowAlong(logs, m, n - 1);
      assert GrowAt(logs, n - 1);
      GrowTrans(logs[m], logs[n-1], logs[n]);
    }
  }

  /** Between any two moments of a run records are only added, and a finished record is never touched again. */
  lemma {:induction false} FinishedRecordsAreFinal(trace: seq<Snapshot>, m: nat, n: nat)
    requires Run(trace) && m <= n < |trace|
    ensures LogsGrow(trace[m].logs, trace[n].logs)
  {
    var logs := seq(|trace|, k requires 0 <= k < |trace| => trace[k].logs);
    forall k | m <= k < n ensures GrowAt(logs, k) {
      RunKeepsRecorded(trace, k);
      assert StepAt(trace, k);
      StepKeepsRecorded(trace[k], trace[k+1]);
    }
    GrowAlong(logs, m, n);
  }

  /** While leased items are left alone, no item is ever executed and verified at once. */
  lemma {:induction false} NeverBoth(trace: seq<Snapshot>, n: nat, i: nat, k: nat)
    requires CarefulRun(trace) && n < |trace|
    requires i < |trace[n].logs.leases| && trace[n].logs.leases[i].status.Held?
    requires k < |trace[n].logs.vleases| && trace[n].logs.vleases[k].status.Held?
    ensures trace[n].logs.leases[i].workItemId != trace[n].logs.vleases[k].workItemId
  {
    RunKeepsInv(trace, n);
    var lease, vlease := trace[n].logs.leases[i], trace[n].logs.vleases[k];
    assert Executing(trace[n].logs.leases, lease.workItemId, lease.repository);
    assert BeingVerified(trace[n].logs.vleases, vlease.workItemId, vlease.repository);
  }

  lemma {:induction false} RunAccepted(s: Snapshot, executionId: string, result: RunResult)
    requires IndexOfHeld(s.logs.leases, executionId) < |s.logs.leases|
    requires IndexOfRecord(s.logs.records, executionId) < |s.logs.records|
    requires
      var item := FindView(s.repos, s.logs.leases[IndexOfHeld(s.logs.leases, executionId)].workItemId);
      item.Some? && item.value.exec.workState.Running?
    ensures Perform(s, CompleteRun(executionId, result, RunEvent(result))).Ok?
  {
    var item := FindView(s.repos, s.logs.leases[IndexOfHeld(s.logs.leases, executionId)].workItemId);
    DecisionsAreAllowed(item.value.exec, RunEvent(result));
  }

  /** While leased items are left alone, completing a held execution succeeds whatever a worker answers: its item is
      found, RUNNING, and accepts the event of every result. */
  lemma {:induction false} CompletingARunSucceeds(trace: seq<Snapshot>, n: nat, executionId: string, result: RunResult)
    requires CarefulRun(trace) && n < |trace| && !result.status.InProgress?
    requires IndexOfHeld(trace[n].logs.leases, executionId) < |trace[n].logs.leases|
    ensures Perform(trace[n], CompleteRun(executionId, result, RunEvent(result))).Ok?
  {
    RunKeepsInv(trace, n);
    var s := trace[n];
    var l := IndexOfHeld(s.logs.leases, executionId);
    LeaseIs(s.logs.leases, s.logs.records, executionId);
    var id := s.logs.leases[l].workItemId;
    assert Executing(s.logs.leases, id, s.logs.leases[l].repository);
    assert InState(s.repos, id, s.logs.leases[l].repository, Running);
    RunAccepted(s, executionId, result);
  }

  lemma {:induction false} VerdictAccepted(s: Snapshot, id: string, r: V.VResult)
    requires V.IndexOfVHeld(s.logs.vleases, id) < |s.logs.vleases|
    requires V.IndexOfVRecord(s.logs.vrecords, id) < |s.logs.vrecords|
    requires
      var item := FindView(s.repos, s.logs.vrecords[V.IndexOfVRecord(s.logs.vrecords, id)].workItemId);
      item.Some? && item.value.exec.workState.Verifying?
    ensures Perform(s, CompleteVerification(id, r)).Ok?
  {
    var record := s.logs.vrecords[V.IndexOfVRecord(s.logs.vrecords, id)];
    var item := FindView(s.repos, record.workItemId).value;
    var pilotHead := PilotHead(s.logs.records, record.sourceExecutionId);
    var d := V.Decide(record.criteria, Effective(pilotHead, r));
    if !d.status.Error? { VerdictEvents(item.exec, d, pilotHead); }
  }

  /** Likewise for a held verification and any result. */
  lemma {:induction false} CompletingAVerificationSucceeds(trace: seq<Snapshot>, n: nat, id: string, r: V.VResult)
    requires CarefulRun(trace) && n < |trace|
    requires V.IndexOfVHeld(trace[n].logs.vleases, id) < |trace[n].logs.vleases|
    ensures Perform(trace[n], CompleteVerification(id, r)).Ok?
  {
    RunKeepsInv(trace, n);
    var s := trace[n];
    VerifiedItem(s, id);
    VerdictAccepted(s, id, r);
  }

  /** In every run a DONE item rests on a passed verification of one of its own successful executions. */
  lemma {:induction false} DoneRestsOnEvidence(trace: seq<Snapshot>, n: nat, id: string)
    requires Run(trace) && n < |trace|
    requires Find(trace[n].repos, id).Some? && Find(trace[n].repos, id).value.exec.workState.Done?
    ensures Evidenced(trace[n].logs, id)
  {
    RunKeepsRecorded(trace, n);
  }

  function StateOf(repos: seq<Repo>, id: string): Option<WorkState> {
    var item := Find(repos, id);
    if item.Some? then Some(item.value.exec.workState) else None
  }

  lemma {:induction false} StateAfter(s: Snapshot, cmd: Command)
    requires Placed(s.repos) && Perform(s, cmd).Ok?
    ensures
      var id := ItemOf(cmd, s.logs).value;
      var e := Act(cmd, FindView(s.repos, id), s.logs).value;
      StateOf(Perform(s, cmd).value.next.repos, id) ==
        if e.exec.Some? && Find(s.repos, id).Some? then Some(e.exec.value.workState) else StateOf(s.repos, id)
  {
    var id := ItemOf(cmd, s.logs).value;
    var e := Act(cmd, FindView(s.repos, id), s.logs).value;
    if e.exec.Some? { FindAfterSet(s.repos, id, e.exec.value, id); }
  }

  /** Where a pilot's verification leaves its item. */
  lemma {:induction false} PilotStateAfter(s: Snapshot, s': Snapshot, cmd: Command, k: nat, pilotHead: Option<string>)
    requires Placed(s.repos) && CommandStep(s, s', cmd) && cmd.CompleteVerification?
    requires k == V.IndexOfVRecord(s.logs.vrecords, cmd.verificationId)
    requires pilotHead == PilotHead(s.logs.records, s.logs.vrecords[k].sourceExecutionId) && NonEmpty(pilotHead)
    ensures
      var record := s.logs.vrecords[k];
      var verdict := V.Decide(record.criteria, Effective(pilotHead, cmd.vresult)).status;
      var state := StateOf(s'.repos, record.workItemId);
      && (verdict.Error? ==> s'.repos == s.repos)
      && (verdict.Passed? ==> state == Some(WaitingHuman))
      && (!verdict.Error? ==> state.Some? && state != Some(Done))
  {
    var record := s.logs.vrecords[k];
    var item := FindView(s.repos, record.workItemId);
    VerdictMoves(cmd, item, s.logs);
    StateAfter(s, cmd);
    var d := V.Decide(record.criteria, Effective(pilotHead, cmd.vresult));
    if !d.status.Error? { VerdictEvents(item.value.exec, d, pilotHead); }
  }

  lemma {:induction false} PilotVerdict(record: V.VRecord, pilotHead: Option<string>, r: V.VResult)
    requires NonEmpty(pilotHead)
    ensures
      var d := V.Decide(record.criteria, Effective(pilotHead, r));
      var judged := Judged(record, Effective(pilotHead, r), d);
      && judged.status == d.status && (r.verifiedHead != pilotHead ==> d.status.Error?)
      && (!d.status.Error? ==> judged.verifiedHead == pilotHead)
  {
  }

  /** In every run, of a pilot's verification: a verdict but ERROR concerns exactly its candidate head, a pass waits
      for a human, ERROR changes no item, and an item that is DONE afterwards was DONE before. While leases and states
      are coupled the item is never DONE, and after ERROR still VERIFYING. */
  lemma {:induction false} PilotsStopAtAHuman(
    trace: seq<Snapshot>, n: nat, s': Snapshot, cmd: Command, k: nat, pilotHead: Option<string>)
    requires Run(trace) && n < |trace| && CommandStep(trace[n], s', cmd) && cmd.CompleteVerification?
    requires k == V.IndexOfVRecord(trace[n].logs.vrecords, cmd.verificationId)
    requires NonEmpty(pilotHead)
    requires pilotHead == PilotHead(trace[n].logs.records, trace[n].logs.vrecords[k].sourceExecutionId)
    ensures |s'.logs.vrecords| == |trace[n].logs.vrecords|
    ensures
      var s, id := trace[n], trace[n].logs.vrecords[k].workItemId;
      var verdict, state := s'.logs.vrecords[k].status, StateOf(s'.repos, id);
      && (cmd.vresult.verifiedHead != pilotHead ==> verdict.Error?)
      && (verdict.Error? ==> s'.repos == s.repos)
      && (!verdict.Error? ==> s'.logs.vrecords[k].verifiedHead == pilotHead)
      && (verdict.Passed? ==> state == Some(WaitingHuman))
      && (state == Some(Done) ==> StateOf(s.repos, id) == Some(Done))
      && (Coupled(s) ==> state != Some(Done) && (verdict.Error? ==> state == Some(Verifying)))
  {
    var s := trace[n];
    RunKeepsRecorded(trace, n);
    var record := s.logs.vrecords[k];
    PilotStateAfter(s, s', cmd, k, pilotHead);
    VerdictShape(cmd, FindView(s.repos, record.workItemId), s.logs);
    PilotVerdict(record, pilotHead, cmd.vresult);
    if Coupled(s) { VerifiedItem(s, cmd.verificationId); }
  }

  lemma {:induction false} WaitMoves(item: Option<View>, logs: Logs, id: string, summary: string)
    requires Act(Transit(id, HumanRequired(summary)), item, logs).Ok?
    ensures
      var e := Act(Transit(id, HumanRequired(summary)), item, logs).value;
      item.Some? && e.logs == logs && e.exec.Some? && e.exec.value.workState.WaitingHuman?
  {
  }

  /** HUMAN_REQUIRED takes its item out of RUNNING and VERIFYING. */
  lemma {:induction false} HumanRequiredWaits(s: Snapshot, id: string, summary: string)
    requires Placed(s.repos) && Perform(s, Transit(id, HumanRequired(summary))).Ok?
    ensures
      var next := Perform(s, Transit(id, HumanRequired(summary))).value.next;
      next.logs == s.logs && StateOf(next.repos, id) == Some(WaitingHuman)
  {
    StateAfter(s, Transit(id, HumanRequired(summary)));
    WaitMoves(FindView(s.repos, id), s.logs, id, summary);
  }

  /** The assumption on HUMAN_REQUIRED is exact: sent to an item in a state that accepts it, it keeps leases and
      states coupled if and only if the item has no held lease. */
  lemma {:induction false} HumanRequiredNeedsNoLease(s: Snapshot, id: string, summary: string)
    requires Placed(s.repos) && Coupled(s) && Perform(s, Transit(id, HumanRequired(summary))).Ok?
    ensures Coupled(Perform(s, Transit(id, HumanRequired(summary))).value.next) <==> Unleased(s.logs, id)
  {
    var cmd := Transit(id, HumanRequired(summary));
    if Unleased(s.logs, id) {
      TransitFollows(s, Perform(s, cmd).value.next, cmd);
      FollowingKeepsCoupled(s, id, Act(cmd, FindView(s.repos, id), s.logs).value.exec.value, s.logs);
    } else {
      HumanRequiredWaits(s, id, summary);
      if i :| 0 <= i < |s.logs.leases| && s.logs.leases[i].status.Held? && s.logs.leases[i].workItemId == id {
        assert Executing(s.logs.leases, id, s.logs.leases[i].repository);
      } else {
        var i :| 0 <= i < |s.logs.vleases| && s.logs.vleases[i].status.Held? && s.logs.vleases[i].workItemId == id;
        assert BeingVerified(s.logs.vleases, id, s.logs.vleases[i].repository);
      }
    }
  }

  /** The assumption on syncs is exact: a sync keeps leases and states coupled if and only if it keeps every item
      that has a held lease. */
  lemma {:induction false} SyncNeedsToKeepLeased(
    s: Snapshot, s': Snapshot, name: string, batch: seq<WorkItem>, metadata: Metadata)
    requires Coupled(s) && SyncStep(s, s', name, batch, metadata)
    ensures Coupled(s') <==> KeepsLeased(s, name, batch)
  {
    assert s'.repos == Synced(s.repos, name, batch, metadata) && s'.logs == s.logs;
    if KeepsLeased(s, name, batch) {
      KeepingLeasedCouples(s, s', name, batch, metadata);
    }
    if Coupled(s') {
      forall i | 0 <= i < |s.logs.leases| && s.logs.leases[i].status.Held?
        ensures KeepsItem(s, name, batch, s.logs.leases[i].workItemId)
      {
        var lease := s.logs.leases[i];
        assert Executing(s'.logs.leases, lease.workItemId, lease.repository);
        assert InState(s'.repos, lease.workItemId, lease.repository, Running);
        if Find(s.repos, lease.workItemId).Some? { FoundWasKept(s.repos, name, batch, metadata, lease.workItemId); }
      }
      forall i | 0 <= i < |s.logs.vleases| && s.logs.vleases[i].status.Held?
        ensures KeepsItem(s, name, batch, s.logs.vleases[i].workItemId)
      {
        var lease := s.logs.vleases[i];
        assert BeingVerified(s'.logs.vleases, lease.workItemId, lease.repository);
        assert InState(s'.repos, lease.workItemId, lease.repository, Verifying);
        if Find(s.repos, lease.workItemId).Some? { FoundWasKept(s.repos, name, batch, metadata, lease.workItemId); }
      }
    }
  }
}
