/** What becomes of a run whose Issue is closed before the run ends: it locks its repository. */
module WorkItemLocks {
  import opened Common
  import opened WorkStateMachine
  import opened Execution
  import opened WorkItemRepository
  import opened SyncCommutes
  import opened WorkItemRuns
  import opened WorkItemTheorems
  import V = Verification

  /** The item is not stored, or it is back as a new one whose definition is still to be completed. */
  predicate Away(repos: seq<Repo>, id: string) {
    StateOf(repos, id) == None || StateOf(repos, id) == Some(Defined)
  }

  /** The item states in which a run with a certain result can be completed. */
  predicate Completes(state: WorkState, status: RunStatus) {
    || state.Running?
    || (state.Ready? && status.WorkerLost?)
    || ((state.Verifying? || state.Retrying?) && !status.Succeeded? && !status.WorkerLost?)
  }

  /** When exactly completing a held execution succeeds. */
  lemma {:induction false} CompletionIsExact(s: Snapshot, l: nat, result: RunResult)
    requires RunLogs(s.logs.leases, s.logs.records) && l < |s.logs.leases| && s.logs.leases[l].status.Held?
    ensures
      var state := StateOf(s.repos, s.logs.leases[l].workItemId);
      Perform(s, CompleteRun(s.logs.leases[l].executionId, result, RunEvent(result))).Ok? <==>
        state.Some? && Completes(state.value, result.status)
  {
    var lease := s.logs.leases[l];
    assert IndexOfHeld(s.logs.leases, lease.executionId) == l;
    LeaseIs(s.logs.leases, s.logs.records, lease.executionId);
    var item := FindView(s.repos, lease.workItemId);
    if item.Some? { DecisionsAreAllowed(item.value.exec, RunEvent(result)); }
  }

  /** No command but the completion of its run touches a lease. */
  lemma {:induction false} OnlyCompletionReleases(cmd: Command, item: Option<View>, logs: Logs, l: nat)
    requires Act(cmd, item, logs).Ok? && l < |logs.leases| && logs.leases[l].status.Held?
    requires cmd.CompleteRun? ==>
               cmd.executionId != logs.leases[l].executionId && !cmd.result.status.InProgress?
    ensures var logs' := Act(cmd, item, logs).value.logs;
            l < |logs'.leases| && logs'.leases[l] == logs.leases[l]
  {
    if cmd.CompleteRun? {
      var lease, record := CompleteRunFinishes(logs, cmd, item);
    } else if cmd.RecoverCandidate? {
      var lease, record := RecoverAdds(logs, cmd, item);
    } else if cmd.CompleteVerification? {
      VerdictShape(cmd, item, logs);
    }
  }

  /** A command leaves a held lease alone as long as its item is away. */
  lemma {:induction false} CommandKeepsLease(s: Snapshot, s': Snapshot, cmd: Command, l: nat)
    requires Recorded(s) && CommandStep(s, s', cmd)
    requires l < |s.logs.leases| && s.logs.leases[l].status.Held? && Away(s.repos, s.logs.leases[l].workItemId)
    ensures l < |s'.logs.leases| && s'.logs.leases[l] == s.logs.leases[l]
  {
    if cmd.CompleteRun? { CompletionIsExact(s, l, cmd.result); }
    OnlyCompletionReleases(cmd, FindView(s.repos, ItemOf(cmd, s.logs).value), s.logs, l);
  }

  lemma {:induction false} StepKeepsLease(s: Snapshot, s': Snapshot, l: nat)
    requires Recorded(s) && Step(s, s')
    requires l < |s.logs.leases| && s.logs.leases[l].status.Held? && Away(s.repos, s.logs.leases[l].workItemId)
    ensures l < |s'.logs.leases| && s'.logs.leases[l] == s.logs.leases[l]
  {
    if cmd :| CommandStep(s, s', cmd) {
      CommandKeepsLease(s, s', cmd, l);
    } else if name, batch, metadata :| SyncStep(s, s', name, batch, metadata) {
      SyncKeepsRecorded(s, s', name, batch, metadata);
    } else if name, metadata :| FailureStep(s, s', name, metadata) {
      FailureKeepsInv(s, s', name, metadata);
    }
  }

  predicate AwayAt(trace: seq<Snapshot>, k: int, id: string)
    requires 0 <= k < |trace|
  {
    Away(trace[k].repos, id)
  }

  predicate LeaseAt(trace: seq<Snapshot>, k: int, l: nat, lease: Lease)
    requires 0 <= k < |trace|
  {
    l < |trace[k].logs.leases| && trace[k].logs.leases[l] == lease
  }

  lemma {:induction false} LeaseStaysOnce(trace: seq<Snapshot>, k: nat, l: nat, lease: Lease)
    requires Run(trace) && k < |trace| - 1 && lease.status.Held?
    requires LeaseAt(trace, k, l, lease) && AwayAt(trace, k, lease.workItemId)
    ensures LeaseAt(trace, k + 1, l, lease)
  {
    RunKeepsRecorded(trace, k);
    assert StepAt(trace, k);
    StepKeepsLease(trace[k], trace[k+1], l);
  }

  lemma {:induction false} LeaseStays(trace: seq<Snapshot>, m: nat, n: nat, l: nat, lease: Lease)
    requires Run(trace) && m <= n < |trace| && lease.status.Held? && LeaseAt(trace, m, l, lease)
    requires forall k :: m <= k < n ==> AwayAt(trace, k, lease.workItemId)
    ensures LeaseAt(trace, n, l, lease)
    decreases n
  {
    if m < n {
      LeaseStays(trace, m, n - 1, l, lease);
      LeaseStaysOnce(trace, n - 1, l, lease);
    }
  }

  /** Nothing is executed in a repository with a held lease. */
  lemma {:induction false} HeldLeaseRefuses(s: Snapshot, l: nat, cmd: Command)
    requires l < |s.logs.leases| && s.logs.leases[l].status.Held? && cmd.Acquire?
    requires Find(s.repos, cmd.workItemId).Some? ==>
               Find(s.repos, cmd.workItemId).value.source.repository == s.logs.leases[l].repository
    ensures Perform(s, cmd).Ok? && Perform(s, cmd).value.next == s && !Perform(s, cmd).value.reply.gate.Eligible?
  {
    if Find(s.repos, cmd.workItemId).Some? {
      assert HeldFor(s.logs.leases, cmd.workItemId, s.logs.leases[l].repository);
    }
  }

  /** A sync that drops an item leaves it away. */
  lemma {:induction false} DroppedIsAway(
    s: Snapshot, s': Snapshot, name: string, batch: seq<WorkItem>, metadata: Metadata, id: string)
    requires SyncStep(s, s', name, batch, metadata) && Find(s.repos, id).Some?
    requires !Kept(name, batch, Find(s.repos, id).value)
    ensures Find(s'.repos, id).None? && Away(s'.repos, id)
  {
    if Find(s'.repos, id).Some? { FoundWasKept(s.repos, name, batch, metadata, id); }
  }

  /** Every stored item can be dropped at any moment: a sync of its repository that finds no open Issue is accepted,
      whatever is leased. */
  lemma {:induction false} EmptyListingDrops(s: Snapshot, id: string, metadata: Metadata)
    requires Recorded(s) && Find(s.repos, id).Some? && !Blank(Find(s.repos, id).value.source.repository)
    ensures
      var name := Find(s.repos, id).value.source.repository;
      && CommitSync(s, name, [], metadata).Ok?
      && SyncStep(s, CommitSync(s, name, [], metadata).value, name, [], metadata)
      && Find(CommitSync(s, name, [], metadata).value.repos, id).None?
  {
    var r := RepoIndex(s.repos, id);
    var item := Find(s.repos, id).value;
    assert ItemPlaced(item, s.repos[r].name) && NoColon(s.repos[r].name);
    var name := item.source.repository;
    DroppedIsAway(s, CommitSync(s, name, [], metadata).value, name, [], metadata, id);
  }

  lemma {:induction false} DefinedAccepts(e: Exec, event: Event)
    requires e.workState.Defined? && Transition(e, event).Ok?
    ensures event.DefinitionCompleted? || event.BlockerSet?
  {
    DecisionsAreAllowed(e, event);
  }

  lemma {:induction false} DefinedIsNotRun(cmd: Command, item: View, logs: Logs)
    requires item.exec.workState.Defined? && Act(cmd, Some(item), logs).Ok? && cmd.Acquire?
    ensures Act(cmd, Some(item), logs).value.exec.None?
  {
  }

  lemma {:induction false} DefinedIsNotJudged(cmd: Command, item: View, logs: Logs)
    requires item.exec.workState.Defined? && cmd.CompleteVerification? && Act(cmd, Some(item), logs).Ok?
    ensures Act(cmd, Some(item), logs).value.exec.None?
  {
    VerdictMoves(cmd, Some(item), logs);
    var record := logs.vrecords[V.IndexOfVRecord(logs.vrecords, cmd.verificationId)];
    var pilotHead := PilotHead(logs.records, record.sourceExecutionId);
    var event := VerificationEvent(V.Decide(record.criteria, Effective(pilotHead, cmd.vresult)), pilotHead);
    if Transition(item.exec, event).Ok? { DefinedAccepts(item.exec, event); }
  }

  lemma {:induction false} DefinedRunsDoNotEnd(cmd: Command, item: View, logs: Logs)
    requires item.exec.workState.Defined? && (cmd.CompleteRun? ==> cmd.event == RunEvent(cmd.result))
    requires cmd.CompleteRun? || cmd.RecoverCandidate?
    ensures Act(cmd, Some(item), logs).Err?
  {
    if cmd.CompleteRun? && Transition(item.exec, cmd.event).Ok? { DefinedAccepts(item.exec, cmd.event); }
  }

  /** No command but the completion of its definition moves a stored item out of DEFINED. */
  lemma {:induction false} DefinedMovesOnlyBy(s: Snapshot, cmd: Command, item: View)
    requires item.exec.workState.Defined? && Issued(s, cmd) && Act(cmd, Some(item), s.logs).Ok?
    requires Act(cmd, Some(item), s.logs).value.exec.Some?
    ensures cmd.Transit? && cmd.event.DefinitionCompleted?
  {
    match cmd {
      case Transit(_, event) => DefinedAccepts(item.exec, event);
      case Acquire(_, _, _, _, _, _) => DefinedIsNotRun(cmd, item, s.logs);
      case CompleteRun(_, _, _) => DefinedRunsDoNotEnd(cmd, item, s.logs);
      case RecoverCandidate(_, _, _, _, _, _, _, _, _) => DefinedRunsDoNotEnd(cmd, item, s.logs);
      case AcquireVerification(_, _, _, _, _, _) =>
      case CompleteVerification(_, _) => DefinedIsNotJudged(cmd, item, s.logs);
    }
  }

  /** Only one step ends an absence: the definition of the item, stored again, is completed. */
  lemma {:induction false} AbsenceEndsByDefinition(s: Snapshot, s': Snapshot, id: string)
    requires Recorded(s) && Step(s, s') && Away(s.repos, id) && !Away(s'.repos, id)
    ensures exists executor :: CommandStep(s, s', Transit(id, DefinitionCompleted(executor)))
  {
    if cmd :| CommandStep(s, s', cmd) {
      var target := ItemOf(cmd, s.logs).value;
      var e := Act(cmd, FindView(s.repos, target), s.logs).value;
      if e.exec.Some? {
        FindAfterSet(s.repos, target, e.exec.value, id);
        if target == id && Find(s.repos, id).Some? {
          DefinedMovesOnlyBy(s, cmd, FindView(s.repos, id).value);
          assert cmd == Transit(id, DefinitionCompleted(cmd.event.executor));
        }
      }
    } else if name, batch, metadata :| SyncStep(s, s', name, batch, metadata) {
      FoundAfterSync(s.repos, name, batch, metadata, id);
    } else if name, metadata :| FailureStep(s, s', name, metadata) {
      FailureKeepsFinds(s, s', name, metadata, id);
    }
  }

  /** Closing an Issue in mid-run locks its repository: from then on, until the definition of the item is completed
      anew, its lease stays held, no result completes its run, no other run is under way in the repository, and none
      can be started there. */
  lemma {:induction false} DroppedRunsLockTheirRepository(
    trace: seq<Snapshot>, m: nat, n: nat, l: nat, lease: Lease, cmd: Command, result: RunResult)
    requires Run(trace) && m <= n < |trace| && lease.status.Held? && LeaseAt(trace, m, l, lease)
    requires forall k :: m <= k <= n ==> AwayAt(trace, k, lease.workItemId)
    requires cmd.Acquire? && (Find(trace[n].repos, cmd.workItemId).Some? ==>
               Find(trace[n].repos, cmd.workItemId).value.source.repository == lease.repository)
    ensures
      var s := trace[n];
      && LeaseAt(trace, n, l, lease)
      && Perform(s, CompleteRun(lease.executionId, result, RunEvent(result))).Err?
      && (forall i :: 0 <= i < |s.logs.leases| && i != l && s.logs.leases[i].status.Held? ==>
            s.logs.leases[i].repository != lease.repository)
      && Perform(s, cmd).Ok? && Perform(s, cmd).value.next == s && !Perform(s, cmd).value.reply.gate.Eligible?
  {
    LeaseStays(trace, m, n, l, lease);
    LogsStayInStep(trace, n);
    assert AwayAt(trace, n, lease.workItemId);
    CompletionIsExact(trace[n], l, result);
    HeldLeaseRefuses(trace[n], l, cmd);
  }
}
