/** Whole runs of the work item repository: executions, verifications, recoveries and synchronisations in any
    order. */
module WorkItemRuns {
  import opened Common
  import opened WorkStateMachine
  import opened Acceptance
  import opened Execution
  import opened WorkItemRepository
  import opened SyncCommutes
  import V = Verification

  // ------------------------------------------------------------ invariants

  /** Leases and records correspond one to one; a lease is held exactly while its record is in progress; at most
      one lease is held per item and per repository. */
  predicate RunLogs(leases: seq<Lease>, records: seq<Record>) {
    && |leases| == |records|
    && (forall i :: 0 <= i < |leases| ==> Matched(leases[i], records[i]))
    && (forall i, k :: 0 <= i < k < |leases| ==> leases[i].executionId != leases[k].executionId)
    && (forall i, k :: 0 <= i < k < |leases| && leases[i].status.Held? && leases[k].status.Held? ==>
          leases[i].workItemId != leases[k].workItemId && leases[i].repository != leases[k].repository)
  }

  predicate Matched(lease: Lease, record: Record) {
    && lease.executionId == record.executionId && lease.workItemId == record.workItemId
    && lease.attempt == record.attempt && lease.workerId == record.workerId
    && (lease.status.Held? <==> record.status.InProgress?)
  }

  predicate VMatched(lease: V.VLease, record: V.VRecord) {
    && lease.verificationId == record.verificationId && lease.workItemId == record.workItemId
    && (lease.status.Held? <==> record.status.Pending?)
  }

  predicate CheckLogs(leases: seq<V.VLease>, records: seq<V.VRecord>) {
    && |leases| == |records|
    && (forall i :: 0 <= i < |leases| ==> VMatched(leases[i], records[i]))
    && (forall i, k :: 0 <= i < k < |leases| ==> leases[i].verificationId != leases[k].verificationId)
    && (forall i, k :: 0 <= i < k < |leases| && leases[i].status.Held? && leases[k].status.Held? ==>
          leases[i].workItemId != leases[k].workItemId && leases[i].repository != leases[k].repository)
  }

  /** Criteria that came out of a verification plan. */
  predicate Planned(criteria: seq<Criterion>) {
    |criteria| > 0 && forall i :: 0 <= i < |criteria| ==> AcceptedCriterion(criteria[i])
  }

  /** A verification rests on a successful execution of its item, and, once judged, its verdict follows from its
      checks; for a pilot it concerns the candidate head. */
  predicate Grounded(record: V.VRecord, records: seq<Record>) {
    && Planned(record.criteria) && SucceededFor(records, record.sourceExecutionId, record.workItemId)
    && (record.status.Passed? ==> V.AllAuto(record.criteria) && V.AutoMet(record.criteria, record.checks))
    && (!record.status.Pending? && !record.status.Error? && NonEmpty(PilotHead(records, record.sourceExecutionId)) ==>
          record.verifiedHead == PilotHead(records, record.sourceExecutionId))
  }

  predicate AllGrounded(logs: Logs) {
    forall i :: 0 <= i < |logs.vrecords| ==> Grounded(logs.vrecords[i], logs.records)
  }

  predicate LogsInv(logs: Logs) {
    RunLogs(logs.leases, logs.records) && CheckLogs(logs.vleases, logs.vrecords) && AllGrounded(logs)
  }

  predicate Executing(leases: seq<Lease>, id: string, repository: string) {
    exists i :: 0 <= i < |leases| && leases[i].status.Held?
                && leases[i].workItemId == id && leases[i].repository == repository
  }

  predicate BeingVerified(leases: seq<V.VLease>, id: string, repository: string) {
    exists i :: 0 <= i < |leases| && leases[i].status.Held?
                && leases[i].workItemId == id && leases[i].repository == repository
  }

  predicate InState(repos: seq<Repo>, id: string, repository: string, state: WorkState) {
    var item := Find(repos, id);
    item.Some? && item.value.exec.workState == state && item.value.source.repository == repository
  }

  /** A held execution lease means RUNNING, a held verification lease VERIFYING. */
  ghost predicate Coupled(s: Snapshot) {
    && (forall id, repository :: Executing(s.logs.leases, id, repository) ==> InState(s.repos, id, repository, Running))
    && (forall id, repository :: BeingVerified(s.logs.vleases, id, repository) ==>
          InState(s.repos, id, repository, Verifying))
  }

  /** The evidence behind DONE: a PASSED verification of the item, by criteria that are all automatic, with every
      named check passed last, of a successful execution that produced no pilot candidate. */
  predicate Evidence(record: V.VRecord, records: seq<Record>, id: string) {
    && record.workItemId == id && record.status.Passed? && Planned(record.criteria)
    && V.AllAuto(record.criteria) && V.AutoMet(record.criteria, record.checks)
    && exists j :: 0 <= j < |records| && records[j].executionId == record.sourceExecutionId
                   && records[j].workItemId == id && records[j].status.Succeeded? && !NonEmpty(records[j].candidateHead)
  }

  predicate Evidenced(logs: Logs, id: string) {
    exists k :: 0 <= k < |logs.vrecords| && Evidence(logs.vrecords[k], logs.records, id)
  }

  ghost predicate DoneRests(s: Snapshot) {
    forall id :: Find(s.repos, id).Some? && Find(s.repos, id).value.exec.workState.Done? ==> Evidenced(s.logs, id)
  }

  /** What holds whatever happens to the Issues and whenever a human is called in. */
  ghost predicate Recorded(s: Snapshot) { Placed(s.repos) && LogsInv(s.logs) && DoneRests(s) }

  /** What holds on top as long as leased items are left alone. */
  ghost predicate Inv(s: Snapshot) { Recorded(s) && Coupled(s) }

  // ----------------------------------------------------------------- steps

  predicate FreshRun(logs: Logs, id: string) {
    forall i :: 0 <= i < |logs.leases| ==> logs.leases[i].executionId != id
  }

  predicate FreshCheck(logs: Logs, id: string) {
    forall i :: 0 <= i < |logs.vleases| ==> logs.vleases[i].verificationId != id
  }

  /** The commands production issues: generated ids are fresh, a run's event follows from its result, and criteria
      come from a plan. */
  ghost predicate Issued(s: Snapshot, cmd: Command) {
    match cmd
    case Transit(id, event) => event.DefinitionCompleted? || event.RetryStarted? || event.HumanRequired?
    case Acquire(id, _, _, _, _, _) => FreshRun(s.logs, id)
    case CompleteRun(_, result, event) => event == RunEvent(result) && !result.status.InProgress?
    case RecoverCandidate(_, _, _, _, _, _, _, _, _) => true
    case AcquireVerification(id, _, _, _, _, criteria) =>
      FreshCheck(s.logs, id)
      && exists lines, available ::
           PlanFor(lines, available).Ok? && PlanFor(lines, available).value.criteria == criteria
    case CompleteVerification(_, _) => true
  }

  ghost predicate CommandStep(s: Snapshot, s': Snapshot, cmd: Command) {
    Issued(s, cmd) && Perform(s, cmd).Ok? && s' == Perform(s, cmd).value.next
  }

  ghost predicate SyncStep(s: Snapshot, s': Snapshot, name: string, batch: seq<WorkItem>, metadata: Metadata) {
    Committable(s.repos, name, batch) && CommitSync(s, name, batch, metadata) == Ok(s')
  }

  ghost predicate FailureStep(s: Snapshot, s': Snapshot, name: string, metadata: Metadata) {
    NoColon(name) && RecordFailure(s, name, metadata) == Ok(s')
  }

  /** An accepted command, a sync, a recorded sync failure, or an update that failed and changed nothing. */
  ghost predicate Step(s: Snapshot, s': Snapshot) {
    || s' == s
    || (exists cmd :: CommandStep(s, s', cmd))
    || (exists name, batch, metadata :: SyncStep(s, s', name, batch, metadata))
    || (exists name, metadata :: FailureStep(s, s', name, metadata))
  }

  const EMPTY := Snapshot([], Logs([], [], [], []))

  ghost predicate StepAt(trace: seq<Snapshot>, i: int)
    requires 0 <= i < |trace| - 1
  {
    Step(trace[i], trace[i+1])
  }

  ghost predicate Run(trace: seq<Snapshot>) {
    && |trace| > 0 && trace[0] == EMPTY
    && forall i :: 0 <= i < |trace| - 1 ==> StepAt(trace, i)
  }

  // ----------------------------------------------------------- careful steps

  /** The item has no held lease of either kind. */
  predicate Unleased(logs: Logs, id: string) {
    && (forall i :: 0 <= i < |logs.leases| && logs.leases[i].status.Held? ==> logs.leases[i].workItemId != id)
    && (forall i :: 0 <= i < |logs.vleases| && logs.vleases[i].status.Held? ==> logs.vleases[i].workItemId != id)
  }

  /** A command that is not a HUMAN_REQUIRED for a leased item. */
  ghost predicate CarefulCommand(s: Snapshot, s': Snapshot, cmd: Command) {
    CommandStep(s, s', cmd) && (cmd.Transit? && cmd.event.HumanRequired? ==> Unleased(s.logs, cmd.id))
  }

  /** A sync of one repository keeps an item, or the item is not stored. */
  predicate KeepsItem(s: Snapshot, name: string, batch: seq<WorkItem>, id: string) {
    Find(s.repos, id).Some? ==> Kept(name, batch, Find(s.repos, id).value)
  }

  /** A sync keeps every item that has a held lease. */
  predicate KeepsLeased(s: Snapshot, name: string, batch: seq<WorkItem>) {
    && (forall i :: 0 <= i < |s.logs.leases| && s.logs.leases[i].status.Held? ==>
          KeepsItem(s, name, batch, s.logs.leases[i].workItemId))
    && (forall i :: 0 <= i < |s.logs.vleases| && s.logs.vleases[i].status.Held? ==>
          KeepsItem(s, name, batch, s.logs.vleases[i].workItemId))
  }

  ghost predicate CarefulSync(s: Snapshot, s': Snapshot, name: string, batch: seq<WorkItem>, metadata: Metadata) {
    SyncStep(s, s', name, batch, metadata) && KeepsLeased(s, name, batch)
  }

  /** A step that leaves leased items alone: no sync drops one, and no human is called in for one. */
  ghost predicate CarefulStep(s: Snapshot, s': Snapshot) {
    || s' == s
    || (exists cmd :: CarefulCommand(s, s', cmd))
    || (exists name, batch, metadata :: CarefulSync(s, s', name, batch, metadata))
    || (exists name, metadata :: FailureStep(s, s', name, metadata))
  }

  ghost predicate CarefulStepAt(trace: seq<Snapshot>, i: int)
    requires 0 <= i < |trace| - 1
  {
    CarefulStep(trace[i], trace[i+1])
  }

  ghost predicate CarefulRun(trace: seq<Snapshot>) {
    && |trace| > 0 && trace[0] == EMPTY
    && forall i :: 0 <= i < |trace| - 1 ==> CarefulStepAt(trace, i)
  }

  // ------------------------------------------------------------- the logs

  /** How logs may change: entries are only added, and a finished record never changes again. */
  predicate LogsGrow(a: Logs, b: Logs) {
    && |a.records| <= |b.records| && |a.vrecords| <= |b.vrecords|
    && (forall i :: 0 <= i < |a.records| ==>
          b.records[i].executionId == a.records[i].executionId && b.records[i].workItemId == a.records[i].workItemId
          && (a.records[i].status.InProgress? || b.records[i] == a.records[i]))
    && (forall i :: 0 <= i < |a.vrecords| ==>
          b.vrecords[i].verificationId == a.vrecords[i].verificationId
          && b.vrecords[i].criteria == a.vrecords[i].criteria
          && (a.vrecords[i].status.Pending? || b.vrecords[i] == a.vrecords[i]))
  }

  lemma {:induction false} GroundedPersists(a: Logs, b: Logs, record: V.VRecord)
    requires RunLogs(a.leases, a.records) && RunLogs(b.leases, b.records) && LogsGrow(a, b)
    requires Grounded(record, a.records)
    ensures Grounded(record, b.records)
  {
    var j :| 0 <= j < |a.records| && a.records[j].executionId == record.sourceExecutionId
      && a.records[j].workItemId == record.workItemId && a.records[j].status.Succeeded?;
    assert b.records[j] == a.records[j];
    RecordIs(a.leases, a.records, j);
    RecordIs(b.leases, b.records, j);
  }

  /** Ids are unique, so the first record with an id is the only one. */
  lemma {:induction false} RecordIs(leases: seq<Lease>, records: seq<Record>, j: nat)
    requires RunLogs(leases, records) && j < |records|
    ensures IndexOfRecord(records, records[j].executionId) == j
  {
  }

  lemma {:induction false} LeaseIs(leases: seq<Lease>, records: seq<Record>, executionId: string)
    requires RunLogs(leases, records) && IndexOfHeld(leases, executionId) < |leases|
    ensures IndexOfRecord(records, executionId) == IndexOfHeld(leases, executionId)
  {
  }

  lemma {:induction false} VRecordIs(leases: seq<V.VLease>, records: seq<V.VRecord>, id: string)
    requires CheckLogs(leases, records) && V.IndexOfVHeld(leases, id) < |leases|
    ensures V.IndexOfVRecord(records, id) == V.IndexOfVHeld(leases, id)
  {
  }

  lemma {:induction false} AppendRun(leases: seq<Lease>, records: seq<Record>, lease: Lease, record: Record)
    requires RunLogs(leases, records) && Matched(lease, record)
    requires forall i :: 0 <= i < |leases| ==> leases[i].executionId != lease.executionId
    requires lease.status.Held? ==> !HeldFor(leases, lease.workItemId, lease.repository)
    ensures RunLogs(leases + [lease], records + [record])
  {
  }

  lemma {:induction false} FinishRun(leases: seq<Lease>, records: seq<Record>, l: nat, lease: Lease, record: Record)
    requires RunLogs(leases, records) && l < |leases| && Matched(lease, record) && !lease.status.Held?
    requires lease.executionId == leases[l].executionId
    ensures RunLogs(leases[l := lease], records[l := record])
  {
  }

  lemma {:induction false} AppendCheck(
    leases: seq<V.VLease>, records: seq<V.VRecord>, lease: V.VLease, record: V.VRecord)
    requires CheckLogs(leases, records) && VMatched(lease, record)
    requires forall i :: 0 <= i < |leases| ==> leases[i].verificationId != lease.verificationId
    requires !V.VHeldFor(leases, lease.workItemId, lease.repository)
    ensures CheckLogs(leases + [lease], records + [record])
  {
  }

  lemma {:induction false} FinishCheck(
    leases: seq<V.VLease>, records: seq<V.VRecord>, l: nat, lease: V.VLease, record: V.VRecord)
    requires CheckLogs(leases, records) && l < |leases| && VMatched(lease, record) && !lease.status.Held?
    requires lease.verificationId == leases[l].verificationId
    ensures CheckLogs(leases[l := lease], records[l := record])
  {
  }

  lemma {:induction false} AllGroundedPersists(a: Logs, b: Logs)
    requires LogsInv(a) && RunLogs(b.leases, b.records) && LogsGrow(a, b) && b.vrecords == a.vrecords
    ensures AllGrounded(b)
  {
    forall i | 0 <= i < |b.vrecords| ensures Grounded(b.vrecords[i], b.records) {
      GroundedPersists(a, b, a.vrecords[i]);
    }
  }

  lemma {:induction false} AcquireKeepsLogs(s: Snapshot, cmd: Command, item: Option<View>)
    requires LogsInv(s.logs) && Issued(s, cmd) && cmd.Acquire? && Act(cmd, item, s.logs).Ok?
    ensures var logs' := Act(cmd, item, s.logs).value.logs; LogsInv(logs') && LogsGrow(s.logs, logs')
  {
    var a, b := s.logs, Act(cmd, item, s.logs).value.logs;
    if b != a {
      AppendRun(a.leases, a.records, b.leases[|a.leases|], b.records[|a.records|]);
    }
    AllGroundedPersists(a, b);
  }

  lemma {:induction false} FinishedRunKeepsLogs(a: Logs, l: nat, lease: Lease, record: Record)
    requires LogsInv(a) && l < |a.leases| && Matched(lease, record) && !lease.status.Held?
    requires lease.executionId == a.leases[l].executionId && record.workItemId == a.records[l].workItemId
    requires a.records[l].status.InProgress?
    ensures
      var b := a.(leases := a.leases[l := lease], records := a.records[l := record]);
      LogsInv(b) && LogsGrow(a, b)
  {
    var b := a.(leases := a.leases[l := lease], records := a.records[l := record]);
    assert Matched(a.leases[l], a.records[l]);
    FinishRun(a.leases, a.records, l, lease, record);
    AllGroundedPersists(a, b);
  }

  /** A completed run releases its lease and finishes its record. */
  lemma {:induction false} CompleteRunFinishes(logs: Logs, cmd: Command, item: Option<View>)
    returns (lease: Lease, record: Record)
    requires cmd.CompleteRun? && !cmd.result.status.InProgress? && Act(cmd, item, logs).Ok?
    ensures
      var l, r := IndexOfHeld(logs.leases, cmd.executionId), IndexOfRecord(logs.records, cmd.executionId);
      && l < |logs.leases| && r < |logs.records|
      && Act(cmd, item, logs).value.logs == logs.(leases := logs.leases[l := lease],
                                                  records := logs.records[r := record])
      && lease == logs.leases[l].(status := lease.status) && !lease.status.Held?
      && record.executionId == logs.records[r].executionId && record.workItemId == logs.records[r].workItemId
      && record.attempt == logs.records[r].attempt && record.workerId == logs.records[r].workerId
      && !record.status.InProgress?
  {
    var l, r := IndexOfHeld(logs.leases, cmd.executionId), IndexOfRecord(logs.records, cmd.executionId);
    lease, record := Act(cmd, item, logs).value.logs.leases[l], Act(cmd, item, logs).value.logs.records[r];
  }

  lemma {:induction false} CompleteRunKeepsLogs(s: Snapshot, cmd: Command, item: Option<View>)
    requires LogsInv(s.logs) && Issued(s, cmd) && cmd.CompleteRun? && Act(cmd, item, s.logs).Ok?
    ensures var logs' := Act(cmd, item, s.logs).value.logs; LogsInv(logs') && LogsGrow(s.logs, logs')
  {
    var lease, record := CompleteRunFinishes(s.logs, cmd, item);
    var l := IndexOfHeld(s.logs.leases, cmd.executionId);
    LeaseIs(s.logs.leases, s.logs.records, cmd.executionId);
    assert Matched(s.logs.leases[l], s.logs.records[l]);
    FinishedRunKeepsLogs(s.logs, l, lease, record);
  }

  /** A recovered candidate adds one released lease and its finished record, under an id no record has. */
  lemma {:induction false} RecoverAdds(logs: Logs, cmd: Command, item: Option<View>)
    returns (lease: Lease, record: Record)
    requires cmd.RecoverCandidate? && Act(cmd, item, logs).Ok?
    ensures Act(cmd, item, logs).value.logs == logs.(leases := logs.leases + [lease],
                                                     records := logs.records + [record])
    ensures Matched(lease, record) && !lease.status.Held? && lease.executionId == cmd.recoveryId
    ensures forall i :: 0 <= i < |logs.records| ==> logs.records[i].executionId != cmd.recoveryId
  {
    var b := Act(cmd, item, logs).value.logs;
    lease, record := b.leases[|logs.leases|], b.records[|logs.records|];
    assert IndexOfRecord(logs.records, cmd.recoveryId) == |logs.records|;
  }

  lemma {:induction false} RecoverKeepsLogs(s: Snapshot, cmd: Command, item: Option<View>)
    requires LogsInv(s.logs) && cmd.RecoverCandidate? && Act(cmd, item, s.logs).Ok?
    ensures var logs' := Act(cmd, item, s.logs).value.logs; LogsInv(logs') && LogsGrow(s.logs, logs')
  {
    var a, b := s.logs, Act(cmd, item, s.logs).value.logs;
    var lease, record := RecoverAdds(a, cmd, item);
    forall i | 0 <= i < |a.leases| ensures a.leases[i].executionId != cmd.recoveryId {
      assert Matched(a.leases[i], a.records[i]);
    }
    AppendRun(a.leases, a.records, lease, record);
    AllGroundedPersists(a, b);
  }

  lemma {:induction false} PlannedCriteria(lines: seq<string>, available: seq<string>)
    requires PlanFor(lines, available).Ok?
    ensures Planned(PlanFor(lines, available).value.criteria)
  {
    ParseSound(lines);
  }

  lemma {:induction false} AddedCheckKeepsLogs(a: Logs, lease: V.VLease, record: V.VRecord)
    requires LogsInv(a) && VMatched(lease, record) && FreshCheck(a, lease.verificationId)
    requires !V.VHeldFor(a.vleases, lease.workItemId, lease.repository) && Grounded(record, a.records)
    ensures
      var b := a.(vleases := a.vleases + [lease], vrecords := a.vrecords + [record]);
      LogsInv(b) && LogsGrow(a, b)
  {
    AppendCheck(a.vleases, a.vrecords, lease, record);
  }

  /** An acquired verification adds one held lease and its open record; a refused one adds nothing. */
  lemma {:induction false} AcquireVerificationAdds(logs: Logs, cmd: Command, item: Option<View>)
    returns (added: Option<(V.VLease, V.VRecord)>)
    requires cmd.AcquireVerification? && Act(cmd, item, logs).Ok?
    ensures added.None? ==> Act(cmd, item, logs).value.logs == logs
    ensures added.Some? ==>
      var (lease, record) := added.value;
      && Act(cmd, item, logs).value.logs == logs.(vleases := logs.vleases + [lease],
                                                  vrecords := logs.vrecords + [record])
      && VMatched(lease, record) && lease.verificationId == cmd.verificationId && record.status.Pending?
      && record.criteria == cmd.criteria && SucceededFor(logs.records, record.sourceExecutionId, record.workItemId)
      && !V.VHeldFor(logs.vleases, lease.workItemId, lease.repository)
  {
    var b := Act(cmd, item, logs).value.logs;
    added := if |b.vleases| == |logs.vleases| then None
             else Some((b.vleases[|logs.vleases|], b.vrecords[|logs.vrecords|]));
  }

  lemma {:induction false} AcquireVerificationKeepsLogs(s: Snapshot, cmd: Command, item: Option<View>)
    requires LogsInv(s.logs) && cmd.AcquireVerification? && Issued(s, cmd) && Act(cmd, item, s.logs).Ok?
    ensures var logs' := Act(cmd, item, s.logs).value.logs; LogsInv(logs') && LogsGrow(s.logs, logs')
  {
    var added := AcquireVerificationAdds(s.logs, cmd, item);
    if added.Some? {
      var lines, available :| PlanFor(lines, available).Ok? && PlanFor(lines, available).value.criteria == cmd.criteria;
      PlannedCriteria(lines, available);
      AddedCheckKeepsLogs(s.logs, added.value.0, added.value.1);
    }
  }

  /** The verdict that `completeVerification` records is grounded in the checks it records, and for a pilot
      concerns the candidate head. */
  lemma {:induction false} JudgedIsGrounded(record: V.VRecord, records: seq<Record>, r: V.VResult)
    requires Grounded(record, records)
    ensures
      var pilotHead := PilotHead(records, record.sourceExecutionId);
      var effective := Effective(pilotHead, r);
      var d := V.Decide(record.criteria, effective);
      && Grounded(Judged(record, effective, d), records) && !d.status.Pending?
      && (NonEmpty(pilotHead) && !d.status.Error? ==> effective.verifiedHead == pilotHead)
  {
    var effective := Effective(PilotHead(records, record.sourceExecutionId), r);
    V.DecisionIsExact(record.criteria, effective);
  }

  lemma {:induction false} ReplaceGrounded(a: Logs, b: Logs, l: nat)
    requires AllGrounded(a) && l < |a.vrecords| == |b.vrecords| && b.records == a.records
    requires b.vrecords == a.vrecords[l := b.vrecords[l]] && Grounded(b.vrecords[l], b.records)
    ensures AllGrounded(b)
  {
  }

  /** What completing a verification does to the logs, whatever its verdict. */
  lemma {:induction false} VerdictShape(cmd: Command, item: Option<View>, a: Logs)
    requires cmd.CompleteVerification? && Act(cmd, item, a).Ok?
    ensures
      var b := Act(cmd, item, a).value.logs;
      var l, k := V.IndexOfVHeld(a.vleases, cmd.verificationId), V.IndexOfVRecord(a.vrecords, cmd.verificationId);
      && l < |a.vleases| && k < |a.vrecords| && |b.vleases| == |a.vleases| && |b.vrecords| == |a.vrecords|
      && b.leases == a.leases && b.records == a.records
      && !b.vleases[l].status.Held? && b.vleases[l] == a.vleases[l].(status := b.vleases[l].status)
      && b.vleases == a.vleases[l := b.vleases[l]]
      && var effective := Effective(PilotHead(a.records, a.vrecords[k].sourceExecutionId), cmd.vresult);
           b.vrecords == a.vrecords[k := Judged(a.vrecords[k], effective, V.Decide(a.vrecords[k].criteria, effective))]
  {
  }

  lemma {:induction false} JudgedCheckKeepsLogs(a: Logs, b: Logs, l: nat, r: V.VResult)
    requires LogsInv(a) && l < |a.vleases| && a.vrecords[l].status.Pending? && b.leases == a.leases
    requires b.records == a.records
    requires |b.vleases| == |a.vleases| && b.vleases == a.vleases[l := b.vleases[l]]
    requires !b.vleases[l].status.Held? && b.vleases[l] == a.vleases[l].(status := b.vleases[l].status)
    requires
      var effective := Effective(PilotHead(a.records, a.vrecords[l].sourceExecutionId), r);
      b.vrecords == a.vrecords[l := Judged(a.vrecords[l], effective, V.Decide(a.vrecords[l].criteria, effective))]
    ensures LogsInv(b) && LogsGrow(a, b)
  {
    assert VMatched(a.vleases[l], a.vrecords[l]) && Grounded(a.vrecords[l], a.records);
    JudgedIsGrounded(a.vrecords[l], a.records, r);
    FinishCheck(a.vleases, a.vrecords, l, b.vleases[l], b.vrecords[l]);
    ReplaceGrounded(a, b, l);
  }

  lemma {:induction false} CompleteVerificationKeepsLogs(s: Snapshot, cmd: Command, item: Option<View>)
    requires LogsInv(s.logs) && cmd.CompleteVerification? && Act(cmd, item, s.logs).Ok?
    ensures var logs' := Act(cmd, item, s.logs).value.logs; LogsInv(logs') && LogsGrow(s.logs, logs')
  {
    var l := V.IndexOfVHeld(s.logs.vleases, cmd.verificationId);
    VerdictShape(cmd, item, s.logs);
    VRecordIs(s.logs.vleases, s.logs.vrecords, cmd.verificationId);
    assert VMatched(s.logs.vleases[l], s.logs.vrecords[l]);
    JudgedCheckKeepsLogs(s.logs, Act(cmd, item, s.logs).value.logs, l, cmd.vresult);
  }

  lemma {:induction false} CommandKeepsLogs(s: Snapshot, cmd: Command, item: Option<View>)
    requires LogsInv(s.logs) && Issued(s, cmd) && Act(cmd, item, s.logs).Ok?
    ensures var logs' := Act(cmd, item, s.logs).value.logs; LogsInv(logs') && LogsGrow(s.logs, logs')
  {
    match cmd {
      case Transit(_, _) => assert Act(cmd, item, s.logs).value.logs == s.logs;
      case Acquire(_, _, _, _, _, _) => AcquireKeepsLogs(s, cmd, item);
      case CompleteRun(_, _, _) => CompleteRunKeepsLogs(s, cmd, item);
      case RecoverCandidate(_, _, _, _, _, _, _, _, _) => RecoverKeepsLogs(s, cmd, item);
      case AcquireVerification(_, _, _, _, _, _) => AcquireVerificationKeepsLogs(s, cmd, item);
      case CompleteVerification(_, _) => CompleteVerificationKeepsLogs(s, cmd, item);
    }
  }

  // ------------------------------------------------------------ the coupling

  lemma {:induction false} FindAfterSet(repos: seq<Repo>, id: string, exec: Exec, other: string)
    requires Placed(repos)
    ensures Find(SetExec(repos, id, exec), other) ==
            if other == id && Find(repos, id).Some? then Some(Find(repos, id).value.(exec := exec))
            else Find(repos, other)
  {
    var r := RepoIndex(repos, id);
    if r < |repos| {
      var i := ItemIndex(repos[r].items, id);
      var repos' := repos[r := Rewritten(repos[r], i, exec)];
      SetKeepsPlaced(repos, id, exec);
      forall k | 0 <= k < |repos| ensures ItemIndex(repos'[k].items, other) == ItemIndex(repos[k].items, other) {
        if k == r { SameIds(repos[r].items, repos'[r].items, other); }
      }
      SameRepo(repos, repos', other);
      assert repos'[r].items[i].id == id;
    }
  }

  lemma {:induction false} SameIds(a: seq<WorkItem>, b: seq<WorkItem>, id: string)
    requires |a| == |b| && forall i :: 0 <= i < |a| ==> a[i].id == b[i].id
    ensures ItemIndex(a, id) == ItemIndex(b, id)
  {
  }

  lemma {:induction false} SameRepo(a: seq<Repo>, b: seq<Repo>, id: string)
    requires |a| == |b|
    requires forall k :: 0 <= k < |a| ==>
               |a[k].items| == |b[k].items| && ItemIndex(a[k].items, id) == ItemIndex(b[k].items, id)
    ensures RepoIndex(a, id) == RepoIndex(b, id)
  {
  }

  /** The held leases after a command: those of other items stay, and the command's item has one only in the
      state that goes with it. */
  ghost predicate LeasesFollow(logs: Logs, logs': Logs, item: View, exec: Exec) {
    && (forall id, repository :: Executing(logs'.leases, id, repository) ==>
          if id == item.id then exec.workState.Running? && repository == item.source.repository
          else Executing(logs.leases, id, repository))
    && (forall id, repository :: BeingVerified(logs'.vleases, id, repository) ==>
          if id == item.id then exec.workState.Verifying? && repository == item.source.repository
          else BeingVerified(logs.vleases, id, repository))
  }

  lemma {:induction false} FollowingKeepsCoupled(s: Snapshot, id: string, exec: Exec, logs': Logs)
    requires Placed(s.repos) && Coupled(s) && Find(s.repos, id).Some?
    requires LeasesFollow(s.logs, logs', FindView(s.repos, id).value, exec)
    ensures Coupled(Snapshot(SetExec(s.repos, id, exec), logs'))
  {
    var repos' := SetExec(s.repos, id, exec);
    forall other, repository | Executing(logs'.leases, other, repository)
      ensures InState(repos', other, repository, Running)
    {
      FindAfterSet(s.repos, id, exec, other);
    }
    forall other, repository | BeingVerified(logs'.vleases, other, repository)
      ensures InState(repos', other, repository, Verifying)
    {
      FindAfterSet(s.repos, id, exec, other);
    }
  }

  /** An item that is neither RUNNING nor VERIFYING has no held lease. */
  lemma {:induction false} IdleIsUnleased(s: Snapshot, id: string)
    requires Coupled(s) && Find(s.repos, id).Some?
    ensures !Find(s.repos, id).value.exec.workState.Running? ==>
      forall repository :: !Executing(s.logs.leases, id, repository)
    ensures !Find(s.repos, id).value.exec.workState.Verifying? ==>
      forall repository :: !BeingVerified(s.logs.vleases, id, repository)
  {
  }

  lemma {:induction false} TransitFollows(s: Snapshot, s': Snapshot, cmd: Command)
    requires Coupled(s) && cmd.Transit? && CarefulCommand(s, s', cmd)
    ensures var v := FindView(s.repos, cmd.id);
            v.Some? && LeasesFollow(s.logs, s.logs, v.value, Transition(v.value.exec, cmd.event).value)
  {
    IdleIsUnleased(s, cmd.id);
  }

  lemma {:induction false} AcquireFollows(s: Snapshot, cmd: Command)
    requires Coupled(s) && cmd.Acquire? && Perform(s, cmd).Ok? && Find(s.repos, cmd.workItemId).Some?
    ensures var v := FindView(s.repos, cmd.workItemId).value;
            var e := Act(cmd, Some(v), s.logs).value;
            e.exec.Some? ==> LeasesFollow(s.logs, e.logs, v, e.exec.value)
    ensures Act(cmd, FindView(s.repos, cmd.workItemId), s.logs).value.exec.None? ==>
            Act(cmd, FindView(s.repos, cmd.workItemId), s.logs).value.logs == s.logs
  {
    var v := FindView(s.repos, cmd.workItemId).value;
    var e := Act(cmd, Some(v), s.logs).value;
    IdleIsUnleased(s, cmd.workItemId);
    if e.exec.Some? {
      var leases' := e.logs.leases;
      forall id, repository | Executing(leases', id, repository)
        ensures if id == v.id then repository == v.source.repository else Executing(s.logs.leases, id, repository)
      {
        var i :| 0 <= i < |leases'| && leases'[i].status.Held?
                 && leases'[i].workItemId == id && leases'[i].repository == repository;
        if i < |s.logs.leases| {
          assert s.logs.leases[i] == leases'[i] && Executing(s.logs.leases, id, repository);
        }
      }
    }
  }

  lemma {:induction false} CompleteRunFollows(s: Snapshot, cmd: Command)
    requires Coupled(s) && RunLogs(s.logs.leases, s.logs.records) && cmd.CompleteRun? && Perform(s, cmd).Ok?
    ensures var id := ItemOf(cmd, s.logs).value;
            var v := FindView(s.repos, id);
            && v.Some? && Act(cmd, v, s.logs).value.exec.Some?
            && LeasesFollow(s.logs, Act(cmd, v, s.logs).value.logs, v.value, Act(cmd, v, s.logs).value.exec.value)
  {
    var l := IndexOfHeld(s.logs.leases, cmd.executionId);
    var lease := s.logs.leases[l];
    var id := lease.workItemId;
    var leases' := Act(cmd, FindView(s.repos, id), s.logs).value.logs.leases;
    assert Executing(s.logs.leases, id, lease.repository);
    IdleIsUnleased(s, id);
    forall other, repository | Executing(leases', other, repository)
      ensures other != id && Executing(s.logs.leases, other, repository)
    {
      var i :| 0 <= i < |leases'| && leases'[i].status.Held?
               && leases'[i].workItemId == other && leases'[i].repository == repository;
      assert i != l && s.logs.leases[i] == leases'[i];
    }
  }

  lemma {:induction false} RecoverMoves(cmd: Command, item: Option<View>, logs: Logs)
    requires cmd.RecoverCandidate? && Act(cmd, item, logs).Ok?
    ensures item.Some? && item.value.exec.workState.Failed? && Act(cmd, item, logs).value.exec.Some?
  {
  }

  lemma {:induction false} RecoverFollows(s: Snapshot, cmd: Command)
    requires Coupled(s) && cmd.RecoverCandidate? && Perform(s, cmd).Ok?
    ensures var v := FindView(s.repos, cmd.workItemId);
            && v.Some? && Act(cmd, v, s.logs).value.exec.Some?
            && LeasesFollow(s.logs, Act(cmd, v, s.logs).value.logs, v.value, Act(cmd, v, s.logs).value.exec.value)
  {
    var v := FindView(s.repos, cmd.workItemId);
    RecoverMoves(cmd, v, s.logs);
    IdleIsUnleased(s, cmd.workItemId);
    var lease, record := RecoverAdds(s.logs, cmd, v);
    ReleasedAddsNothing(s.logs.leases, lease);
  }

  lemma {:induction false} ReleasedAddsNothing(leases: seq<Lease>, lease: Lease)
    requires !lease.status.Held?
    ensures forall id, repository :: Executing(leases + [lease], id, repository) ==> Executing(leases, id, repository)
  {
    var leases' := leases + [lease];
    forall id, repository | Executing(leases', id, repository) ensures Executing(leases, id, repository) {
      var i :| 0 <= i < |leases'| && leases'[i].status.Held?
               && leases'[i].workItemId == id && leases'[i].repository == repository;
      assert leases[i] == leases'[i];
    }
  }

  /** A verification is only acquired for a VERIFYING item, and leaves it there. */
  lemma {:induction false} AcquireVerificationCouples(s: Snapshot, cmd: Command)
    requires Coupled(s) && cmd.AcquireVerification? && Perform(s, cmd).Ok?
    ensures Coupled(Perform(s, cmd).value.next) && Perform(s, cmd).value.next.repos == s.repos
  {
    var vleases' := Perform(s, cmd).value.next.logs.vleases;
    forall other, repository | BeingVerified(vleases', other, repository)
      ensures InState(s.repos, other, repository, Verifying)
    {
      var i :| 0 <= i < |vleases'| && vleases'[i].status.Held?
               && vleases'[i].workItemId == other && vleases'[i].repository == repository;
      if i < |s.logs.vleases| {
        assert s.logs.vleases[i] == vleases'[i] && BeingVerified(s.logs.vleases, other, repository);
      }
    }
  }

  lemma {:induction false} VerifiedItem(s: Snapshot, verificationId: string)
    requires Coupled(s) && CheckLogs(s.logs.vleases, s.logs.vrecords)
    requires V.IndexOfVHeld(s.logs.vleases, verificationId) < |s.logs.vleases|
    ensures
      var l := V.IndexOfVHeld(s.logs.vleases, verificationId);
      && V.IndexOfVRecord(s.logs.vrecords, verificationId) == l
      && s.logs.vrecords[l].workItemId == s.logs.vleases[l].workItemId
      && InState(s.repos, s.logs.vleases[l].workItemId, s.logs.vleases[l].repository, Verifying)
  {
  }

  lemma {:induction false} CompleteVerificationFollows(s: Snapshot, cmd: Command)
    requires Coupled(s) && CheckLogs(s.logs.vleases, s.logs.vrecords) && cmd.CompleteVerification?
    requires Perform(s, cmd).Ok?
    ensures
      var v := FindView(s.repos, ItemOf(cmd, s.logs).value);
      && v.Some? && var e := Act(cmd, v, s.logs).value;
           LeasesFollow(s.logs, e.logs, v.value, if e.exec.Some? then e.exec.value else v.value.exec)
  {
    var l := V.IndexOfVHeld(s.logs.vleases, cmd.verificationId);
    VerifiedItem(s, cmd.verificationId);
    var id := s.logs.vleases[l].workItemId;
    VerdictShape(cmd, FindView(s.repos, id), s.logs);
    var vleases' := Act(cmd, FindView(s.repos, id), s.logs).value.logs.vleases;
    IdleIsUnleased(s, id);
    forall other, repository | BeingVerified(vleases', other, repository)
      ensures other != id && BeingVerified(s.logs.vleases, other, repository)
    {
      var i :| 0 <= i < |vleases'| && vleases'[i].status.Held?
               && vleases'[i].workItemId == other && vleases'[i].repository == repository;
      assert i != l && s.logs.vleases[i] == vleases'[i];
    }
  }

  lemma {:induction false} SetSame(repos: seq<Repo>, id: string)
    requires Find(repos, id).Some?
    ensures SetExec(repos, id, Find(repos, id).value.exec) == repos
  {
    var r := RepoIndex(repos, id);
    var i := ItemIndex(repos[r].items, id);
    assert Rewritten(repos[r], i, repos[r].items[i].exec).items == repos[r].items;
    assert Rewritten(repos[r], i, repos[r].items[i].exec) == repos[r];
  }

  lemma {:induction false} CommandKeepsCoupled(s: Snapshot, s': Snapshot, cmd: Command)
    requires Inv(s) && CarefulCommand(s, s', cmd)
    ensures Coupled(s')
  {
    var id := ItemOf(cmd, s.logs).value;
    var e := Act(cmd, FindView(s.repos, id), s.logs).value;
    match cmd {
      case Transit(_, _) =>
        TransitFollows(s, s', cmd);
        FollowingKeepsCoupled(s, id, e.exec.value, e.logs);
      case Acquire(_, _, _, _, _, _) =>
        if Find(s.repos, id).Some? {
          AcquireFollows(s, cmd);
          if e.exec.Some? { FollowingKeepsCoupled(s, id, e.exec.value, e.logs); }
        }
      case CompleteRun(_, _, _) =>
        CompleteRunFollows(s, cmd);
        FollowingKeepsCoupled(s, id, e.exec.value, e.logs);
      case RecoverCandidate(_, _, _, _, _, _, _, _, _) =>
        RecoverFollows(s, cmd);
        FollowingKeepsCoupled(s, id, e.exec.value, e.logs);
      case AcquireVerification(_, _, _, _, _, _) => AcquireVerificationCouples(s, cmd);
      case CompleteVerification(_, _) =>
        CompleteVerificationFollows(s, cmd);
        SetSame(s.repos, id);
        FollowingKeepsCoupled(s, id, if e.exec.Some? then e.exec.value else Find(s.repos, id).value.exec, e.logs);
    }
  }
}
