/** The durable work item repository: one snapshot of items, execution logs and verification logs, and the
    updates that replace it. */
module WorkItemRepository {
  import opened Common
  import opened WorkStateMachine
  import opened Acceptance
  import opened Execution
  import V = Verification

  // -------------------------------------------------------------- snapshot

  /** The fields that synchronisation owns. */
  datatype Details = Details(
    title: string, sourceState: string, labels: seq<string>, assignees: seq<string>, sourceUrl: string,
    acceptanceCriteria: seq<string>, definitionReady: Option<bool>, sourceUpdatedAt: string, lastSyncedAt: int)

  datatype WorkItem = WorkItem(id: string, source: Source, details: Details, exec: Exec)

  datatype SyncStatus = Never | SyncSucceeded | SyncFailed

  datatype Metadata = Metadata(
    status: SyncStatus, lastAttemptedSyncAt: Option<int>, lastSuccessfulSyncAt: Option<int>,
    failureReason: Option<string>)

  datatype Repo = Repo(name: string, items: seq<WorkItem>, metadata: Metadata)

  datatype Logs = Logs(leases: seq<Lease>, records: seq<Record>, vleases: seq<V.VLease>, vrecords: seq<V.VRecord>)

  datatype Snapshot = Snapshot(repos: seq<Repo>, logs: Logs)

  function ViewOf(item: WorkItem): View { View(item.id, item.source, item.exec) }

  function ItemIndex(items: seq<WorkItem>, id: string): (i: nat)
    ensures i <= |items|
    ensures i < |items| ==> items[i].id == id
    ensures forall k :: 0 <= k < i ==> items[k].id != id
  {
    FirstIndex(items, (x: WorkItem) => x.id == id)
  }

  predicate Holds(repo: Repo, id: string) { ItemIndex(repo.items, id) < |repo.items| }

  /** The first repository that holds an item, in insertion order. */
  function RepoIndex(repos: seq<Repo>, id: string): (r: nat)
    ensures r <= |repos|
    ensures r < |repos| ==> Holds(repos[r], id)
    ensures forall k :: 0 <= k < r ==> !Holds(repos[k], id)
  {
    FirstIndex(repos, (x: Repo) => Holds(x, id))
  }

  function Find(repos: seq<Repo>, id: string): Option<WorkItem> {
    var r := RepoIndex(repos, id);
    if r == |repos| then None else Some(repos[r].items[ItemIndex(repos[r].items, id)])
  }

  function FindView(repos: seq<Repo>, id: string): Option<View> {
    var item := Find(repos, id);
    if item.Some? then Some(ViewOf(item.value)) else None
  }

  /** Rewrites the execution fields of the item that `Find` finds. */
  function SetExec(repos: seq<Repo>, id: string, exec: Exec): seq<Repo> {
    var r := RepoIndex(repos, id);
    if r == |repos| then repos
    else
      var i := ItemIndex(repos[r].items, id);
      repos[r := repos[r].(items := repos[r].items[i := repos[r].items[i].(exec := exec)])]
  }

  // -------------------------------------------------------------- commands

  datatype Command =
    | Transit(id: string, event: Event)
    | Acquire(executionId: string, workItemId: string, target: Target, worker: Worker, requestedAt: int,
              shuttingDown: bool)
    | CompleteRun(executionId: string, result: RunResult, event: Event)
    | RecoverCandidate(recoveryId: string, failedId: string, workItemId: string, workerId: string, baseHead: string,
                       candidateBranch: string, candidateHead: string, verifiedAt: int, evidence: seq<string>)
    | AcquireVerification(verificationId: string, workItemId: string, sourceId: string, workerId: string,
                          requestedAt: int, criteria: seq<Criterion>)
    | CompleteVerification(verificationId: string, vresult: V.VResult)

  datatype Reply =
    | Moved(exec: Exec)
    | Gated(gate: Gate, attempt: Option<nat>, moved: Option<Exec>)
    | Leased(acquired: bool)
    | Verified(outcome: Option<Exec>)

  /** What a command does: new execution fields for its item, if it moves, new logs, and its answer. */
  datatype Effect = Effect(exec: Option<Exec>, logs: Logs, reply: Reply)

  /** The item a command is about, or why it has none. */
  function ItemOf(cmd: Command, logs: Logs): Result<string> {
    match cmd
    case Transit(id, _) => Ok(id)
    case Acquire(_, id, _, _, _, _) => Ok(id)
    case CompleteRun(executionId, _, _) =>
      var i := IndexOfHeld(logs.leases, executionId);
      if i < |logs.leases| then Ok(logs.leases[i].workItemId) else Err("Active execution lease not found")
    case RecoverCandidate(_, _, id, _, _, _, _, _, _) => Ok(id)
    case AcquireVerification(_, id, _, _, _, _) => Ok(id)
    case CompleteVerification(id, _) =>
      var i := V.IndexOfVRecord(logs.vrecords, id);
      if V.IndexOfVHeld(logs.vleases, id) < |logs.vleases| && i < |logs.vrecords| then Ok(logs.vrecords[i].workItemId)
      else Err("Active verification lease not found")
  }

  function DoTransit(item: Option<View>, logs: Logs, event: Event): Result<Effect> {
    if item.None? then Err("WorkItem not found")
    else
      var moved := Transition(item.value.exec, event);
      if moved.Err? then Err(moved.error) else Ok(Effect(Some(moved.value), logs, Moved(moved.value)))
  }

  function DoAcquire(item: Option<View>, logs: Logs, cmd: Command): Result<Effect>
    requires cmd.Acquire?
  {
    if item.None? then Ok(Effect(None, logs, Gated(Rejected("WorkItem not found"), None, None)))
    else
      var current := item.value;
      var gate := EvaluateGate(current, Some(cmd.target), Some(cmd.worker), logs.leases, cmd.shuttingDown);
      if !gate.Eligible? then Ok(Effect(None, logs, Gated(gate, None, None)))
      else
        var running := Transition(current.exec, ExecutionStarted);
        if running.Err? then Err(running.error)
        else
          var attempt := Attempts(logs.leases, current.id) + 1;
          var lease := Lease(cmd.executionId, current.id, current.source.repository, cmd.worker.workerId,
                             cmd.requestedAt, Held, attempt);
          var record := Record(cmd.executionId, current.id, attempt, cmd.worker.workerId, cmd.requestedAt,
                               cmd.requestedAt, None, InProgress, "Execution dispatched", [], None, None, None, None,
                               None);
          Ok(Effect(Some(running.value), logs.(leases := logs.leases + [lease], records := logs.records + [record]),
                    Gated(gate, Some(attempt), Some(running.value))))
  }

  function Finished(record: Record, r: RunResult): Record {
    record.(finishedAt := Some(r.finishedAt), status := r.status, summary := r.summary, evidence := r.evidence,
            retryable := Some(r.retryable),
            finalAgentMessage := Reported(r.finalAgentMessage, record.finalAgentMessage),
            baseHead := Reported(r.baseHead, record.baseHead),
            candidateBranch := Reported(r.candidateBranch, record.candidateBranch),
            candidateHead := Reported(r.candidateHead, record.candidateHead))
  }

  function DoCompleteRun(
    item: Option<View>, logs: Logs, executionId: string, result: RunResult, event: Event): Result<Effect>
  {
    var l, r := IndexOfHeld(logs.leases, executionId), IndexOfRecord(logs.records, executionId);
    if l == |logs.leases| then Err("Active execution lease not found")
    else if item.None? then Err("WorkItem not found for execution")
    else
      var moved := Transition(item.value.exec, event);
      if moved.Err? then Err(moved.error)
      else if r == |logs.records| then Err("no record")
      else
        var lease := logs.leases[l].(status := if result.status.WorkerLost? then Abandoned else Released);
        Ok(Effect(Some(moved.value),
                  logs.(leases := logs.leases[l := lease],
                        records := logs.records[r := Finished(logs.records[r], result)]),
                  Moved(moved.value)))
  }

  predicate HexDigit(c: char) { '0' <= c <= '9' || 'a' <= c <= 'f' || 'A' <= c <= 'F' }

  predicate Sha(s: string) { |s| == 40 && forall i :: 0 <= i < 40 ==> HexDigit(s[i]) }

  function PilotBranch(externalId: string, executionId: string): string {
    "lcc/pilot/" + externalId + "-" + if |executionId| > 8 then executionId[..8] else executionId
  }

  function First10(s: seq<string>): seq<string> { if |s| > 10 then s[..10] else s }

  function IndexOfRun(records: seq<Record>, executionId: string, itemId: string): (i: nat)
    ensures i <= |records|
    ensures i < |records| ==> records[i].executionId == executionId && records[i].workItemId == itemId
    ensures forall k :: 0 <= k < i ==> !(records[k].executionId == executionId && records[k].workItemId == itemId)
  {
    FirstIndex(records, (x: Record) => x.executionId == executionId && x.workItemId == itemId)
  }

  /** Three transitions in one: a timed-out run whose candidate was verified independently goes straight from
      FAILED to VERIFYING. */
  function Recovered(e: Exec, recoveryId: string): Result<Exec> {
    var retrying := Transition(e, RetryStarted);
    if retrying.Err? then retrying
    else
      var running := Transition(retrying.value, ExecutionStarted);
      if running.Err? then running
      else
        var verifying := Transition(running.value, ExecutionCompleted(false));
        if verifying.Err? then verifying
        else Ok(verifying.value.(evidence := verifying.value.evidence
                                   + ["execution-recovery:" + recoveryId + ":INDEPENDENTLY_VERIFIED"]))
  }

  function DoRecover(item: Option<View>, logs: Logs, cmd: Command): Result<Effect>
    requires cmd.RecoverCandidate?
  {
    var f := IndexOfRun(logs.records, cmd.failedId, cmd.workItemId);
    if f == |logs.records| || !logs.records[f].status.TimedOut? then Err("Timed-out source execution not found")
    else if IndexOfRecord(logs.records, cmd.recoveryId) < |logs.records| then Err("Candidate recovery already exists")
    else if item.None? || !item.value.exec.workState.Failed? then Err("WorkItem is not recoverable")
    else if !Sha(cmd.baseHead) || !Sha(cmd.candidateHead) || cmd.baseHead == cmd.candidateHead
            || cmd.candidateBranch != PilotBranch(item.value.source.externalId, cmd.failedId)
    then Err("Invalid verified candidate recovery")
    else
      var moved := Recovered(item.value.exec, cmd.recoveryId);
      if moved.Err? then Err(moved.error)
      else
        var attempt := logs.records[f].attempt;
        var lease := Lease(cmd.recoveryId, cmd.workItemId, item.value.source.repository, cmd.workerId, cmd.verifiedAt,
                           Released, attempt);
        var record := Record(cmd.recoveryId, cmd.workItemId, attempt, cmd.workerId, cmd.verifiedAt, cmd.verifiedAt,
                             Some(cmd.verifiedAt), Succeeded,
                             "Timed-out Codex candidate recovered by fixed independent verification",
                             First10(cmd.evidence), Some(false), None, Some(cmd.baseHead), Some(cmd.candidateBranch),
                             Some(cmd.candidateHead));
        Ok(Effect(Some(moved.value), logs.(leases := logs.leases + [lease], records := logs.records + [record]),
                  Moved(moved.value)))
  }

  predicate SucceededFor(records: seq<Record>, executionId: string, itemId: string) {
    exists i :: 0 <= i < |records| && records[i].executionId == executionId && records[i].workItemId == itemId
      && records[i].status.Succeeded?
  }

  predicate AwaitsVerification(e: Exec) {
    e.workState.Verifying? && e.ballHolder.LCC? && e.nextAction.kind.Verify? && e.nextAction.aiExecutable
  }

  function DoAcquireVerification(item: Option<View>, logs: Logs, cmd: Command): Result<Effect>
    requires cmd.AcquireVerification?
  {
    if item.None? || !AwaitsVerification(item.value.exec)
       || !SucceededFor(logs.records, cmd.sourceId, item.value.id)
       || V.VHeldFor(logs.vleases, item.value.id, item.value.source.repository)
    then Ok(Effect(None, logs, Leased(false)))
    else
      var lease := V.VLease(cmd.verificationId, item.value.id, item.value.source.repository, cmd.workerId,
                            cmd.requestedAt, V.Held);
      var record := V.VRecord(cmd.verificationId, item.value.id, cmd.sourceId, item.value.source.repository,
                              cmd.workerId, cmd.requestedAt, None, None, V.Pending, cmd.criteria, [], [],
                              "Verification dispatched", []);
      Ok(Effect(None, logs.(vleases := logs.vleases + [lease], vrecords := logs.vrecords + [record]), Leased(true)))
  }

  /** The candidate head of a record's source execution; only pilot runs have one. */
  function PilotHead(records: seq<Record>, sourceId: string): Option<string> {
    var i := IndexOfRecord(records, sourceId);
    if i < |records| then records[i].candidateHead else None
  }

  /** A result for another head than the pilot's candidate counts as an infrastructure error. */
  function Effective(pilotHead: Option<string>, r: V.VResult): V.VResult {
    if NonEmpty(pilotHead) && r.verifiedHead != pilotHead
    then r.(status := V.Errored, summary := "Verified HEAD does not match pilot candidateHead") else r
  }

  /** A pilot that passes still waits for a human to approve its promotion. */
  function VerificationEvent(d: V.Decision, pilotHead: Option<string>): Event {
    if d.status.Passed? && NonEmpty(pilotHead)
    then HumanRequired("Pilot verification passed; promotion approval required")
    else if d.status.Passed? then VerificationPassed
    else if d.status.Failed? then VerificationFailed
    else HumanRequired(d.reason)
  }

  function VerdictText(v: V.Verdict): string {
    match v
    case Passed => "PASSED" case Failed => "FAILED" case HumanRequired => "HUMAN_REQUIRED" case Error => "ERROR"
    case Pending => "ACTIVE"
  }

  function Judged(record: V.VRecord, r: V.VResult, d: V.Decision): V.VRecord {
    record.(finishedAt := Some(r.finishedAt), verifiedHead := r.verifiedHead, checks := r.checks,
            evidence := r.evidence, status := d.status, criterionEvidence := d.evidence, summary := d.reason)
  }

  function DoCompleteVerification(item: Option<View>, logs: Logs, id: string, r: V.VResult): Result<Effect> {
    var l, k := V.IndexOfVHeld(logs.vleases, id), V.IndexOfVRecord(logs.vrecords, id);
    if l == |logs.vleases| || k == |logs.vrecords| then Err("Active verification lease not found")
    else
      var record := logs.vrecords[k];
      var pilotHead := PilotHead(logs.records, record.sourceExecutionId);
      var effective := Effective(pilotHead, r);
      var d := V.Decide(record.criteria, effective);
      var lease := logs.vleases[l].(status := if d.status.Error? then V.Abandoned else V.Released);
      var logs' := logs.(vleases := logs.vleases[l := lease],
                         vrecords := logs.vrecords[k := Judged(record, effective, d)]);
      if d.status.Error? then Ok(Effect(None, logs', Verified(None)))
      else if item.None? then Err("WorkItem not found for verification")
      else
        var moved := Transition(item.value.exec, VerificationEvent(d, pilotHead));
        if moved.Err? then Err(moved.error)
        else
          var line := "verification:" + id + ":" + VerdictText(d.status);
          var exec := moved.value.(evidence := moved.value.evidence + [line] + First10(effective.evidence));
          Ok(Effect(Some(exec), logs', Verified(Some(exec))))
  }

  function Act(cmd: Command, item: Option<View>, logs: Logs): Result<Effect> {
    match cmd
    case Transit(_, event) => DoTransit(item, logs, event)
    case Acquire(_, _, _, _, _, _) => DoAcquire(item, logs, cmd)
    case CompleteRun(executionId, result, event) => DoCompleteRun(item, logs, executionId, result, event)
    case RecoverCandidate(_, _, _, _, _, _, _, _, _) => DoRecover(item, logs, cmd)
    case AcquireVerification(_, _, _, _, _, _) => DoAcquireVerification(item, logs, cmd)
    case CompleteVerification(id, result) => DoCompleteVerification(item, logs, id, result)
  }

  datatype Performed = Performed(next: Snapshot, reply: Reply)

  /** A command on a snapshot: find its item, act on the item's view and the logs, write the item back. */
  function Perform(s: Snapshot, cmd: Command): Result<Performed> {
    var id := ItemOf(cmd, s.logs);
    if id.Err? then Err(id.error)
    else
      var effect := Act(cmd, FindView(s.repos, id.value), s.logs);
      if effect.Err? then Err(effect.error)
      else
        var e := effect.value;
        Ok(Performed(Snapshot(if e.exec.Some? then SetExec(s.repos, id.value, e.exec.value) else s.repos, e.logs),
                     e.reply))
  }

  // ------------------------------------------------------- synchronisation

  function NameIndex(repos: seq<Repo>, name: string): (r: nat)
    ensures r <= |repos|
    ensures r < |repos| ==> repos[r].name == name
    ensures forall k :: 0 <= k < r ==> repos[k].name != name
  {
    FirstIndex(repos, (x: Repo) => x.name == name)
  }

  function ItemsOf(repos: seq<Repo>, name: string): seq<WorkItem> {
    var r := NameIndex(repos, name);
    if r < |repos| then repos[r].items else []
  }

  predicate ItemValid(item: WorkItem, repository: string) {
    && item.id != "" && item.details.title != "" && item.details.sourceState != "" && item.details.sourceUrl != ""
    && item.details.sourceUpdatedAt != "" && item.source.provider != "" && item.source.externalId != ""
    && item.source.repository == repository
  }

  predicate BatchValid(batch: seq<WorkItem>, repository: string) {
    && (forall i :: 0 <= i < |batch| ==> ItemValid(batch[i], repository))
    && (forall i, k :: 0 <= i < k < |batch| ==> batch[i].source != batch[k].source)
  }

  /** The stored item of an external id; of several the last one, as in a Map built from the list. */
  function CurrentOf(items: seq<WorkItem>, externalId: string): Option<WorkItem> {
    if |items| == 0 then None
    else if items[|items|-1].source.externalId == externalId then Some(items[|items|-1])
    else CurrentOf(items[..|items|-1], externalId)
  }

  /** The source's fields with the execution fields of the stored item. */
  function MergeExecution(source: WorkItem, current: Option<WorkItem>): WorkItem {
    if current.Some? then source.(exec := current.value.exec) else source
  }

  function MergeAll(batch: seq<WorkItem>, current: seq<WorkItem>): (r: seq<WorkItem>)
    ensures |r| == |batch|
    ensures forall i :: 0 <= i < |r| ==>
              r[i] == MergeExecution(batch[i], CurrentOf(current, batch[i].source.externalId))
  {
    seq(|batch|, i requires 0 <= i < |batch| =>
      MergeExecution(batch[i], CurrentOf(current, batch[i].source.externalId)))
  }

  function SetRepo(repos: seq<Repo>, repo: Repo): seq<Repo> {
    var r := NameIndex(repos, repo.name);
    if r < |repos| then repos[r := repo] else repos + [repo]
  }

  function CommitSync(s: Snapshot, name: string, batch: seq<WorkItem>, metadata: Metadata): Result<Snapshot> {
    if Blank(name) then Err("empty repository name")
    else if !BatchValid(batch, name) then Err("invalid or duplicate WorkItem source reference")
    else Ok(s.(repos := SetRepo(s.repos, Repo(name, MergeAll(batch, ItemsOf(s.repos, name)), metadata))))
  }

  /** A failed synchronisation keeps the items and the time of the last success. */
  function RecordFailure(s: Snapshot, name: string, metadata: Metadata): Result<Snapshot> {
    if Blank(name) then Err("empty repository name")
    else
      var r := NameIndex(s.repos, name);
      if r < |s.repos| then
        var kept := metadata.(lastSuccessfulSyncAt := s.repos[r].metadata.lastSuccessfulSyncAt);
        Ok(s.(repos := s.repos[r := s.repos[r].(metadata := kept)]))
      else Ok(s.(repos := s.repos + [Repo(name, [], metadata)]))
  }

  // ------------------------------------------------------------- the class

  /** The repositories after the item at a place has its new execution fields, if it got any. */
  function WrittenBack(repos: seq<Repo>, r: nat, i: nat, exec: Option<Exec>): seq<Repo>
    requires exec.Some? ==> r < |repos| && i < |repos[r].items|
  {
    if exec.None? then repos
    else
      var item := repos[r].items[i].(exec := exec.value);
      repos[r := repos[r].(items := repos[r].items[i := item])]
  }

  class DurableWorkItemRepository {
    var snapshot: Snapshot

    constructor ()
      ensures snapshot == Snapshot([], Logs([], [], [], []))
    {
      snapshot := Snapshot([], Logs([], [], [], []));
    }

    /** The nested search of every operation: repository by repository, item by item. */
    method FindItemLocation(id: string) returns (found: bool, r: nat, i: nat)
      ensures found <==> RepoIndex(snapshot.repos, id) < |snapshot.repos|
      ensures found ==> r == RepoIndex(snapshot.repos, id) && i == ItemIndex(snapshot.repos[r].items, id)
    {
      var repos := snapshot.repos;
      found, r, i := false, 0, 0;
      while r < |repos|
        invariant 0 <= r <= |repos|
        invariant forall k :: 0 <= k < r ==> !Holds(repos[k], id)
      {
        i := ItemIndex(repos[r].items, id);
        if i < |repos[r].items| {
          assert Holds(repos[r], id);
          found := true;
          return;
        }
        r := r + 1;
      }
    }

    /** The end of an update: the item is written back in place, the logs are replaced, the snapshot published. */
    method PublishEffect(found: bool, r: nat, i: nat, e: Effect, written: bool) returns (ok: bool)
      requires found ==> r < |snapshot.repos| && i < |snapshot.repos[r].items|
      requires e.exec.Some? ==> found
      modifies this
      ensures ok == written
      ensures snapshot == if !written then old(snapshot)
                          else Snapshot(WrittenBack(old(snapshot).repos, r, i, e.exec), e.logs)
    {
      var repos := snapshot.repos;
      if e.exec.Some? {
        var items := repos[r].items;
        repos := repos[r := repos[r].(items := items[i := items[i].(exec := e.exec.value)])];
      }
      ok := written;
      if ok { snapshot := Snapshot(repos, e.logs); }
    }

    /** An update by command: all of its effect is published, or, if it throws or its write fails, nothing. */
    method Execute(cmd: Command, written: bool) returns (r: Result<Reply>)
      modifies this
      ensures var p := Perform(old(snapshot), cmd);
        && (r.Ok? <==> p.Ok? && written)
        && (r.Ok? ==> r.value == p.value.reply)
        && snapshot == if r.Ok? then p.value.next else old(snapshot)
    {
      var id := ItemOf(cmd, snapshot.logs);
      if id.Err? { return Err(id.error); }
      var found, ri, ii := FindItemLocation(id.value);
      var view := if found then Some(ViewOf(snapshot.repos[ri].items[ii])) else None;
      var effect := Act(cmd, view, snapshot.logs);
      if effect.Err? { return Err(effect.error); }
      if !found { MovesOnlyFound(cmd, view, snapshot.logs); }
      var ok := PublishEffect(found, ri, ii, effect.value, written);
      r := if ok then Ok(effect.value.reply) else Err("cannot write durable repository");
    }

    method Commit(name: string, batch: seq<WorkItem>, metadata: Metadata, written: bool) returns (ok: bool)
      modifies this
      ensures ok <==> CommitSync(old(snapshot), name, batch, metadata).Ok? && written
      ensures snapshot == if ok then CommitSync(old(snapshot), name, batch, metadata).value else old(snapshot)
    {
      if Blank(name) || !BatchValid(batch, name) { return false; }
      var current := ItemsOf(snapshot.repos, name);
      var merged: seq<WorkItem> := [];
      for k := 0 to |batch|
        invariant |merged| == k
        invariant forall i :: 0 <= i < k ==>
          merged[i] == MergeExecution(batch[i], CurrentOf(current, batch[i].source.externalId))
      {
        merged := merged + [MergeExecution(batch[k], CurrentOf(current, batch[k].source.externalId))];
      }
      assert merged == MergeAll(batch, current);
      ok := written;
      if ok { snapshot := snapshot.(repos := SetRepo(snapshot.repos, Repo(name, merged, metadata))); }
    }

    method Fail(name: string, metadata: Metadata, written: bool) returns (ok: bool)
      modifies this
      ensures ok <==> RecordFailure(old(snapshot), name, metadata).Ok? && written
      ensures snapshot == if ok then RecordFailure(old(snapshot), name, metadata).value else old(snapshot)
    {
      var next := RecordFailure(snapshot, name, metadata);
      ok := next.Ok? && written;
      if ok { snapshot := next.value; }
    }
  }

  /** A command never produces execution fields for an item it did not find. */
  lemma MovesOnlyFound(cmd: Command, item: Option<View>, logs: Logs)
    requires Act(cmd, item, logs).Ok? && item.None?
    ensures Act(cmd, item, logs).value.exec.None?
  {
    match cmd {
      case CompleteVerification(id, r) =>
      case _ =>
    }
  }
}
