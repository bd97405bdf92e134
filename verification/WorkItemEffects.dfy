/** What each update of the work item repository does, field by field. */
module WorkItemEffects {
  import opened Common
  import opened WorkStateMachine
  import opened Acceptance
  import opened Execution
  import opened WorkItemRepository
  import opened SyncCommutes
  import opened WorkItemRuns
  import opened WorkItemTheorems
  import V = Verification

  // ------------------------------------------------------------ what stays

  /** No item, list or metadata has changed but the execution fields of the first item with this id. */
  predicate OnlyExecOf(repos: seq<Repo>, repos': seq<Repo>, id: string, exec: Exec) {
    && Find(repos, id).Some? && Find(repos', id) == Some(Find(repos, id).value.(exec := exec))
    && |repos'| == |repos|
    && forall r :: 0 <= r < |repos| ==>
         && repos'[r].name == repos[r].name && repos'[r].metadata == repos[r].metadata
         && |repos'[r].items| == |repos[r].items|
         && forall i :: 0 <= i < |repos[r].items| ==>
              || repos'[r].items[i] == repos[r].items[i]
              || (repos[r].items[i].id == id && repos'[r].items[i] == repos[r].items[i].(exec := exec))
  }

  lemma {:induction false} SetIsOnlyExec(repos: seq<Repo>, id: string, exec: Exec)
    requires Placed(repos) && Find(repos, id).Some?
    ensures OnlyExecOf(repos, SetExec(repos, id, exec), id, exec)
  {
    FindAfterSet(repos, id, exec, id);
  }

  /** All leases but one are as before. */
  predicate OnlyLease(leases: seq<Lease>, leases': seq<Lease>, l: nat) {
    l < |leases| == |leases'| && forall i :: 0 <= i < |leases| && i != l ==> leases'[i] == leases[i]
  }

  predicate OnlyRecord(records: seq<Record>, records': seq<Record>, k: nat) {
    k < |records| == |records'| && forall i :: 0 <= i < |records| && i != k ==> records'[i] == records[i]
  }

  predicate OnlyVLease(leases: seq<V.VLease>, leases': seq<V.VLease>, l: nat) {
    l < |leases| == |leases'| && forall i :: 0 <= i < |leases| && i != l ==> leases'[i] == leases[i]
  }

  predicate OnlyVRecord(records: seq<V.VRecord>, records': seq<V.VRecord>, k: nat) {
    k < |records| == |records'| && forall i :: 0 <= i < |records| && i != k ==> records'[i] == records[i]
  }

  /** The first held lease of an execution. */
  predicate FirstHeld(leases: seq<Lease>, l: nat, executionId: string) {
    && l < |leases| && leases[l].executionId == executionId && leases[l].status.Held?
    && forall i :: 0 <= i < l ==> !(leases[i].executionId == executionId && leases[i].status.Held?)
  }

  predicate FirstRecord(records: seq<Record>, k: nat, executionId: string) {
    k < |records| && records[k].executionId == executionId
    && forall i :: 0 <= i < k ==> records[i].executionId != executionId
  }

  lemma {:induction false} FirstsAre(logs: Logs, l: nat, k: nat, executionId: string)
    requires FirstHeld(logs.leases, l, executionId) && FirstRecord(logs.records, k, executionId)
    ensures IndexOfHeld(logs.leases, executionId) == l && IndexOfRecord(logs.records, executionId) == k
  {
  }

  // --------------------------------------------------- the end of an execution

  /** A text that is reported and not empty replaces the recorded one. */
  predicate Updates(v: Option<string>, reported: Option<string>, was: Option<string>) {
    if reported.Some? && reported.value != "" then v == reported else v == was
  }

  /** A record has exactly what its worker answered. */
  predicate Answered(was: Record, v: Record, r: RunResult) {
    && v.executionId == was.executionId && v.workItemId == was.workItemId && v.attempt == was.attempt
    && v.workerId == was.workerId && v.requestedAt == was.requestedAt && v.startedAt == was.startedAt
    && v.finishedAt == Some(r.finishedAt) && v.status == r.status && v.summary == r.summary
    && v.evidence == r.evidence && v.retryable == Some(r.retryable)
    && Updates(v.finalAgentMessage, r.finalAgentMessage, was.finalAgentMessage)
    && Updates(v.baseHead, r.baseHead, was.baseHead)
    && Updates(v.candidateBranch, r.candidateBranch, was.candidateBranch)
    && Updates(v.candidateHead, r.candidateHead, was.candidateHead)
  }

  /** Completing an execution records exactly the answer, ends the lease (ABANDONED if and only if the worker was
      lost), and moves the item by the event; nothing else changes. */
  lemma {:induction false} CompletedRunIsExact(s: Snapshot, cmd: Command, l: nat, k: nat)
    requires Placed(s.repos) && cmd.CompleteRun? && Perform(s, cmd).Ok?
    requires FirstHeld(s.logs.leases, l, cmd.executionId) && FirstRecord(s.logs.records, k, cmd.executionId)
    ensures
      var s', r, id := Perform(s, cmd).value.next, cmd.result, s.logs.leases[l].workItemId;
      && OnlyLease(s.logs.leases, s'.logs.leases, l) && OnlyRecord(s.logs.records, s'.logs.records, k)
      && s'.logs.vleases == s.logs.vleases && s'.logs.vrecords == s.logs.vrecords
      && s'.logs.leases[l] == s.logs.leases[l].(status := if r.status.WorkerLost? then Abandoned else Released)
      && Answered(s.logs.records[k], s'.logs.records[k], r)
      && Find(s.repos, id).Some? && Transition(Find(s.repos, id).value.exec, cmd.event).Ok?
      && OnlyExecOf(s.repos, s'.repos, id, Transition(Find(s.repos, id).value.exec, cmd.event).value)
      && Perform(s, cmd).value.reply == Moved(Transition(Find(s.repos, id).value.exec, cmd.event).value)
  {
    FirstsAre(s.logs, l, k, cmd.executionId);
    var id := s.logs.leases[l].workItemId;
    SetIsOnlyExec(s.repos, id, Transition(Find(s.repos, id).value.exec, cmd.event).value);
  }

  /** Where the answer of a worker takes a RUNNING item. */
  predicate AnswerMoves(e: Exec, r: RunResult) {
    && (r.status.Succeeded? ==>
          e.workState.Verifying? && e.ballHolder.LCC? && e.nextAction.kind.Verify? && e.nextAction.aiExecutable)
    && (r.status.WorkerLost? ==> e.workState.WaitingWorker? && e.ballHolder.LCC? && e.nextAction.kind.WaitWorker?)
    && (!r.status.Succeeded? && !r.status.WorkerLost? ==>
          && e.workState.Failed? && e.ballHolder.LCC? && e.nextAction.kind.Investigate?
          && e.transitionReason == Accepted(if r.retryable then RetryableFailure else TerminalFailure, Running))
  }

  lemma {:induction false} AnswerTransits(e: Exec, r: RunResult)
    requires e.workState.Running?
    ensures Transition(e, RunEvent(r)).Ok? && AnswerMoves(Transition(e, RunEvent(r)).value, r)
  {
    DecisionsAreAllowed(e, RunEvent(r));
  }

  /** Whatever the worker of a RUNNING item answers is accepted: a success goes on to verification, a lost worker is
      waited for, and any other answer is a failure, retryable if the worker said so. */
  lemma {:induction false} AnswersMoveItems(s: Snapshot, executionId: string, r: RunResult, l: nat, k: nat)
    requires Placed(s.repos) && FirstHeld(s.logs.leases, l, executionId) && FirstRecord(s.logs.records, k, executionId)
    requires var item := Find(s.repos, s.logs.leases[l].workItemId); item.Some? && item.value.exec.workState.Running?
    ensures
      var id, cmd := s.logs.leases[l].workItemId, CompleteRun(executionId, r, RunEvent(r));
      && Perform(s, cmd).Ok? && Find(Perform(s, cmd).value.next.repos, id).Some?
      && AnswerMoves(Find(Perform(s, cmd).value.next.repos, id).value.exec, r)
  {
    FirstsAre(s.logs, l, k, executionId);
    RunAccepted(s, executionId, r);
    AnswerTransits(Find(s.repos, s.logs.leases[l].workItemId).value.exec, r);
    CompletedRunIsExact(s, CompleteRun(executionId, r, RunEvent(r)), l, k);
  }

  /** A record between two moments of a run, once it has a candidate head for good. */
  lemma {:induction false} CandidateStays(trace: seq<Snapshot>, m: nat, n: nat, k: nat)
    requires Run(trace) && m <= n < |trace| && k < |trace[m].logs.records|
    requires !trace[m].logs.records[k].status.InProgress? && NonEmpty(trace[m].logs.records[k].candidateHead)
    ensures k < |trace[n].logs.records| && trace[n].logs.records[k] == trace[m].logs.records[k]
    ensures forall i :: 0 <= i < |trace[n].logs.records| && i != k ==>
              trace[n].logs.records[i].executionId != trace[m].logs.records[k].executionId
  {
    FinishedRecordsAreFinal(trace, m, n);
    LogsStayInStep(trace, n);
    var records, leases := trace[n].logs.records, trace[n].logs.leases;
    forall i | 0 <= i < |records| && i != k ensures records[i].executionId != records[k].executionId {
      assert Matched(leases[i], records[i]) && Matched(leases[k], records[k]);
    }
  }

  lemma {:induction false} SourceIsNot(logs: Logs, record: V.VRecord, id: string, k: nat)
    requires Evidence(record, logs.records, id) && k < |logs.records| && NonEmpty(logs.records[k].candidateHead)
    requires forall i :: 0 <= i < |logs.records| && i != k ==>
               logs.records[i].executionId != logs.records[k].executionId
    ensures record.sourceExecutionId != logs.records[k].executionId
  {
  }

  lemma {:induction false} CandidateIsNoSource(
    trace: seq<Snapshot>, m: nat, n: nat, k: nat, record: V.VRecord, id: string)
    requires Run(trace) && m <= n < |trace| && k < |trace[m].logs.records|
    requires !trace[m].logs.records[k].status.InProgress? && NonEmpty(trace[m].logs.records[k].candidateHead)
    requires Evidence(record, trace[n].logs.records, id)
    ensures record.sourceExecutionId != trace[m].logs.records[k].executionId
  {
    CandidateStays(trace, m, n, k);
    SourceIsNot(trace[n].logs, record, id, k);
  }

  /** A completion that reports a candidate head records it. */
  lemma {:induction false} HeadIsRecorded(s: Snapshot, s': Snapshot, cmd: Command) returns (k: nat)
    requires Recorded(s) && CommandStep(s, s', cmd) && cmd.CompleteRun? && NonEmpty(cmd.result.candidateHead)
    ensures k < |s'.logs.records| && s'.logs.records[k].executionId == cmd.executionId
    ensures !s'.logs.records[k].status.InProgress? && NonEmpty(s'.logs.records[k].candidateHead)
  {
    k := IndexOfHeld(s.logs.leases, cmd.executionId);
    LeaseIs(s.logs.leases, s.logs.records, cmd.executionId);
    CompletedRunIsExact(s, cmd, k, k);
  }

  /** Step m of a run is the completion of an execution that reports a candidate head. */
  ghost predicate ReportsCandidate(trace: seq<Snapshot>, m: nat, cmd: Command) {
    && m + 1 < |trace| && CommandStep(trace[m], trace[m+1], cmd) && cmd.CompleteRun?
    && cmd.result.candidateHead.Some? && cmd.result.candidateHead != Some("")
  }

  /** In every run: an execution that was completed with a candidate head never becomes the source of the evidence
      behind a DONE item. */
  lemma {:induction false} CandidatesNeverLeadToDone(
    trace: seq<Snapshot>, m: nat, n: nat, cmd: Command, record: V.VRecord, id: string)
    requires Run(trace) && m < n < |trace| && ReportsCandidate(trace, m, cmd)
    requires Evidence(record, trace[n].logs.records, id)
    ensures record.sourceExecutionId != cmd.executionId
  {
    var k := HeadIsStored(trace, m, cmd);
    CandidateIsNoSource(trace, m + 1, n, k, record, id);
  }

  lemma {:induction false} HeadIsStored(trace: seq<Snapshot>, m: nat, cmd: Command) returns (k: nat)
    requires Run(trace) && ReportsCandidate(trace, m, cmd)
    ensures k < |trace[m+1].logs.records| && trace[m+1].logs.records[k].executionId == cmd.executionId
    ensures !trace[m+1].logs.records[k].status.InProgress? && NonEmpty(trace[m+1].logs.records[k].candidateHead)
  {
    RunKeepsRecorded(trace, m);
    k := HeadIsRecorded(trace[m], trace[m+1], cmd);
  }

  // ------------------------------------------------- the end of a verification

  /** The evidence recorded for a criterion. */
  predicate EvidenceFor(c: Criterion, e: V.CriterionEvidence, checks: seq<V.CheckResult>) {
    && e.criterionId == c.id && (e.status.AwaitingHuman? <==> c.human)
    && e.checkIds == (if c.human then [] else c.checkIds)
    && (e.status.Fulfilled? <==>
          !c.human && forall i :: 0 <= i < |c.checkIds| ==> V.LastPassed(checks, c.checkIds[i]))
  }

  /** The verdict on an answer: ERROR without infrastructure or about another head than the candidate's; otherwise
      PASSED only for a passed run with all criteria automatic and met, HUMAN_REQUIRED with all automatic ones met. */
  predicate VerdictIs(
    verdict: V.Verdict, criteria: seq<Criterion>, pilotHead: Option<string>, r: V.VResult)
  {
    var usable := (r.status.AllPassed? || r.status.SomeFailed?)
                  && (pilotHead.None? || pilotHead == Some("") || r.verifiedHead == pilotHead);
    var met := forall i, k :: 0 <= i < |criteria| && !criteria[i].human && 0 <= k < |criteria[i].checkIds| ==>
                 V.LastPassed(r.checks, criteria[i].checkIds[k]);
    var automatic := forall i :: 0 <= i < |criteria| ==> !criteria[i].human;
    && (verdict.Error? <==> !usable)
    && (verdict.Passed? <==> usable && r.status.AllPassed? && met && automatic)
    && (verdict.HumanRequired? <==> usable && r.status.AllPassed? && met && !automatic)
    && (verdict.Failed? <==> usable && !(r.status.AllPassed? && met))
  }

  lemma {:induction false} DecidedIs(criteria: seq<Criterion>, pilotHead: Option<string>, r: V.VResult)
    ensures VerdictIs(V.Decide(criteria, Effective(pilotHead, r)).status, criteria, pilotHead, r)
  {
    V.DecisionIsExact(criteria, Effective(pilotHead, r));
  }

  /** A verification record has exactly what was answered and decided. */
  predicate JudgedAs(was: V.VRecord, v: V.VRecord, r: V.VResult) {
    && v.verificationId == was.verificationId && v.workItemId == was.workItemId
    && v.sourceExecutionId == was.sourceExecutionId && v.repository == was.repository && v.workerId == was.workerId
    && v.requestedAt == was.requestedAt && v.criteria == was.criteria
    && v.finishedAt == Some(r.finishedAt) && v.verifiedHead == r.verifiedHead && v.checks == r.checks
    && v.evidence == r.evidence
    && (v.status.Passed? ==> v.summary == "All AUTO criteria have PASSED evidence")
    && (v.status.HumanRequired? ==>
          v.summary == "Human criteria remain: " + V.Commas(V.IdsWith(v.criterionEvidence, V.AwaitingHuman)))
    && (v.status.Failed? ==>
          var unmet := V.IdsWith(v.criterionEvidence, V.Unfulfilled);
          v.summary == if unmet == [] then "Worker reported verification failure"
                       else "Failed AUTO criteria: " + V.Commas(unmet))
    && (v.status.Error? ==> v.summary == "Verification infrastructure unavailable")
    && (v.status.Error? ==> v.criterionEvidence == [])
    && (!v.status.Error? ==>
          && |v.criterionEvidence| == |was.criteria|
          && forall i :: 0 <= i < |was.criteria| ==> EvidenceFor(was.criteria[i], v.criterionEvidence[i], r.checks))
  }

  lemma {:induction false} ReasonIs(criteria: seq<Criterion>, r: V.VResult)
    ensures
      var d := V.Decide(criteria, r);
      && (d.status.Passed? ==> d.reason == "All AUTO criteria have PASSED evidence")
      && (d.status.HumanRequired? ==>
            d.reason == "Human criteria remain: " + V.Commas(V.IdsWith(d.evidence, V.AwaitingHuman)))
      && (d.status.Failed? ==>
            d.reason == if V.IdsWith(d.evidence, V.Unfulfilled) == [] then "Worker reported verification failure"
                        else "Failed AUTO criteria: " + V.Commas(V.IdsWith(d.evidence, V.Unfulfilled)))
      && (d.status.Error? ==> d.reason == "Verification infrastructure unavailable" && d.evidence == [])
      && (!d.status.Error? ==> d.evidence == V.FulfilAll(criteria, r.checks))
  {
    NamedIfAny(V.FulfilAll(criteria, r.checks), V.Unfulfilled);
  }

  lemma {:induction false} NamedIfAny(evidence: seq<V.CriterionEvidence>, status: V.Fulfilment)
    ensures V.AnyWith(evidence, status) <==> V.IdsWith(evidence, status) != []
  {
    if |evidence| > 0 {
      NamedIfAny(evidence[1..], status);
      if V.AnyWith(evidence[1..], status) {
        var i :| 0 <= i < |evidence| - 1 && evidence[1..][i].status == status;
        assert evidence[i+1].status == status;
      }
      if V.AnyWith(evidence, status) && evidence[0].status != status {
        var i :| 0 <= i < |evidence| && evidence[i].status == status;
        assert evidence[1..][i-1].status == status;
      }
    }
  }

  /** A list of ids names one if and only if a criterion with the status has it. */
  lemma {:induction false} NamedExactly(evidence: seq<V.CriterionEvidence>, status: V.Fulfilment, id: string)
    ensures id in V.IdsWith(evidence, status) <==>
              exists i :: 0 <= i < |evidence| && evidence[i].status == status && evidence[i].criterionId == id
  {
    if |evidence| > 0 {
      NamedExactly(evidence[1..], status, id);
      if id in V.IdsWith(evidence[1..], status) {
        var i :| 0 <= i < |evidence| - 1 && evidence[1..][i].status == status && evidence[1..][i].criterionId == id;
        assert evidence[i+1].status == status && evidence[i+1].criterionId == id;
      }
      if i :| 0 <= i < |evidence| && evidence[i].status == status && evidence[i].criterionId == id {
        if i > 0 { assert evidence[1..][i-1] == evidence[i]; }
      }
    }
  }

  lemma {:induction false} JudgedIs(was: V.VRecord, pilotHead: Option<string>, r: V.VResult)
    ensures
      var effective := Effective(pilotHead, r);
      var d := V.Decide(was.criteria, effective);
      JudgedAs(was, Judged(was, effective, d), r) && Judged(was, effective, d).status == d.status
  {
    ReasonIs(was.criteria, Effective(pilotHead, r));
    var m := V.FulfilAll(was.criteria, r.checks);
    forall i | 0 <= i < |was.criteria| ensures EvidenceFor(was.criteria[i], m[i], r.checks) {
      assert m[i] == V.Fulfil(was.criteria[i], r.checks);
    }
  }

  /** The lines a verification leaves on its item. */
  function VerdictName(v: V.Verdict): string {
    if v.Passed? then "PASSED" else if v.Failed? then "FAILED"
    else if v.HumanRequired? then "HUMAN_REQUIRED" else "ERROR"
  }

  function AtMostTen(s: seq<string>): seq<string> { s[..Min(|s|, 10)] }

  /** Where a verdict takes a VERIFYING item, with the verification's lines. */
  predicate MovedBy(e: Exec, e': Exec, id: string, v: V.VRecord, pilot: bool, r: V.VResult) {
    var verdict := v.status;
    && e'.evidence == e.evidence + ["verification:" + id + ":" + VerdictName(verdict)] + AtMostTen(r.evidence)
    && (verdict.Passed? && !pilot ==> e'.workState.Done? && e'.ballHolder.NOBODY?)
    && (verdict.Passed? && pilot ==>
          && e'.workState.WaitingHuman? && e'.ballHolder.HUMAN?
          && e'.nextAction.summary == "Pilot verification passed; promotion approval required")
    && (verdict.HumanRequired? ==>
          e'.workState.WaitingHuman? && e'.ballHolder.HUMAN? && e'.nextAction.summary == v.summary)
    && (verdict.Failed? ==> e'.workState.Running? && e'.ballHolder.CODEX? && e'.nextAction.kind.Execute?)
  }

  /** What a completed verification leaves in the logs. */
  predicate VerificationLogged(logs: Logs, logs': Logs, l: nat, k: nat, r: V.VResult) {
    && OnlyVLease(logs.vleases, logs'.vleases, l) && OnlyVRecord(logs.vrecords, logs'.vrecords, k)
    && logs'.leases == logs.leases && logs'.records == logs.records
    && JudgedAs(logs.vrecords[k], logs'.vrecords[k], r)
    && VerdictIs(logs'.vrecords[k].status, logs.vrecords[k].criteria,
                 PilotHead(logs.records, logs.vrecords[k].sourceExecutionId), r)
    && logs'.vleases[l] ==
       logs.vleases[l].(status := if logs'.vrecords[k].status.Error? then V.Abandoned else V.Released)
  }

  lemma {:induction false} VerificationIsLogged(cmd: Command, item: Option<View>, logs: Logs, l: nat, k: nat)
    requires cmd.CompleteVerification? && Act(cmd, item, logs).Ok?
    requires l == V.IndexOfVHeld(logs.vleases, cmd.verificationId)
    requires k == V.IndexOfVRecord(logs.vrecords, cmd.verificationId)
    ensures VerificationLogged(logs, Act(cmd, item, logs).value.logs, l, k, cmd.vresult)
  {
    var record := logs.vrecords[k];
    var pilotHead := PilotHead(logs.records, record.sourceExecutionId);
    VerdictShape(cmd, item, logs);
    LeaseAfterVerdict(cmd, item, logs, l, k);
    JudgedIs(record, pilotHead, cmd.vresult);
    DecidedIs(record.criteria, pilotHead, cmd.vresult);
  }

  /** Completing a verification records the answer and the verdict, ends the lease (ABANDONED if and only if the
      verdict is ERROR), and unless it is, moves the item and adds its lines; nothing else changes. */
  lemma {:induction false} CompletedVerificationIsExact(s: Snapshot, cmd: Command, l: nat, k: nat)
    requires Placed(s.repos) && cmd.CompleteVerification? && Perform(s, cmd).Ok?
    requires l == V.IndexOfVHeld(s.logs.vleases, cmd.verificationId)
    requires k == V.IndexOfVRecord(s.logs.vrecords, cmd.verificationId)
    ensures VerificationLogged(s.logs, Perform(s, cmd).value.next.logs, l, k, cmd.vresult)
    ensures
      var s', id := Perform(s, cmd).value.next, s.logs.vrecords[k].workItemId;
      var pilotHead := PilotHead(s.logs.records, s.logs.vrecords[k].sourceExecutionId);
      if s'.logs.vrecords[k].status.Error? then s'.repos == s.repos && Perform(s, cmd).value.reply == Verified(None)
      else
        && Find(s.repos, id).Some? && Find(s'.repos, id).Some?
        && var e := Find(s'.repos, id).value.exec;
           && OnlyExecOf(s.repos, s'.repos, id, e) && Perform(s, cmd).value.reply == Verified(Some(e))
           && MovedBy(Find(s.repos, id).value.exec, e, cmd.verificationId, s'.logs.vrecords[k],
                      pilotHead.Some? && pilotHead != Some(""), cmd.vresult)
  {
    var record := s.logs.vrecords[k];
    var item := FindView(s.repos, record.workItemId);
    VerificationIsLogged(cmd, item, s.logs, l, k);
    VerdictShape(cmd, item, s.logs);
    LeaseAfterVerdict(cmd, item, s.logs, l, k);
    var pilotHead := PilotHead(s.logs.records, record.sourceExecutionId);
    JudgedIs(record, pilotHead, cmd.vresult);
    if !V.Decide(record.criteria, Effective(pilotHead, cmd.vresult)).status.Error? {
      VerdictMovesExactly(cmd, item, s.logs, k);
      SetIsOnlyExec(s.repos, record.workItemId, Act(cmd, item, s.logs).value.exec.value);
    }
  }

  lemma {:induction false} LeaseAfterVerdict(cmd: Command, item: Option<View>, logs: Logs, l: nat, k: nat)
    requires cmd.CompleteVerification? && Act(cmd, item, logs).Ok?
    requires l == V.IndexOfVHeld(logs.vleases, cmd.verificationId) < |logs.vleases|
    requires k == V.IndexOfVRecord(logs.vrecords, cmd.verificationId) < |logs.vrecords|
    ensures
      var logs' := Act(cmd, item, logs).value.logs;
      && |logs'.vleases| == |logs.vleases| && |logs'.vrecords| == |logs.vrecords|
      && (logs'.vleases[l].status.Abandoned? <==> logs'.vrecords[k].status.Error?)
      && (logs'.vleases[l].status.Released? <==> !logs'.vrecords[k].status.Error?)
      && (logs'.vrecords[k].status.Error? ==>
            Act(cmd, item, logs).value.exec.None? && Act(cmd, item, logs).value.reply == Verified(None))
  {
  }

  /** The event of a verdict moves an item, and what the item then says. */
  lemma {:induction false} VerdictTransits(e: Exec, d: V.Decision, pilotHead: Option<string>)
    requires !d.status.Error? && !d.status.Pending? && Transition(e, VerificationEvent(d, pilotHead)).Ok?
    ensures
      var e' := Transition(e, VerificationEvent(d, pilotHead)).value;
      && e'.evidence == e.evidence
      && (d.status.Passed? && !NonEmpty(pilotHead) ==> e'.workState.Done? && e'.ballHolder.NOBODY?)
      && (d.status.Passed? && NonEmpty(pilotHead) ==>
            && e'.workState.WaitingHuman? && e'.ballHolder.HUMAN?
            && e'.nextAction.summary == "Pilot verification passed; promotion approval required")
      && (d.status.HumanRequired? ==>
            e'.workState.WaitingHuman? && e'.ballHolder.HUMAN? && e'.nextAction.summary == d.reason)
      && (d.status.Failed? ==> e'.workState.Running? && e'.ballHolder.CODEX? && e'.nextAction.kind.Execute?)
  {
    DecisionsAreAllowed(e, VerificationEvent(d, pilotHead));
  }

  lemma {:induction false} JudgedItem(cmd: Command, item: Option<View>, logs: Logs, k: nat, d: V.Decision)
    requires cmd.CompleteVerification? && Act(cmd, item, logs).Ok?
    requires k == V.IndexOfVRecord(logs.vrecords, cmd.verificationId) < |logs.vrecords|
    requires
      var pilotHead := PilotHead(logs.records, logs.vrecords[k].sourceExecutionId);
      d == V.Decide(logs.vrecords[k].criteria, Effective(pilotHead, cmd.vresult)) && !d.status.Error?
    requires !d.status.Pending?
    ensures
      var pilotHead := PilotHead(logs.records, logs.vrecords[k].sourceExecutionId);
      var e := Act(cmd, item, logs).value;
      && item.Some? && e.exec.Some? && e.reply == Verified(e.exec)
      && Transition(item.value.exec, VerificationEvent(d, pilotHead)).Ok?
      && var moved := Transition(item.value.exec, VerificationEvent(d, pilotHead)).value;
         e.exec.value == moved.(evidence :=
           moved.evidence + ["verification:" + cmd.verificationId + ":" + VerdictName(d.status)]
           + AtMostTen(cmd.vresult.evidence))
  {
  }

  lemma {:induction false} VerdictMovesExactly(cmd: Command, item: Option<View>, logs: Logs, k: nat)
    requires cmd.CompleteVerification? && Act(cmd, item, logs).Ok?
    requires k == V.IndexOfVRecord(logs.vrecords, cmd.verificationId) < |logs.vrecords|
    requires
      var pilotHead := PilotHead(logs.records, logs.vrecords[k].sourceExecutionId);
      !V.Decide(logs.vrecords[k].criteria, Effective(pilotHead, cmd.vresult)).status.Error?
    ensures
      var pilotHead := PilotHead(logs.records, logs.vrecords[k].sourceExecutionId);
      var effective := Effective(pilotHead, cmd.vresult);
      var judged := Judged(logs.vrecords[k], effective, V.Decide(logs.vrecords[k].criteria, effective));
      var e := Act(cmd, item, logs).value;
      && item.Some? && e.exec.Some? && e.reply == Verified(e.exec)
      && MovedBy(item.value.exec, e.exec.value, cmd.verificationId, judged, NonEmpty(pilotHead), cmd.vresult)
  {
    var pilotHead := PilotHead(logs.records, logs.vrecords[k].sourceExecutionId);
    var d := V.Decide(logs.vrecords[k].criteria, Effective(pilotHead, cmd.vresult));
    DecidedIs(logs.vrecords[k].criteria, pilotHead, cmd.vresult);
    JudgedItem(cmd, item, logs, k, d);
    VerdictTransits(item.value.exec, d, pilotHead);
  }

  // ------------------------------------------------------------ beginnings

  /** The positions of the leases of an item. */
  function LeasesOf(leases: seq<Lease>, id: string): set<nat> {
    set i: nat | i < |leases| && leases[i].workItemId == id
  }

  lemma {:induction false} OneMoreLease(leases: seq<Lease>, id: string)
    requires |leases| > 0
    ensures |LeasesOf(leases, id)| ==
            |LeasesOf(leases[..|leases|-1], id)| + if leases[|leases|-1].workItemId == id then 1 else 0
  {
    var n := |leases| - 1;
    var before := LeasesOf(leases[..n], id);
    assert n !in before;
    assert LeasesOf(leases, id) == before + if leases[n].workItemId == id then {n} else {};
  }

  /** How many executions an item has been leased for. */
  lemma {:induction false} AttemptsCount(leases: seq<Lease>, id: string)
    ensures Attempts(leases, id) == |LeasesOf(leases, id)|
    decreases |leases|
  {
    if |leases| == 0 {
      assert LeasesOf(leases, id) == {};
    } else {
      AttemptsCount(leases[..|leases|-1], id);
      OneMoreLease(leases, id);
    }
  }

  /** An acquisition is answered by the gate. If it is eligible, a held lease and an open record are added, with the
      number of the attempt, and the item is RUNNING; otherwise nothing changes. */
  lemma {:induction false} AcquisitionIsExact(s: Snapshot, cmd: Command)
    requires Placed(s.repos) && cmd.Acquire?
    ensures Perform(s, cmd).Ok? && Perform(s, cmd).value.reply.Gated?
    ensures
      var item, reply := Find(s.repos, cmd.workItemId), Perform(s, cmd).value.reply;
      && (item.None? ==> reply.gate == Rejected("WorkItem not found"))
      && (item.Some? ==> reply.gate == EvaluateGate(ViewOf(item.value), Some(cmd.target), Some(cmd.worker),
                                                    s.logs.leases, cmd.shuttingDown))
      && (!reply.gate.Eligible? ==>
            Perform(s, cmd).value.next == s && reply.attempt.None? && reply.moved.None?)
    ensures Perform(s, cmd).value.reply.gate.Eligible? ==>
              && Find(s.repos, cmd.workItemId).Some?
              && Acquired(s, Perform(s, cmd).value.next, cmd, Find(s.repos, cmd.workItemId).value,
                          Perform(s, cmd).value.reply)
  {
    var item := Find(s.repos, cmd.workItemId);
    if item.Some? {
      AttemptsCount(s.logs.leases, item.value.id);
      DecisionsAreAllowed(item.value.exec, ExecutionStarted);
      GateIsExact(ViewOf(item.value), Some(cmd.target), Some(cmd.worker), s.logs.leases, cmd.shuttingDown);
      if Perform(s, cmd).value.reply.gate.Eligible? {
        SetIsOnlyExec(s.repos, cmd.workItemId, Transition(item.value.exec, ExecutionStarted).value);
      }
    }
  }

  predicate Acquired(s: Snapshot, s': Snapshot, cmd: Command, item: WorkItem, reply: Reply)
    requires cmd.Acquire? && reply.Gated?
  {
    var n := |s.logs.leases|;
    && s'.logs.vleases == s.logs.vleases && s'.logs.vrecords == s.logs.vrecords
    && |s'.logs.leases| == n + 1 && s'.logs.leases[..n] == s.logs.leases
    && |s'.logs.records| == |s.logs.records| + 1 && s'.logs.records[..|s.logs.records|] == s.logs.records
    && var lease, record := s'.logs.leases[n], s'.logs.records[|s.logs.records|];
       && lease.executionId == record.executionId == cmd.executionId
       && lease.workItemId == record.workItemId == item.id && lease.repository == item.source.repository
       && lease.workerId == record.workerId == cmd.worker.workerId && lease.status.Held? && record.status.InProgress?
       && lease.acquiredAt == record.requestedAt == record.startedAt == cmd.requestedAt
       && lease.attempt == record.attempt == 1 + |LeasesOf(s.logs.leases, item.id)|
       && record.finishedAt.None? && record.retryable.None? && record.candidateHead.None? && record.baseHead.None?
       && record.candidateBranch.None? && record.finalAgentMessage.None? && record.evidence == []
       && record.summary == "Execution dispatched"
       && reply.attempt == Some(lease.attempt) && reply.moved.Some?
       && reply.moved.value.workState.Running? && reply.moved.value.ballHolder == item.exec.ballHolder
       && OnlyExecOf(s.repos, s'.repos, cmd.workItemId, reply.moved.value)
  }

  /** A verification is acquired if and only if its item waits for it, its source is a successful execution of the
      item, and no other verification is held for the item or its repository; then a held lease and an open record are
      added, and otherwise nothing changes. */
  lemma {:induction false} VerificationAcquisitionIsExact(s: Snapshot, cmd: Command)
    requires cmd.AcquireVerification?
    ensures Perform(s, cmd).Ok? && Perform(s, cmd).value.reply.Leased?
    ensures
      var item, s' := Find(s.repos, cmd.workItemId), Perform(s, cmd).value.next;
      && (Perform(s, cmd).value.reply.acquired <==>
            && item.Some? && item.value.exec.workState.Verifying? && item.value.exec.ballHolder.LCC?
            && item.value.exec.nextAction.kind.Verify? && item.value.exec.nextAction.aiExecutable
            && (exists i :: 0 <= i < |s.logs.records| && s.logs.records[i].executionId == cmd.sourceId
                  && s.logs.records[i].workItemId == cmd.workItemId && s.logs.records[i].status.Succeeded?)
            && !exists i :: 0 <= i < |s.logs.vleases| && s.logs.vleases[i].status.Held?
                  && (s.logs.vleases[i].workItemId == cmd.workItemId
                      || s.logs.vleases[i].repository == item.value.source.repository))
      && (!Perform(s, cmd).value.reply.acquired ==> s' == s)
      && (Perform(s, cmd).value.reply.acquired ==> item.Some? && VerificationAcquired(s, s', cmd, item.value))
  {
  }

  predicate VerificationAcquired(s: Snapshot, s': Snapshot, cmd: Command, item: WorkItem)
    requires cmd.AcquireVerification?
  {
    var n := |s.logs.vleases|;
    && s'.repos == s.repos && s'.logs.leases == s.logs.leases && s'.logs.records == s.logs.records
    && |s'.logs.vleases| == n + 1 && s'.logs.vleases[..n] == s.logs.vleases
    && |s'.logs.vrecords| == |s.logs.vrecords| + 1 && s'.logs.vrecords[..|s.logs.vrecords|] == s.logs.vrecords
    && var lease, record := s'.logs.vleases[n], s'.logs.vrecords[|s.logs.vrecords|];
       && lease.verificationId == record.verificationId == cmd.verificationId
       && lease.workItemId == record.workItemId == item.id
       && lease.repository == record.repository == item.source.repository
       && lease.workerId == record.workerId == cmd.workerId
       && lease.acquiredAt == record.requestedAt == cmd.requestedAt && lease.status.Held? && record.status.Pending?
       && record.sourceExecutionId == cmd.sourceId && record.criteria == cmd.criteria && record.finishedAt.None?
       && record.verifiedHead.None? && record.checks == [] && record.criterionEvidence == [] && record.evidence == []
       && record.summary == "Verification dispatched"
  }

  // ------------------------------------------------------------ other commands

  /** A transition moves its item by the event, and nothing else. */
  lemma {:induction false} TransitIsExact(s: Snapshot, cmd: Command)
    requires Placed(s.repos) && cmd.Transit?
    ensures
      var item := Find(s.repos, cmd.id);
      && (Perform(s, cmd).Ok? <==> item.Some? && Transition(item.value.exec, cmd.event).Ok?)
      && (Perform(s, cmd).Ok? ==>
            && Perform(s, cmd).value.next.logs == s.logs
            && Perform(s, cmd).value.reply == Moved(Transition(item.value.exec, cmd.event).value)
            && OnlyExecOf(s.repos, Perform(s, cmd).value.next.repos, cmd.id,
                          Transition(item.value.exec, cmd.event).value))
  {
    var item := Find(s.repos, cmd.id);
    if Perform(s, cmd).Ok? { SetIsOnlyExec(s.repos, cmd.id, Transition(item.value.exec, cmd.event).value); }
  }

  predicate Hex40(s: string) {
    |s| == 40 && forall i :: 0 <= i < 40 ==> '0' <= s[i] <= '9' || 'a' <= s[i] <= 'f' || 'A' <= s[i] <= 'F'
  }

  /** When the recovery of a verified candidate is accepted. */
  predicate Recoverable(s: Snapshot, cmd: Command, f: nat)
    requires cmd.RecoverCandidate?
  {
    var item := Find(s.repos, cmd.workItemId);
    && f < |s.logs.records| && s.logs.records[f].status.TimedOut?
    && (forall i :: 0 <= i < |s.logs.records| ==> s.logs.records[i].executionId != cmd.recoveryId)
    && item.Some? && item.value.exec.workState.Failed?
    && Hex40(cmd.baseHead) && Hex40(cmd.candidateHead) && cmd.baseHead != cmd.candidateHead
    && cmd.candidateBranch ==
       "lcc/pilot/" + item.value.source.externalId + "-" + cmd.failedId[..Min(|cmd.failedId|, 8)]
  }

  /** A recovery is accepted if and only if the named execution of the item timed out, the item is FAILED, the
      recovery is new, and its heads and branch are well-formed. It adds a released lease and a successful record with
      the candidate, for the attempt that timed out, and the item waits for verification with one more line. */
  lemma {:induction false} RecoveryIsExact(s: Snapshot, cmd: Command, f: nat)
    requires Placed(s.repos) && cmd.RecoverCandidate?
    requires f == IndexOfRun(s.logs.records, cmd.failedId, cmd.workItemId)
    ensures Perform(s, cmd).Ok? <==> Recoverable(s, cmd, f)
    ensures Perform(s, cmd).Ok? ==>
              f < |s.logs.records| && Find(s.repos, cmd.workItemId).Some?
              && CandidateRecovered(s, Perform(s, cmd).value.next, cmd, Find(s.repos, cmd.workItemId).value,
                                    s.logs.records[f].attempt, Perform(s, cmd).value.reply)
  {
    RecoveryAccepted(s, cmd, f);
    if Perform(s, cmd).Ok? {
      var item := Find(s.repos, cmd.workItemId).value;
      RecoveryActs(cmd, ViewOf(item), s.logs, f);
      RecoveredIs(item.exec, cmd.recoveryId);
      SetIsOnlyExec(s.repos, cmd.workItemId, Recovered(item.exec, cmd.recoveryId).value);
    }
  }

  lemma {:induction false} RecoveryActs(cmd: Command, item: View, logs: Logs, f: nat)
    requires cmd.RecoverCandidate? && Act(cmd, Some(item), logs).Ok?
    requires f == IndexOfRun(logs.records, cmd.failedId, cmd.workItemId)
    ensures f < |logs.records|
    ensures
      var e := Act(cmd, Some(item), logs).value;
      && Recovered(item.exec, cmd.recoveryId).Ok? && e.exec == Some(Recovered(item.exec, cmd.recoveryId).value)
      && e.reply == Moved(e.exec.value) && e.logs.vleases == logs.vleases && e.logs.vrecords == logs.vrecords
      && |e.logs.leases| == |logs.leases| + 1 && e.logs.leases[..|logs.leases|] == logs.leases
      && |e.logs.records| == |logs.records| + 1 && e.logs.records[..|logs.records|] == logs.records
      && RecoveryLogged(e.logs.leases[|logs.leases|], e.logs.records[|logs.records|], cmd, item.source.repository,
                        logs.records[f].attempt)
  {
  }

  lemma {:induction false} RecoveryAccepted(s: Snapshot, cmd: Command, f: nat)
    requires cmd.RecoverCandidate? && f == IndexOfRun(s.logs.records, cmd.failedId, cmd.workItemId)
    ensures Perform(s, cmd).Ok? <==> Recoverable(s, cmd, f)
  {
    var item := FindView(s.repos, cmd.workItemId);
    ShaIsHex(cmd.baseHead);
    ShaIsHex(cmd.candidateHead);
    if item.Some? {
      if item.value.exec.workState.Failed? { RecoveredIs(item.value.exec, cmd.recoveryId); }
      BranchIs(item.value.source.externalId, cmd.failedId);
    }
  }

  lemma {:induction false} BranchIs(externalId: string, failedId: string)
    ensures PilotBranch(externalId, failedId) == "lcc/pilot/" + externalId + "-" + failedId[..Min(|failedId|, 8)]
  {
  }

  lemma {:induction false} ShaIsHex(s: string)
    ensures Sha(s) <==> Hex40(s)
  {
  }

  lemma {:induction false} RecoveredIs(e: Exec, recoveryId: string)
    requires e.workState.Failed?
    ensures
      var r := Recovered(e, recoveryId);
      && r.Ok? && r.value.workState.Verifying? && r.value.ballHolder.LCC? && r.value.nextAction.kind.Verify?
      && r.value.nextAction.aiExecutable
      && r.value.evidence == e.evidence + ["execution-recovery:" + recoveryId + ":INDEPENDENTLY_VERIFIED"]
  {
  }

  predicate CandidateRecovered(s: Snapshot, s': Snapshot, cmd: Command, item: WorkItem, attempt: nat, reply: Reply)
    requires cmd.RecoverCandidate?
  {
    var n := |s.logs.leases|;
    && s'.logs.vleases == s.logs.vleases && s'.logs.vrecords == s.logs.vrecords
    && |s'.logs.leases| == n + 1 && s'.logs.leases[..n] == s.logs.leases
    && |s'.logs.records| == |s.logs.records| + 1 && s'.logs.records[..|s.logs.records|] == s.logs.records
    && RecoveryLogged(s'.logs.leases[n], s'.logs.records[|s.logs.records|], cmd, item.source.repository, attempt)
    && reply.Moved? && reply.exec.workState.Verifying? && reply.exec.ballHolder.LCC?
    && reply.exec.nextAction.kind.Verify? && reply.exec.nextAction.aiExecutable
    && reply.exec.evidence ==
       item.exec.evidence + ["execution-recovery:" + cmd.recoveryId + ":INDEPENDENTLY_VERIFIED"]
    && OnlyExecOf(s.repos, s'.repos, cmd.workItemId, reply.exec)
  }

  predicate RecoveryLogged(lease: Lease, record: Record, cmd: Command, repository: string, attempt: nat)
    requires cmd.RecoverCandidate?
  {
    && lease.executionId == record.executionId == cmd.recoveryId
    && lease.workItemId == record.workItemId == cmd.workItemId && lease.repository == repository
    && lease.workerId == record.workerId == cmd.workerId && lease.attempt == record.attempt == attempt
    && lease.acquiredAt == record.requestedAt == record.startedAt == cmd.verifiedAt
    && record.finishedAt == Some(cmd.verifiedAt) && lease.status.Released? && record.status.Succeeded?
    && record.evidence == AtMostTen(cmd.evidence) && record.retryable == Some(false)
    && record.baseHead == Some(cmd.baseHead) && record.candidateBranch == Some(cmd.candidateBranch)
    && record.candidateHead == Some(cmd.candidateHead) && record.finalAgentMessage.None?
    && record.summary == "Timed-out Codex candidate recovered by fixed independent verification"
  }

  // -------------------------------------------------------- synchronisation

  /** The execution fields of the last of these items with an external id. */
  predicate LastExec(items: seq<WorkItem>, externalId: string, exec: Exec) {
    exists i :: 0 <= i < |items| && items[i].source.externalId == externalId && items[i].exec == exec
                && forall k :: i < k < |items| ==> items[k].source.externalId != externalId
  }

  predicate Knows(items: seq<WorkItem>, externalId: string) {
    exists i :: 0 <= i < |items| && items[i].source.externalId == externalId
  }

  lemma {:induction false} CurrentIsLast(items: seq<WorkItem>, externalId: string)
    ensures
      var c := CurrentOf(items, externalId);
      && (c.Some? <==> Knows(items, externalId))
      && (c.Some? ==> LastExec(items, externalId, c.value.exec))
  {
    var n := |items| - 1;
    if |items| > 0 && items[n].source.externalId != externalId {
      CurrentIsLast(items[..n], externalId);
      if Knows(items[..n], externalId) {
        var exec := CurrentOf(items[..n], externalId).value.exec;
        var i :| 0 <= i < n && items[..n][i].source.externalId == externalId && items[..n][i].exec == exec
                 && forall k :: i < k < n ==> items[..n][k].source.externalId != externalId;
        assert items[i] == items[..n][i];
        assert forall k :: i < k < n ==> items[k] == items[..n][k];
        assert items[i].source.externalId == externalId && items[i].exec == exec;
      }
    }
  }

  /** An item after a sync: everything the sync owns as in the batch, and the execution fields of the stored item with
      the same external id, or the batch's if there is none. */
  predicate SyncedItem(x: WorkItem, v: WorkItem, stored: seq<WorkItem>) {
    && v.id == x.id && v.source == x.source
    && v.details.title == x.details.title && v.details.sourceState == x.details.sourceState
    && v.details.labels == x.details.labels && v.details.assignees == x.details.assignees
    && v.details.sourceUrl == x.details.sourceUrl && v.details.acceptanceCriteria == x.details.acceptanceCriteria
    && v.details.definitionReady == x.details.definitionReady
    && v.details.sourceUpdatedAt == x.details.sourceUpdatedAt && v.details.lastSyncedAt == x.details.lastSyncedAt
    && (Knows(stored, x.source.externalId) ==> LastExec(stored, x.source.externalId, v.exec))
    && (!Knows(stored, x.source.externalId) ==> v.exec == x.exec)
  }

  /** Where a repository is stored, or will be: at its place, or at the end. */
  predicate PlaceOf(repos: seq<Repo>, name: string, r: nat) {
    && r <= |repos| && (r < |repos| ==> repos[r].name == name)
    && forall k :: 0 <= k < r ==> repos[k].name != name
  }

  /** A text of white space only. */
  predicate WhiteSpace(s: string) { forall i :: 0 <= i < |s| ==> Space(s[i]) }

  /** The batch is a list of complete items of this repository, none twice. */
  predicate Complete(batch: seq<WorkItem>, name: string) {
    && (forall i :: 0 <= i < |batch| ==>
          && batch[i].source.repository == name && "" !in {batch[i].id, batch[i].source.provider,
                                                           batch[i].source.externalId, batch[i].details.title}
          && "" !in {batch[i].details.sourceState, batch[i].details.sourceUrl, batch[i].details.sourceUpdatedAt})
    && (forall i, k :: 0 <= i < k < |batch| ==> batch[i].source != batch[k].source)
  }

  /** A sync is accepted if and only if the name is not blank and the batch is complete. Then the repository has
      exactly the batch's items, with fresh details and kept execution fields, and the given metadata; every other
      repository and all logs are as before. */
  lemma {:induction false} SyncIsExact(s: Snapshot, name: string, batch: seq<WorkItem>, metadata: Metadata, r: nat)
    requires PlaceOf(s.repos, name, r)
    ensures CommitSync(s, name, batch, metadata).Ok? <==> !WhiteSpace(name) && Complete(batch, name)
    ensures CommitSync(s, name, batch, metadata).Ok? ==>
              var s' := CommitSync(s, name, batch, metadata).value;
              var stored := if r < |s.repos| then s.repos[r].items else [];
              && s'.logs == s.logs && |s'.repos| == (if r < |s.repos| then |s.repos| else |s.repos| + 1)
              && (forall k :: 0 <= k < |s.repos| && k != r ==> s'.repos[k] == s.repos[k])
              && s'.repos[r].name == name && s'.repos[r].metadata == metadata
              && |s'.repos[r].items| == |batch|
              && forall i :: 0 <= i < |batch| ==> SyncedItem(batch[i], s'.repos[r].items[i], stored)
  {
    NameIs(s.repos, name, r);
    forall i ensures 0 <= i < |batch| ==>
      (CurrentOf(ItemsOf(s.repos, name), batch[i].source.externalId).Some? <==>
       Knows(ItemsOf(s.repos, name), batch[i].source.externalId))
    {
      if 0 <= i < |batch| { CurrentIsLast(ItemsOf(s.repos, name), batch[i].source.externalId); }
    }
    if CommitSync(s, name, batch, metadata).Ok? {
      forall i | 0 <= i < |batch|
        ensures SyncedItem(batch[i], MergeAll(batch, ItemsOf(s.repos, name))[i], ItemsOf(s.repos, name))
      {
        CurrentIsLast(ItemsOf(s.repos, name), batch[i].source.externalId);
      }
    }
  }

  /** A recorded failure changes only the metadata of its repository, and of that not the time of the last success; a
      repository that is not stored is added without items. */
  lemma {:induction false} FailureIsExact(s: Snapshot, name: string, metadata: Metadata, r: nat)
    requires PlaceOf(s.repos, name, r)
    ensures RecordFailure(s, name, metadata).Ok? <==> !WhiteSpace(name)
    ensures RecordFailure(s, name, metadata).Ok? ==>
              var s' := RecordFailure(s, name, metadata).value;
              && s'.logs == s.logs && |s'.repos| == (if r < |s.repos| then |s.repos| else |s.repos| + 1)
              && (forall k :: 0 <= k < |s.repos| && k != r ==> s'.repos[k] == s.repos[k])
              && s'.repos[r].name == name && s'.repos[r].items == (if r < |s.repos| then s.repos[r].items else [])
              && s'.repos[r].metadata.status == metadata.status
              && s'.repos[r].metadata.lastAttemptedSyncAt == metadata.lastAttemptedSyncAt
              && s'.repos[r].metadata.failureReason == metadata.failureReason
              && s'.repos[r].metadata.lastSuccessfulSyncAt ==
                 (if r < |s.repos| then s.repos[r].metadata else metadata).lastSuccessfulSyncAt
  {
    NameIs(s.repos, name, r);
  }
}
