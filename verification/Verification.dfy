/** Verification leases, records and results, and the decision drawn from a result. */
module Verification {
  import opened Common
  import opened Acceptance

  datatype CheckStatus = CheckPassed | CheckFailed | CheckTimedOut | CheckError

  datatype CheckResult = CheckResult(checkId: string, status: CheckStatus, summary: string, evidence: seq<string>)

  datatype WorkerVerdict = AllPassed | SomeFailed | Errored | Stopped

  datatype VResult = VResult(
    status: WorkerVerdict, finishedAt: int, verifiedHead: Option<string>, checks: seq<CheckResult>,
    summary: string, evidence: seq<string>)

  datatype Fulfilment = Fulfilled | Unfulfilled | AwaitingHuman

  datatype CriterionEvidence = CriterionEvidence(criterionId: string, checkIds: seq<string>, status: Fulfilment)

  datatype Verdict = Pending | Passed | Failed | HumanRequired | Error

  datatype Decision = Decision(status: Verdict, evidence: seq<CriterionEvidence>, reason: string)

  datatype VLeaseStatus = Held | Released | Abandoned

  datatype VLease = VLease(
    verificationId: string, workItemId: string, repository: string, workerId: string, acquiredAt: int,
    status: VLeaseStatus)

  datatype VRecord = VRecord(
    verificationId: string, workItemId: string, sourceExecutionId: string, repository: string, workerId: string,
    requestedAt: int, finishedAt: Option<int>, verifiedHead: Option<string>, status: Verdict,
    criteria: seq<Criterion>, criterionEvidence: seq<CriterionEvidence>, checks: seq<CheckResult>,
    summary: string, evidence: seq<string>)

  /** Whether the last result for a check says PASSED; a later result replaces an earlier one. */
  predicate LastPassed(checks: seq<CheckResult>, id: string) {
    |checks| > 0 &&
    if checks[|checks|-1].checkId == id then checks[|checks|-1].status.CheckPassed?
    else LastPassed(checks[..|checks|-1], id)
  }

  /** Of several results for a check the last one counts. */
  lemma {:induction false} LastPassedIsExact(checks: seq<CheckResult>, id: string)
    ensures LastPassed(checks, id) <==>
              exists i :: 0 <= i < |checks| && checks[i].checkId == id && checks[i].status.CheckPassed?
                          && forall k :: i < k < |checks| ==> checks[k].checkId != id
  {
    var n := |checks| - 1;
    if |checks| > 0 && checks[n].checkId != id {
      LastPassedIsExact(checks[..n], id);
      if LastPassed(checks, id) {
        var i :| 0 <= i < n && checks[..n][i].checkId == id && checks[..n][i].status.CheckPassed?
                 && forall k :: i < k < n ==> checks[..n][k].checkId != id;
        assert checks[i].checkId == id && checks[i].status.CheckPassed?;
        assert forall k :: i < k < n ==> checks[k] == checks[..n][k];
      }
      if i :| 0 <= i < |checks| && checks[i].checkId == id && checks[i].status.CheckPassed?
              && forall k :: i < k < |checks| ==> checks[k].checkId != id {
        assert checks[..n][i] == checks[i];
      }
    }
  }

  function Fulfil(c: Criterion, checks: seq<CheckResult>): CriterionEvidence {
    if c.human then CriterionEvidence(c.id, [], AwaitingHuman)
    else CriterionEvidence(c.id, c.checkIds,
                           if forall i :: 0 <= i < |c.checkIds| ==> LastPassed(checks, c.checkIds[i])
                           then Fulfilled else Unfulfilled)
  }

  function FulfilAll(criteria: seq<Criterion>, checks: seq<CheckResult>): (r: seq<CriterionEvidence>)
    ensures |r| == |criteria| && forall i :: 0 <= i < |r| ==> r[i] == Fulfil(criteria[i], checks)
  {
    seq(|criteria|, i requires 0 <= i < |criteria| => Fulfil(criteria[i], checks))
  }

  /** The ids of the criteria with a status, in order. */
  function IdsWith(evidence: seq<CriterionEvidence>, status: Fulfilment): seq<string> {
    if |evidence| == 0 then []
    else (if evidence[0].status == status then [evidence[0].criterionId] else []) + IdsWith(evidence[1..], status)
  }

  function Commas(ids: seq<string>): string {
    if |ids| == 0 then "" else if |ids| == 1 then ids[0] else ids[0] + ", " + Commas(ids[1..])
  }

  function Listed(evidence: seq<CriterionEvidence>, status: Fulfilment): string { Commas(IdsWith(evidence, status)) }

  predicate AnyWith(evidence: seq<CriterionEvidence>, status: Fulfilment) {
    exists i :: 0 <= i < |evidence| && evidence[i].status == status
  }

  /** A failed AUTO criterion decides first, then a remaining HUMAN criterion, and only then PASSED. */
  function DecideVerification(criteria: seq<Criterion>, checks: seq<CheckResult>): Decision {
    var mapping := FulfilAll(criteria, checks);
    if AnyWith(mapping, Unfulfilled) then
      Decision(Failed, mapping, "Failed AUTO criteria: " + Listed(mapping, Unfulfilled))
    else if AnyWith(mapping, AwaitingHuman) then
      Decision(HumanRequired, mapping, "Human criteria remain: " + Listed(mapping, AwaitingHuman))
    else Decision(Passed, mapping, "All AUTO criteria have PASSED evidence")
  }

  /** The decision on a worker's result: no verdict without infrastructure, and a worker's FAILED always stands. */
  function Decide(criteria: seq<Criterion>, r: VResult): Decision {
    if r.status.Errored? || r.status.Stopped? then Decision(Error, [], "Verification infrastructure unavailable")
    else
      var d := DecideVerification(criteria, r.checks);
      if r.status.SomeFailed? && !d.status.Failed?
      then d.(status := Failed, reason := "Worker reported verification failure") else d
  }

  /** Every check that an AUTO criterion names has a last result of PASSED. */
  predicate AutoMet(criteria: seq<Criterion>, checks: seq<CheckResult>) {
    forall i, k :: 0 <= i < |criteria| && !criteria[i].human && 0 <= k < |criteria[i].checkIds| ==>
      LastPassed(checks, criteria[i].checkIds[k])
  }

  predicate AllAuto(criteria: seq<Criterion>) { forall i :: 0 <= i < |criteria| ==> !criteria[i].human }

  /** When exactly each verdict is reached. */
  lemma {:induction false} DecisionIsExact(criteria: seq<Criterion>, r: VResult)
    ensures var v := Decide(criteria, r).status;
      && (v.Error? <==> r.status.Errored? || r.status.Stopped?)
      && (v.Passed? <==> r.status.AllPassed? && AllAuto(criteria) && AutoMet(criteria, r.checks))
      && (v.HumanRequired? <==> r.status.AllPassed? && !AllAuto(criteria) && AutoMet(criteria, r.checks))
      && (v.Failed? <==> (r.status.SomeFailed? || (r.status.AllPassed? && !AutoMet(criteria, r.checks))))
  {
    var m := FulfilAll(criteria, r.checks);
    if !AllAuto(criteria) {
      var i :| 0 <= i < |criteria| && criteria[i].human;
      assert m[i].status == AwaitingHuman;
    }
    if !AutoMet(criteria, r.checks) {
      var i, k :| 0 <= i < |criteria| && !criteria[i].human && 0 <= k < |criteria[i].checkIds|
        && !LastPassed(r.checks, criteria[i].checkIds[k]);
      assert m[i].status == Unfulfilled;
    }
    forall i | 0 <= i < |m| ensures m[i] == Fulfil(criteria[i], r.checks) {}
  }

  function IndexOfVHeld(leases: seq<VLease>, id: string): (i: nat)
    ensures i <= |leases|
    ensures i < |leases| ==> leases[i].verificationId == id && leases[i].status.Held?
    ensures forall k :: 0 <= k < i ==> !(leases[k].verificationId == id && leases[k].status.Held?)
  {
    FirstIndex(leases, (x: VLease) => x.verificationId == id && x.status.Held?)
  }

  function IndexOfVRecord(records: seq<VRecord>, id: string): (i: nat)
    ensures i <= |records|
    ensures i < |records| ==> records[i].verificationId == id
    ensures forall k :: 0 <= k < i ==> records[k].verificationId != id
  {
    FirstIndex(records, (x: VRecord) => x.verificationId == id)
  }

  predicate VHeldFor(leases: seq<VLease>, itemId: string, repository: string) {
    exists i :: 0 <= i < |leases| && leases[i].status.Held?
      && (leases[i].workItemId == itemId || leases[i].repository == repository)
  }
}
