/** What one store update keeps of the jobs, whoever issues it. */
module V2Jobs {
  import opened Common
  import opened V2State
  import opened V2Supervisor

  /** How a job may change in one update: its identity stays, a COMPLETED job stays as it is, the history
      only grows, and every change of state adds to the history and uses up potential. */
  predicate Evolves(j: Job, j': Job) {
    && j'.ident == j.ident
    && (j.state.Completed? ==> j' == j)
    && j.history <= j'.history
    && ((j'.state == j.state && j'.history == j.history && Potential(j') == Potential(j))
        || (Potential(j') < Potential(j) && |j.history| < |j'.history|))
  }

  predicate DistinctJobs(jobs: seq<Job>) {
    && (forall i, k :: 0 <= i < k < |jobs| ==> jobs[i].ident.jobId != jobs[k].ident.jobId)
    && (forall i, k :: 0 <= i < k < |jobs| ==> jobs[i].ident.issueId != jobs[k].ident.issueId)
  }

  /** The invariant of the stored jobs. */
  predicate Pool(jobs: seq<Job>) {
    (forall i :: 0 <= i < |jobs| ==> Sound(jobs[i])) && DistinctJobs(jobs)
  }

  /** At most one job of a repository is LEASED, ACTIVE, VERIFYING, MERGING or DEPLOYING. */
  predicate Exclusive(jobs: seq<Job>) {
    forall i, k :: 0 <= i < k < |jobs| && Live(jobs[i].state) && Live(jobs[k].state) ==>
      jobs[i].ident.repository != jobs[k].ident.repository
  }

  /** Whether an update may make this job live: only a lease of this very job, and only from QUEUED. */
  predicate MayEnter(j: Job, op: Op) { op.Lease? && op.jobId == j.ident.jobId && j.state.Queued? }

  predicate JobsEvolve(jobs: seq<Job>, jobs': seq<Job>, op: Op) {
    && |jobs| <= |jobs'|
    && (forall i :: 0 <= i < |jobs| ==> Evolves(jobs[i], jobs'[i]))
    && (forall i :: 0 <= i < |jobs| && Live(jobs'[i].state) ==> Live(jobs[i].state) || MayEnter(jobs[i], op))
    && (forall i :: |jobs| <= i < |jobs'| ==> !Live(jobs'[i].state))
  }

  /** Generated ids are pairwise different and not in use. */
  predicate FreshIds(ids: seq<string>, jobs: seq<Job>) {
    && (forall i, k :: 0 <= i < k < |ids| ==> ids[i] != ids[k])
    && (forall i, k :: 0 <= i < |ids| && 0 <= k < |jobs| ==> ids[i] != jobs[k].ident.jobId)
  }

  // -------------------------------------------------------------- one job

  lemma {:induction false} EvolvesTrans(a: Job, b: Job, c: Job)
    requires Evolves(a, b) && Evolves(b, c)
    ensures Evolves(a, c)
  {
  }

  lemma {:induction false} MoveEvolves(j: Job, patched: Job, to: JobState, summary: string, now: int)
    requires Sound(j) && SupervisorMove(j, patched, to) && Transition(j, patched, to, summary, now).Ok?
    ensures var v := Transition(j, patched, to, summary, now).value; Sound(v) && Evolves(j, v)
  {
    MoveKeepsSound(j, patched, to, summary, now);
  }

  lemma {:induction false} PromoteSound(j: Job, now: int)
    requires Sound(j)
    ensures Promote(j, now).Ok?
    ensures var v := Promote(j, now).value;
            Sound(v) && Evolves(j, v) && (Live(v.state) ==> Live(j.state)) && !v.state.Discovered? && !v.state.Eligible?
  {
    var e := j;
    if j.state.Discovered? {
      var p := j.(currentAction := "Eligibility confirmed", nextAction := Some("Enter durable queue"));
      var t := Transition(j, p, Eligible, "Issue is complete, safe, unclaimed, and worker-ready", now);
      MoveEvolves(j, p, Eligible, "Issue is complete, safe, unclaimed, and worker-ready", now);
      e := t.value;
    }
    if e.state.Eligible? {
      var p := e.(currentAction := "Waiting for execution slot", nextAction := Some("Acquire repository lease"));
      MoveEvolves(e, p, Queued, "Execution slot requested", now);
      EvolvesTrans(j, e, Promote(j, now).value);
    }
  }

  lemma {:induction false} ExpireSound(j: Job, alive: set<int>, now: int)
    requires Sound(j)
    ensures Expire(j, alive, now).Ok?
    ensures var v := Expire(j, alive, now).value;
            && Sound(v) && Evolves(j, v) && (Live(v.state) ==> Live(j.state) && v == j)
            && !Stale(v, alive, now) && (!Stale(j, alive, now) ==> v == j)
  {
    if Stale(j, alive, now) {
      var failure := if Missing(j, alive) then "Codex process disappeared" else "Lease/heartbeat expired";
      if j.retryCount < j.ident.retryLimit {
        MoveEvolves(j, Released(j, failure).(currentAction := failure, nextAction := Some("Retry with bounded budget")),
                    FailedRetryable, failure, now);
      } else {
        MoveEvolves(j, Released(j, failure).(currentAction := "Failed permanently", nextAction := None),
                    FailedFinal, "Retry budget exhausted", now);
      }
    }
  }

  lemma {:induction false} RequeueSound(j: Job, now: int)
    requires Sound(j)
    ensures Requeue(j, now).Ok?
    ensures var v := Requeue(j, now).value;
            && Sound(v) && Evolves(j, v) && (Live(v.state) ==> v == j)
            && !v.state.FailedRetryable? && (!j.state.FailedRetryable? ==> v == j)
  {
    if j.state.FailedRetryable? {
      MoveEvolves(j, j.(retryCount := j.retryCount + 1, currentAction := "Waiting to retry",
                        nextAction := Some("Acquire lease")),
                  Queued, "Bounded retry queued", now);
    }
  }

  lemma {:induction false} LeaseSound(j: Job, leaseId: string, expires: int, now: int)
    requires Sound(j) && LeaseJob(j, leaseId, expires, now).Ok?
    ensures var v := LeaseJob(j, leaseId, expires, now).value;
            Sound(v) && Evolves(j, v) && j.state.Queued? && v.state.Leased?
  {
    MoveEvolves(j, j.(leaseId := Some(leaseId), leaseExpiresAt := Some(expires),
                      currentAction := "Lease acquired", nextAction := Some("Start Codex")),
                Leased, "Exclusive Issue lease acquired", now);
  }

  lemma {:induction false} UpdateSound(j: Job, u: Progress, expires: int, now: int)
    requires Sound(j) && UpdateJob(j, u, expires, now).Ok? && Valid(UpdateJob(j, u, expires, now).value)
    ensures var v := UpdateJob(j, u, expires, now).value;
            Sound(v) && Evolves(j, v) && Live(j.state) && v.state == u.state
  {
    if j.state != u.state {
      MoveEvolves(j, Progressed(j, u, expires, now), u.state, u.action, now);
    }
  }

  lemma {:induction false} FinishSound(j: Job, r: Outcome, now: int)
    requires Sound(j) && FinishJob(j, r, now).Ok?
    ensures var v := FinishJob(j, r, now).value; Sound(v) && Evolves(j, v) && !Live(v.state)
  {
    var patched := j.(pid := None, heartbeatAt := None, leaseId := None, leaseExpiresAt := None,
                      work := r.work.Or(j.work));
    if r.ok {
      MoveEvolves(j, patched.(currentAction := "Completed", nextAction := None, failure := None),
                  Completed, "PR merged, deployment verified, and Issue completed", now);
    } else {
      var failure := if r.failure.Some? then r.failure.value else "Execution failed";
      var retryable := r.retryable && j.retryCount < j.ident.retryLimit;
      MoveEvolves(j, patched.(currentAction := "Execution failed",
                              nextAction := if retryable then Some("Retry") else None, failure := Some(failure)),
                  if retryable then FailedRetryable else FailedFinal, failure, now);
    }
  }

  lemma {:induction false} CatchSound(j: Job, error: string, now: int)
    requires Sound(j) && CatchJob(j, error, now).Ok?
    ensures var v := CatchJob(j, error, now).value; Sound(v) && Evolves(j, v) && !Live(v.state)
  {
    if !j.state.Completed? && !j.state.FailedFinal? {
      var retryable := j.retryCount < j.ident.retryLimit;
      MoveEvolves(j, Released(j, error).(currentAction := "Executor failure",
                                         nextAction := if retryable then Some("Retry") else None),
                  if retryable then FailedRetryable else FailedFinal, "Supervisor caught executor failure", now);
    }
  }

  /** A reported success completes the job exactly when the job has reached its final verification and the
      evidence, reported now or before, is complete; for the LCC repository that includes a healthy deployment
      of the merged main. */
  lemma {:induction false} CompletesExactly(j: Job, r: Outcome, now: int)
    requires Sound(j) && r.ok
    ensures FinishJob(j, r, now).Ok? <==>
              (j.state.Merging? || j.state.Deploying?) && Delivered(j.(work := r.work.Or(j.work)))
    ensures FinishJob(j, r, now).Ok? ==>
              var v := FinishJob(j, r, now).value;
              v.state.Completed? && v.work == r.work.Or(j.work) && v.leaseId.None? && v.pid.None?
  {
    if j.state.Merging? || j.state.Deploying? {
      var v := j.(pid := None, heartbeatAt := None, leaseId := None, leaseExpiresAt := None,
                  work := r.work.Or(j.work), currentAction := "Completed", nextAction := None, failure := None,
                  state := Completed, updatedAt := now);
      assert forall h :: Valid(v.(history := h)) <==> Delivered(j.(work := r.work.Or(j.work)));
    }
  }

  // ------------------------------------------------------------- all jobs

  /** An update that replaces one job keeps the pool. */
  lemma {:induction false} ReplaceKeepsPool(jobs: seq<Job>, i: nat, v: Job, op: Op)
    requires Pool(jobs) && i < |jobs| && Sound(v) && Evolves(jobs[i], v)
    requires Live(v.state) ==> Live(jobs[i].state) || MayEnter(jobs[i], op)
    ensures Pool(jobs[i := v]) && JobsEvolve(jobs, jobs[i := v], op)
  {
  }

  lemma {:induction false} EachKeepsPool(jobs: seq<Job>, jobs': seq<Job>, op: Op)
    requires Pool(jobs) && |jobs'| == |jobs|
    requires forall i :: 0 <= i < |jobs| ==> Sound(jobs'[i]) && Evolves(jobs[i], jobs'[i])
    requires forall i :: 0 <= i < |jobs| && Live(jobs'[i].state) ==> Live(jobs[i].state)
    ensures Pool(jobs') && JobsEvolve(jobs, jobs', op)
  {
  }

  lemma {:induction false} RegisterSound(issue: Issue, jobId: string, now: int)
    requires Register(issue, jobId, now).Ok? && Valid(Register(issue, jobId, now).value)
    ensures var v := Register(issue, jobId, now).value;
            Sound(v) && !Live(v.state) && v.ident == IdentityOf(issue, jobId, now)
  {
    NewJobSound(IdentityOf(issue, jobId, now), now);
    var job := NewJob(IdentityOf(issue, jobId, now), now);
    var reason := EligibilityFailure(issue);
    if reason.Some? {
      MoveKeepsSound(job,
                     job.(failure := reason, currentAction := reason.value,
                          nextAction := if issue.workerAvailable == Some(true) then None
                                        else Some("Wait for " + WorkerName(issue))),
                     Blocked, reason.value, now);
    }
  }

  lemma {:induction false} AppendKeepsPool(jobs: seq<Job>, v: Job, op: Op)
    requires Pool(jobs) && Sound(v) && !Live(v.state)
    requires forall k :: 0 <= k < |jobs| ==>
      jobs[k].ident.jobId != v.ident.jobId && jobs[k].ident.issueId != v.ident.issueId
    ensures Pool(jobs + [v]) && JobsEvolve(jobs, jobs + [v], op)
  {
  }

  lemma {:induction false} JobsEvolveTrans(a: seq<Job>, b: seq<Job>, c: seq<Job>, op: Op)
    requires JobsEvolve(a, b, op) && JobsEvolve(b, c, op) && !op.Lease?
    ensures JobsEvolve(a, c, op)
  {
  }

  lemma {:induction false} DiscoverOneKeepsPool(
    jobs: seq<Job>, issue: Issue, jobId: string, now: int, op: Op)
    requires Pool(jobs) && (forall k :: 0 <= k < |jobs| ==> jobs[k].ident.jobId != jobId) && !op.Lease?
    requires DiscoverOne(jobs, issue, jobId, now).Ok? && AllValid(DiscoverOne(jobs, issue, jobId, now).value)
    ensures var next := DiscoverOne(jobs, issue, jobId, now).value;
            && Pool(next) && JobsEvolve(jobs, next, op)
            && (forall k :: |jobs| <= k < |next| ==> next[k].ident.jobId == jobId)
  {
    var next := DiscoverOne(jobs, issue, jobId, now).value;
    var i := IndexOfIssue(jobs, issue.issueId);
    if !issue.closed && i == |jobs| {
      var v := Register(issue, jobId, now).value;
      assert next == jobs + [v] && next[|jobs|] == v;
      RegisterSound(issue, jobId, now);
      AppendKeepsPool(jobs, v, op);
    } else if issue.closed && i < |jobs| && !jobs[i].state.Completed? {
      var v := jobs[i].(failure := Some("Issue closed externally"));
      assert Sound(v);
      ReplaceKeepsPool(jobs, i, v, op);
    }
  }

  /** A batch that ends valid was valid throughout: closing an Issue cannot repair an invalid job. */
  lemma {:induction false} ValidBefore(jobs: seq<Job>, issues: seq<Issue>, ids: seq<string>, now: int)
    requires |ids| == |issues| && DiscoverAll(jobs, issues, ids, now).Ok?
    requires AllValid(DiscoverAll(jobs, issues, ids, now).value)
    ensures AllValid(jobs)
    decreases |issues|
  {
    if |issues| > 0 {
      var next := DiscoverOne(jobs, issues[0], ids[0], now).value;
      ValidBefore(next, issues[1..], ids[1..], now);
      forall k | 0 <= k < |jobs| ensures Valid(jobs[k]) {
        assert Valid(next[k]);
      }
    }
  }

  lemma {:induction false} DiscoverKeepsPool(
    jobs: seq<Job>, issues: seq<Issue>, ids: seq<string>, now: int, op: Op)
    requires Pool(jobs) && |ids| == |issues| && FreshIds(ids, jobs) && !op.Lease?
    requires DiscoverAll(jobs, issues, ids, now).Ok? && AllValid(DiscoverAll(jobs, issues, ids, now).value)
    ensures Pool(DiscoverAll(jobs, issues, ids, now).value)
    ensures JobsEvolve(jobs, DiscoverAll(jobs, issues, ids, now).value, op)
    decreases |issues|
  {
    if |issues| == 0 {
      forall i | 0 <= i < |jobs| ensures Evolves(jobs[i], jobs[i]) {
        assert jobs[i].history <= jobs[i].history;
      }
    } else {
      var next := DiscoverOne(jobs, issues[0], ids[0], now).value;
      ValidBefore(next, issues[1..], ids[1..], now);
      DiscoverOneKeepsPool(jobs, issues[0], ids[0], now, op);
      forall i, k | 0 <= i < |ids| - 1 && 0 <= k < |next| ensures ids[1..][i] != next[k].ident.jobId {
        if k < |jobs| { assert Evolves(jobs[k], next[k]); }
      }
      DiscoverKeepsPool(next, issues[1..], ids[1..], now, op);
      JobsEvolveTrans(jobs, next, DiscoverAll(jobs, issues, ids, now).value, op);
    }
  }

  lemma {:induction false} PromoteKeepsPool(jobs: seq<Job>, now: int, op: Op)
    requires Pool(jobs)
    ensures Accepted(jobs, PromoteDiscovered(now), true)
    ensures Pool(PromoteAll(jobs, now).value) && JobsEvolve(jobs, PromoteAll(jobs, now).value, op)
  {
    forall i | 0 <= i < |jobs| ensures Promote(jobs[i], now).Ok? {
      PromoteSound(jobs[i], now);
    }
    var next := PromoteAll(jobs, now).value;
    forall i | 0 <= i < |jobs|
      ensures Sound(next[i]) && Evolves(jobs[i], next[i]) && (Live(next[i].state) ==> Live(jobs[i].state))
    {
      PromoteSound(jobs[i], now);
    }
    EachKeepsPool(jobs, next, op);
  }

  /** An accepted update by a dispatch keeps the pool, whichever attempt of the job it belongs to. */
  lemma {:induction false} DispatchKeepsPool(jobs: seq<Job>, op: Op)
    requires Pool(jobs) && (op.Lease? || op.Update? || op.Finish? || op.Catch?)
    requires Apply(jobs, op).Ok? && AllValid(Apply(jobs, op).value)
    ensures Pool(Apply(jobs, op).value) && JobsEvolve(jobs, Apply(jobs, op).value, op)
  {
    var next := Apply(jobs, op).value;
    var i := IndexOf(jobs, op.jobId);
    assert i < |jobs| && Valid(next[i]);
    match op {
      case Lease(_, leaseId, expires, now) => LeaseSound(jobs[i], leaseId, expires, now);
      case Update(_, u, expires, now) => UpdateSound(jobs[i], u, expires, now);
      case Finish(_, r, now) => FinishSound(jobs[i], r, now);
      case Catch(_, error, now) => CatchSound(jobs[i], error, now);
    }
    ReplaceKeepsPool(jobs, i, next[i], op);
  }

  /** Every accepted update keeps the pool, lets each job evolve, and makes no job live except by a lease. */
  lemma {:induction false} AcceptedKeepsPool(jobs: seq<Job>, op: Op)
    requires Pool(jobs) && (op.Discover? ==> FreshIds(op.ids, jobs))
    requires Apply(jobs, op).Ok? && AllValid(Apply(jobs, op).value)
    ensures Pool(Apply(jobs, op).value) && JobsEvolve(jobs, Apply(jobs, op).value, op)
  {
    if op.Heartbeat? {
      EachKeepsPool(jobs, jobs, op);
    } else if op.Reconcile? {
      ReconcileTotal(jobs, op.alive, op.now);
      EachKeepsPool(jobs, Apply(jobs, op).value, op);
    } else if op.Discover? {
      DiscoverKeepsPool(jobs, op.issues, op.ids, op.now, op);
    } else if op.PromoteDiscovered? {
      PromoteKeepsPool(jobs, op.now, op);
    } else {
      DispatchKeepsPool(jobs, op);
    }
  }

  // ------------------------------------------- reconcile is total and complete

  /** What reconcile does to one job: a stale one fails or is queued again, a retryable failure is queued
      again, and every other job is untouched. */
  predicate Reconciled(j: Job, v: Job, alive: set<int>, now: int) {
    && !v.state.FailedRetryable? && !Stale(v, alive, now)
    && (!Stale(j, alive, now) && !j.state.FailedRetryable? ==> v == j)
    && (Stale(j, alive, now) || j.state.FailedRetryable? ==>
          if j.retryCount < j.ident.retryLimit then v.state.Queued? && v.retryCount == j.retryCount + 1
          else v.state.FailedFinal? && v.retryCount == j.retryCount)
  }

  lemma {:induction false} ReconcileJob(j: Job, alive: set<int>, now: int)
    requires Sound(j)
    ensures Expire(j, alive, now).Ok? && Requeue(Expire(j, alive, now).value, now).Ok?
    ensures var v := Requeue(Expire(j, alive, now).value, now).value;
            && Sound(v) && Evolves(j, v) && (Live(v.state) ==> Live(j.state)) && Reconciled(j, v, alive, now)
  {
    ExpireSound(j, alive, now);
    var e := Expire(j, alive, now).value;
    RequeueSound(e, now);
    EvolvesTrans(j, e, Requeue(e, now).value);
  }

  lemma {:induction false} ReconcilePasses(jobs: seq<Job>, alive: set<int>, now: int)
    requires Pool(jobs)
    ensures ReconcileAll(jobs, alive, now).Ok? && |ReconcileAll(jobs, alive, now).value| == |jobs|
    ensures forall i :: 0 <= i < |jobs| ==>
      && Expire(jobs[i], alive, now).Ok?
      && Requeue(Expire(jobs[i], alive, now).value, now) == Ok(ReconcileAll(jobs, alive, now).value[i])
  {
    forall i | 0 <= i < |jobs|
      ensures Expire(jobs[i], alive, now).Ok? && Requeue(Expire(jobs[i], alive, now).value, now).Ok?
    {
      ReconcileJob(jobs[i], alive, now);
    }
    var expired := ExpireAll(jobs, alive, now).value;
    forall i | 0 <= i < |expired| ensures Requeue(expired[i], now).Ok? {
      assert Expire(jobs[i], alive, now) == Ok(expired[i]);
    }
  }

  /** On a reachable pool reconcile never throws, is never rejected, and leaves nothing to reconcile. */
  lemma {:induction false} ReconcileTotal(jobs: seq<Job>, alive: set<int>, now: int)
    requires Pool(jobs)
    ensures Accepted(jobs, Reconcile(alive, now), true)
    ensures var next := ReconcileAll(jobs, alive, now).value;
            |next| == |jobs| && forall i :: 0 <= i < |jobs| ==>
              && Sound(next[i]) && Evolves(jobs[i], next[i]) && (Live(next[i].state) ==> Live(jobs[i].state))
              && Reconciled(jobs[i], next[i], alive, now)
  {
    ReconcilePasses(jobs, alive, now);
    var next := ReconcileAll(jobs, alive, now).value;
    forall i | 0 <= i < |jobs|
      ensures Sound(next[i]) && Evolves(jobs[i], next[i]) && (Live(next[i].state) ==> Live(jobs[i].state))
      ensures Reconciled(jobs[i], next[i], alive, now)
    {
      ReconcileJob(jobs[i], alive, now);
    }
  }
}
