/** What each update of the v2 supervisor does to the jobs, field by field, and when it is accepted. */
module V2Updates {
  import opened Common
  import opened V2State
  import opened V2Supervisor
  import opened V2Jobs

  /** A field takes what is reported, and keeps its value where nothing is. */
  predicate Takes<T(==)>(v: Option<T>, reported: Option<T>, was: Option<T>) {
    (reported.Some? ==> v == reported) && (reported.None? ==> v == was)
  }

  predicate TakesAll(v: Delivery, reported: Delivery, was: Delivery) {
    && Takes(v.branch, reported.branch, was.branch) && Takes(v.commitSha, reported.commitSha, was.commitSha)
    && Takes(v.prNumber, reported.prNumber, was.prNumber) && Takes(v.prUrl, reported.prUrl, was.prUrl)
    && Takes(v.ciStatus, reported.ciStatus, was.ciStatus) && Takes(v.mainSha, reported.mainSha, was.mainSha)
    && Takes(v.deployedSha, reported.deployedSha, was.deployedSha)
    && Takes(v.healthStatus, reported.healthStatus, was.healthStatus)
    && Takes(v.deploymentEvidence, reported.deploymentEvidence, was.deploymentEvidence)
  }

  /** One line was added to the history, for this move. */
  predicate Moved(j: Job, v: Job, to: JobState, summary: string, now: int) {
    v.state == to && v.updatedAt == now && v.history == j.history + [Entry(now, Some(j.state), to, summary)]
  }

  /** Nobody holds the job. */
  predicate Unheld(v: Job) { v.leaseId.None? && v.leaseExpiresAt.None? && v.pid.None? && v.heartbeatAt.None? }

  /** Only job i has changed. */
  predicate OnlyAt(jobs: seq<Job>, next: seq<Job>, i: nat) {
    i < |jobs| == |next| && forall k :: 0 <= k < |jobs| && k != i ==> next[k] == jobs[k]
  }

  /** The first job with an id. */
  predicate FirstWith(jobs: seq<Job>, i: nat, jobId: string) {
    i < |jobs| && jobs[i].ident.jobId == jobId && forall k :: 0 <= k < i ==> jobs[k].ident.jobId != jobId
  }

  lemma {:induction false} FirstIs(jobs: seq<Job>, i: nat, jobId: string)
    requires FirstWith(jobs, i, jobId)
    ensures IndexOf(jobs, jobId) == i
  {
    var k := IndexOf(jobs, jobId);
    if k < i { assert jobs[k].ident.jobId == jobId; }
  }

  /** An update of one job succeeds with a valid result exactly when it can move that job, and changes no other. */
  lemma {:induction false} OneJob(jobs: seq<Job>, i: nat, op: Op, moved: Result<Job>)
    requires Pool(jobs) && (op.Lease? || op.Update? || op.Finish? || op.Catch?) && FirstWith(jobs, i, op.jobId)
    requires moved == match op
                      case Lease(_, leaseId, expires, now) => LeaseJob(jobs[i], leaseId, expires, now)
                      case Update(_, u, expires, now) => UpdateJob(jobs[i], u, expires, now)
                      case Finish(_, r, now) => FinishJob(jobs[i], r, now)
                      case _ => CatchJob(jobs[i], op.error, op.now)
    ensures Accepted(jobs, op, true) <==> moved.Ok? && Valid(moved.value)
    ensures moved.Ok? ==> After(jobs, op, true) == if Valid(moved.value) then jobs[i := moved.value] else jobs
  {
    FirstIs(jobs, i, op.jobId);
    assert Apply(jobs, op).Ok? <==> moved.Ok?;
    if moved.Ok? {
      var next := jobs[i := moved.value];
      assert Apply(jobs, op) == Ok(next);
      assert next[i] == moved.value;
      forall k | 0 <= k < |jobs| && k != i ensures Valid(next[k]) { assert Sound(jobs[k]); }
    }
  }

  // ------------------------------------------------------------------ a lease

  predicate LeasedAs(j: Job, v: Job, leaseId: string, expires: int, now: int) {
    && Moved(j, v, Leased, "Exclusive Issue lease acquired", now)
    && v.leaseId == Some(leaseId) && v.leaseExpiresAt == Some(expires)
    && v.currentAction == "Lease acquired" && v.nextAction == Some("Start Codex")
    && v.ident == j.ident && v.retryCount == j.retryCount && v.work == j.work && v.failure == j.failure
    && v.pid == j.pid && v.heartbeatAt == j.heartbeatAt && v.humanGate == j.humanGate
  }

  /** A lease is accepted if and only if the job is QUEUED, and sets the lease and its expiry. */
  lemma {:induction false} LeaseIsExact(jobs: seq<Job>, i: nat, op: Op)
    requires Pool(jobs) && op.Lease? && op.leaseId != "" && FirstWith(jobs, i, op.jobId)
    ensures Accepted(jobs, op, true) <==> jobs[i].state.Queued?
    ensures Accepted(jobs, op, true) ==>
              && OnlyAt(jobs, After(jobs, op, true), i)
              && LeasedAs(jobs[i], After(jobs, op, true)[i], op.leaseId, op.expires, op.now)
  {
    assert Sound(jobs[i]);
    OneJob(jobs, i, op, LeaseJob(jobs[i], op.leaseId, op.expires, op.now));
  }

  // -------------------------------------------------------- a progress report

  /** The reports that a live job accepts: its own state again, or the next one of its attempt. */
  predicate MayReport(was: JobState, to: JobState) {
    match to
    case Active => was.Leased? || was.Active?
    case Verifying => was.Active? || was.Verifying?
    case Merging => was.Verifying? || was.Merging?
    case Deploying => was.Leased? || was.Merging? || was.Deploying?
    case _ => false
  }

  /** A progress report renews the lease and the heartbeat, takes what it reports, and keeps everything else. */
  predicate Renewed(j: Job, v: Job, u: Progress, expires: int, now: int) {
    && v.state == u.state && v.leaseExpiresAt == Some(expires) && Takes(v.heartbeatAt, u.heartbeatAt, Some(now))
    && Takes(v.pid, u.pid, j.pid) && TakesAll(v.work, u.work, j.work)
    && v.currentAction == u.action && v.nextAction == u.nextAction && v.updatedAt == now
    && v.ident == j.ident && v.leaseId == j.leaseId && v.retryCount == j.retryCount && v.failure == j.failure
    && v.humanGate == j.humanGate
    && v.history == j.history + if u.state == j.state then [] else [Entry(now, Some(j.state), u.state, u.action)]
  }

  lemma {:induction false} UpdateIsExact(jobs: seq<Job>, i: nat, op: Op)
    requires Pool(jobs) && op.Update? && FirstWith(jobs, i, op.jobId)
    ensures Accepted(jobs, op, true) <==>
              && MayReport(jobs[i].state, op.progress.state)
              && (op.progress.state.Active? ==>
                    NonZero(if op.progress.pid.Some? then op.progress.pid else jobs[i].pid))
    ensures Accepted(jobs, op, true) ==>
              && OnlyAt(jobs, After(jobs, op, true), i)
              && Renewed(jobs[i], After(jobs, op, true)[i], op.progress, op.expires, op.now)
  {
    assert Sound(jobs[i]);
    UpdateMoves(jobs[i], op.progress, op.expires, op.now);
    OneJob(jobs, i, op, UpdateJob(jobs[i], op.progress, op.expires, op.now));
  }

  lemma {:induction false} UpdateMoves(j: Job, u: Progress, expires: int, now: int)
    requires Sound(j)
    ensures
      var moved := UpdateJob(j, u, expires, now);
      && (moved.Ok? && Valid(moved.value) <==>
            MayReport(j.state, u.state) && (u.state.Active? ==> NonZero(if u.pid.Some? then u.pid else j.pid)))
      && (moved.Ok? ==> Renewed(j, moved.value, u, expires, now))
  {
    var v := Progressed(j, u, expires, now);
    assert TakesAll(v.work, u.work, j.work);
    assert !u.state.Leased? && Live(u.state) && j.state != u.state ==>
      (u.state in Allowed(j.state) <==> MayReport(j.state, u.state));
  }

  lemma {:induction false} HeldIsKept(j: Job, v: Job, op: Op, alive: set<int>, later: int)
    requires op.Update? && Renewed(j, v, op.progress, op.expires, op.now) && later < op.expires && Sound(v)
    requires op.progress.state.Active? ==>
               var pid := if op.progress.pid.Some? then op.progress.pid else j.pid;
               pid.Some? && pid.value in alive
    ensures !Overdue(v, later) && !Gone(v, alive)
    ensures Live(v.state) ==> forall w :: ReconciledTo(v, w, alive, later) ==> w == v
  {
  }

  /** A renewed lease holds: until it expires, and as long as the process of an ACTIVE job is alive, reconcile leaves
      the job as it is. */
  lemma {:induction false} RenewedLeaseHolds(jobs: seq<Job>, i: nat, op: Op, alive: set<int>, later: int)
    requires Pool(jobs) && op.Update? && FirstWith(jobs, i, op.jobId) && Accepted(jobs, op, true)
    requires later < op.expires
    requires op.progress.state.Active? ==>
               var pid := if op.progress.pid.Some? then op.progress.pid else jobs[i].pid;
               pid.Some? && pid.value in alive
    ensures
      var next := After(jobs, op, true);
      && Accepted(next, Reconcile(alive, later), true)
      && i < |After(next, Reconcile(alive, later), true)|
      && After(next, Reconcile(alive, later), true)[i] == next[i]
  {
    UpdateIsExact(jobs, i, op);
    AcceptedKeepsPool(jobs, op);
    ReconcileIsExact(After(jobs, op, true), alive, later);
    HeldIsKept(jobs[i], After(jobs, op, true)[i], op, alive, later);
  }

  // ------------------------------------------------------- the end of an attempt

  /** A failed attempt: nobody holds the job, and it may be retried if and only if `retryable` and retries are
      left. */
  predicate FailedAs(j: Job, v: Job, retryable: bool, summary: string, text: string, action: string, now: int) {
    var retry := retryable && j.retryCount < j.ident.retryLimit;
    && Moved(j, v, if retry then FailedRetryable else FailedFinal, summary, now)
    && Unheld(v) && v.failure == Some(text) && v.currentAction == action
    && v.nextAction == (if retry then Some("Retry") else None)
    && v.ident == j.ident && v.retryCount == j.retryCount && v.humanGate == j.humanGate
  }

  /** A reported failure ends the attempt of a live job with what was reported. It is accepted from a live job, and,
      as that of an earlier attempt, from a job that waits for its retry or is blocked, unless it may be retried. */
  lemma {:induction false} FailureIsExact(jobs: seq<Job>, i: nat, op: Op)
    requires Pool(jobs) && op.Finish? && !op.outcome.ok && FirstWith(jobs, i, op.jobId)
    ensures
      var j := jobs[i];
      Accepted(jobs, op, true) <==>
        || Live(j.state)
        || (!(op.outcome.retryable && j.retryCount < j.ident.retryLimit)
            && (j.state.Blocked? || j.state.FailedRetryable?))
    ensures Accepted(jobs, op, true) ==>
              var text := if op.outcome.failure.Some? then op.outcome.failure.value else "Execution failed";
              var v := After(jobs, op, true)[i];
              && OnlyAt(jobs, After(jobs, op, true), i)
              && FailedAs(jobs[i], v, op.outcome.retryable, text, text, "Execution failed", op.now)
              && TakesAll(v.work, op.outcome.work, jobs[i].work)
  {
    assert Sound(jobs[i]);
    FailureMoves(jobs[i], op.outcome, op.now);
    OneJob(jobs, i, op, FinishJob(jobs[i], op.outcome, op.now));
  }

  lemma {:induction false} FailureMoves(j: Job, r: Outcome, now: int)
    requires Sound(j) && !r.ok
    ensures
      var moved := FinishJob(j, r, now);
      var text := if r.failure.Some? then r.failure.value else "Execution failed";
      && (moved.Ok? && Valid(moved.value) <==>
            || Live(j.state)
            || (!(r.retryable && j.retryCount < j.ident.retryLimit) && (j.state.Blocked? || j.state.FailedRetryable?)))
      && (moved.Ok? ==>
            && FailedAs(j, moved.value, r.retryable, text, text, "Execution failed", now)
            && TakesAll(moved.value.work, r.work, j.work))
  {
  }

  /** A reported success is accepted from a job in its final verification with complete evidence, and completes it. */
  lemma {:induction false} SuccessIsExact(jobs: seq<Job>, i: nat, op: Op)
    requires Pool(jobs) && op.Finish? && op.outcome.ok && FirstWith(jobs, i, op.jobId)
    ensures Accepted(jobs, op, true) <==>
              && (jobs[i].state.Merging? || jobs[i].state.Deploying?)
              && Delivered(jobs[i].(work := op.outcome.work.Or(jobs[i].work)))
    ensures Accepted(jobs, op, true) ==>
              var j, v := jobs[i], After(jobs, op, true)[i];
              && OnlyAt(jobs, After(jobs, op, true), i)
              && Moved(j, v, Completed, "PR merged, deployment verified, and Issue completed", op.now)
              && Unheld(v) && TakesAll(v.work, op.outcome.work, j.work) && v.failure.None?
              && v.currentAction == "Completed" && v.nextAction.None?
              && v.ident == j.ident && v.retryCount == j.retryCount && v.humanGate == j.humanGate
  {
    assert Sound(jobs[i]);
    CompletesExactly(jobs[i], op.outcome, op.now);
    OneJob(jobs, i, op, FinishJob(jobs[i], op.outcome, op.now));
  }

  /** A caught failure leaves a finished job alone; of a live one it ends the attempt. */
  lemma {:induction false} CatchIsExact(jobs: seq<Job>, i: nat, op: Op)
    requires Pool(jobs) && op.Catch? && FirstWith(jobs, i, op.jobId)
    ensures
      var j := jobs[i];
      if j.state.Completed? || j.state.FailedFinal? then Accepted(jobs, op, true) && After(jobs, op, true) == jobs
      else Accepted(jobs, op, true) <==> Live(j.state) || (j.state.Blocked? && j.retryCount == j.ident.retryLimit)
    ensures !jobs[i].state.Completed? && !jobs[i].state.FailedFinal? && Accepted(jobs, op, true) ==>
              var v := After(jobs, op, true)[i];
              && OnlyAt(jobs, After(jobs, op, true), i) && v.work == jobs[i].work
              && FailedAs(jobs[i], v, true, "Supervisor caught executor failure", op.error, "Executor failure", op.now)
  {
    assert Sound(jobs[i]);
    CatchMoves(jobs[i], op.error, op.now);
    OneJob(jobs, i, op, CatchJob(jobs[i], op.error, op.now));
  }

  lemma {:induction false} CatchMoves(j: Job, error: string, now: int)
    requires Sound(j)
    ensures
      var moved := CatchJob(j, error, now);
      && (moved.Ok? ==> Valid(moved.value))
      && if j.state.Completed? || j.state.FailedFinal? then moved == Ok(j)
         else
           && (moved.Ok? <==> Live(j.state) || (j.state.Blocked? && j.retryCount == j.ident.retryLimit))
           && (moved.Ok? ==>
                 && moved.value.work == j.work
                 && FailedAs(j, moved.value, true, "Supervisor caught executor failure", error, "Executor failure",
                             now))
  {
  }

  // ------------------------------------------------------------------ reconcile

  predicate Overdue(j: Job, now: int) { j.leaseExpiresAt.None? || j.leaseExpiresAt.value <= now }

  predicate Gone(j: Job, alive: set<int>) {
    j.state.Active? && !exists pid :: pid in alive && pid != 0 && j.pid == Some(pid)
  }

  /** What reconcile makes of a job: a live job whose lease is over or whose process is gone fails, and every failure
      with retries left is queued again, all in one update; nothing else changes. */
  predicate ReconciledTo(j: Job, v: Job, alive: set<int>, now: int) {
    var dead := Live(j.state) && (Overdue(j, now) || Gone(j, alive));
    var text := if Gone(j, alive) then "Codex process disappeared" else "Lease/heartbeat expired";
    var failed := if dead then [Entry(now, Some(j.state), FailedRetryable, text)] else [];
    var queued := [Entry(now, Some(FailedRetryable), Queued, "Bounded retry queued")];
    && v.ident == j.ident && v.work == j.work && v.humanGate == j.humanGate
    && (!dead && !j.state.FailedRetryable? ==> v == j)
    && (dead ==> Unheld(v) && v.failure == Some(text) && v.updatedAt == now)
    && (dead && j.retryCount == j.ident.retryLimit ==>
          && v.state.FailedFinal? && v.retryCount == j.retryCount
          && v.history == j.history + [Entry(now, Some(j.state), FailedFinal, "Retry budget exhausted")]
          && v.currentAction == "Failed permanently" && v.nextAction.None?)
    && ((dead && j.retryCount < j.ident.retryLimit) || j.state.FailedRetryable? ==>
          && v.state.Queued? && v.retryCount == j.retryCount + 1 && v.history == j.history + failed + queued
          && v.currentAction == "Waiting to retry" && v.nextAction == Some("Acquire lease") && v.updatedAt == now)
    && (j.state.FailedRetryable? ==>
          v.failure == j.failure && v.leaseId == j.leaseId && v.leaseExpiresAt == j.leaseExpiresAt && v.pid == j.pid
          && v.heartbeatAt == j.heartbeatAt)
  }

  lemma {:induction false} JobIsReconciled(j: Job, alive: set<int>, now: int)
    requires Sound(j) && Expire(j, alive, now).Ok? && Requeue(Expire(j, alive, now).value, now).Ok?
    ensures ReconciledTo(j, Requeue(Expire(j, alive, now).value, now).value, alive, now)
  {
    var e := Expire(j, alive, now).value;
    var v := Requeue(e, now).value;
    assert Missing(j, alive) <==> Gone(j, alive);
    if Stale(j, alive, now) && e.state.FailedRetryable? {
      assert v.history == e.history + [Entry(now, Some(FailedRetryable), Queued, "Bounded retry queued")];
    }
  }

  lemma {:induction false} ReconcileIsExact(jobs: seq<Job>, alive: set<int>, now: int)
    requires Pool(jobs)
    ensures
      var op := Reconcile(alive, now);
      && Accepted(jobs, op, true) && |After(jobs, op, true)| == |jobs|
      && forall i :: 0 <= i < |jobs| ==> ReconciledTo(jobs[i], After(jobs, op, true)[i], alive, now)
  {
    ReconcileTotal(jobs, alive, now);
    ReconcilePasses(jobs, alive, now);
    var next := ReconcileAll(jobs, alive, now).value;
    forall i | 0 <= i < |jobs| ensures ReconciledTo(jobs[i], next[i], alive, now) {
      assert Sound(jobs[i]);
      JobIsReconciled(jobs[i], alive, now);
    }
  }

  // ------------------------------------------------------ discovery and promotion

  predicate Ineligible(x: Issue) {
    x.hasOpenPullRequest || x.workerAvailable == Some(false) || !x.namesAcceptance || x.namesSecrets
  }

  /** The reason given for an ineligible Issue: the first that applies. */
  predicate ReasonFor(x: Issue, text: string) {
    var worker := if x.worker.Some? then x.worker.value else "undefined";
    if x.hasOpenPullRequest then text == "An open pull request already addresses this Issue"
    else if x.workerAvailable == Some(false) then text == "Required worker " + worker + " is offline"
    else if !x.namesAcceptance then text == "Issue lacks readable Acceptance criteria"
    else text == "Issue requires secrets or an irreversible operation"
  }

  /** The job of a newly discovered Issue: DISCOVERED when eligible, BLOCKED with the reason otherwise; when the Issue
      is closed later in the batch, the failure says so. */
  predicate RegisteredAs(x: Issue, v: Job, jobId: string, now: int, closed: bool) {
    var d, first := v.ident, Entry(now, None, Discovered, "GitHub Issue discovered");
    && d.jobId == jobId && d.issueId == x.issueId && d.repository == x.repository && d.issueNumber == x.number
    && d.product == (if x.product.Some? then x.product.value else x.repository) && d.issueUrl == x.url
    && d.title == x.title && d.sourceRevision == x.revision && d.retryLimit == 3 && d.discoveredAt == now
    && !d.legacyDeploymentUnverified
    && Unheld(v) && v.retryCount == 0 && v.humanGate.None? && v.updatedAt == now
    && v.work == Delivery(None, None, None, None, None, None, None, None, None)
    && (!Ineligible(x) ==>
          && v.state.Discovered? && v.currentAction == "Issue discovered"
          && v.nextAction == Some("Check eligibility") && v.history == [first])
    && (Ineligible(x) ==>
          && v.state.Blocked? && ReasonFor(x, v.currentAction)
          && v.history == [first, Entry(now, Some(Discovered), Blocked, v.currentAction)]
          && (v.nextAction.None? <==> x.workerAvailable == Some(true))
          && (v.nextAction.Some? ==>
                v.nextAction.value == "Wait for " + if x.worker.Some? then x.worker.value else "undefined"))
    && v.failure == if closed then Some("Issue closed externally")
                    else if Ineligible(x) then Some(v.currentAction) else None
  }

  lemma {:induction false} RegisterIsExact(x: Issue, jobId: string, now: int)
    ensures Register(x, jobId, now).Ok? && Valid(Register(x, jobId, now).value) <==> jobId != "" && x.issueId != ""
    ensures Register(x, jobId, now).Ok? ==> RegisteredAs(x, Register(x, jobId, now).value, jobId, now, false)
  {
    var reason := EligibilityFailure(x);
    assert Ineligible(x) <==> reason.Some?;
    assert reason.Some? ==> ReasonFor(x, reason.value);
  }

  predicate Stores(jobs: seq<Job>, issueId: string) {
    exists i :: 0 <= i < |jobs| && jobs[i].ident.issueId == issueId
  }

  predicate DistinctIssues(jobs: seq<Job>) {
    forall i, k :: 0 <= i < k < |jobs| ==> jobs[i].ident.issueId != jobs[k].ident.issueId
  }

  /** A batch has a closed Issue with this id. */
  predicate ClosedIn(issues: seq<Issue>, issueId: string) {
    exists k :: 0 <= k < |issues| && issues[k].closed && issues[k].issueId == issueId
  }

  /** A stored job after a discovery: the same, but for the failure text when its Issue has been closed. */
  predicate SeenAgain(j: Job, v: Job, closed: bool) {
    && v == j.(failure := v.failure)
    && v.failure == if closed && !j.state.Completed? then Some("Issue closed externally") else j.failure
  }

  /** The job is that of Issue k of the batch, which is open and was not stored before. */
  predicate NewAt(jobs: seq<Job>, issues: seq<Issue>, ids: seq<string>, k: nat, v: Job, now: int) {
    && k < |issues| == |ids| && !issues[k].closed && !Stores(jobs, issues[k].issueId)
    && RegisteredAs(issues[k], v, ids[k], now, ClosedIn(issues[k+1..], issues[k].issueId))
  }

  predicate IsNew(jobs: seq<Job>, issues: seq<Issue>, ids: seq<string>, v: Job, now: int) {
    exists k :: 0 <= k < |issues| && NewAt(jobs, issues, ids, k, v, now)
  }

  /** What a batch of Issues makes of the jobs: stored ones only learn that their Issue was closed, and behind them
      come new ones for open Issues that had none; afterwards every open Issue of the batch is stored. */
  predicate DiscoveredAs(jobs: seq<Job>, next: seq<Job>, issues: seq<Issue>, ids: seq<string>, now: int) {
    && |jobs| <= |next|
    && (forall i :: 0 <= i < |jobs| ==> SeenAgain(jobs[i], next[i], ClosedIn(issues, jobs[i].ident.issueId)))
    && (forall i :: |jobs| <= i < |next| ==> IsNew(jobs, issues, ids, next[i], now))
    && (forall k :: 0 <= k < |issues| && !issues[k].closed ==> Stores(next, issues[k].issueId))
  }

  lemma {:induction false} OneDiscovered(jobs: seq<Job>, x: Issue, jobId: string, now: int)
    requires DistinctIssues(jobs) && DiscoverOne(jobs, x, jobId, now).Ok?
    ensures
      var next := DiscoverOne(jobs, x, jobId, now).value;
      && |jobs| <= |next| <= |jobs| + 1 && DistinctIssues(next)
      && (|next| == |jobs| + 1 <==> !x.closed && !Stores(jobs, x.issueId))
      && (forall i :: 0 <= i < |jobs| ==> SeenAgain(jobs[i], next[i], x.closed && x.issueId == jobs[i].ident.issueId))
      && (|next| == |jobs| + 1 ==> RegisteredAs(x, next[|jobs|], jobId, now, false))
  {
    var i := IndexOfIssue(jobs, x.issueId);
    if !x.closed && i == |jobs| { RegisterIsExact(x, jobId, now); }
    if i < |jobs| { assert Stores(jobs, x.issueId); }
  }

  lemma {:induction false} ClosedInAll(issues: seq<Issue>, issueId: string)
    requires |issues| > 0
    ensures ClosedIn(issues, issueId) <==>
              (issues[0].closed && issues[0].issueId == issueId) || ClosedIn(issues[1..], issueId)
  {
    if ClosedIn(issues[1..], issueId) {
      var k :| 0 <= k < |issues[1..]| && issues[1..][k].closed && issues[1..][k].issueId == issueId;
      assert issues[k+1] == issues[1..][k];
    }
    if ClosedIn(issues, issueId) && !(issues[0].closed && issues[0].issueId == issueId) {
      var k :| 0 <= k < |issues| && issues[k].closed && issues[k].issueId == issueId;
      assert issues[1..][k-1] == issues[k];
    }
  }

  lemma {:induction false} StillStored(jobs: seq<Job>, next: seq<Job>, issueId: string)
    requires |jobs| <= |next| && Stores(jobs, issueId)
    requires forall i :: 0 <= i < |jobs| ==> next[i].ident == jobs[i].ident
    ensures Stores(next, issueId)
  {
    var i :| 0 <= i < |jobs| && jobs[i].ident.issueId == issueId;
    assert next[i].ident == jobs[i].ident;
  }

  lemma {:induction false} NewStaysNew(
    jobs: seq<Job>, next: seq<Job>, issues: seq<Issue>, ids: seq<string>, v: Job, now: int)
    requires |issues| == |ids| > 0 && IsNew(next, issues[1..], ids[1..], v, now) && |jobs| <= |next|
    requires forall i :: 0 <= i < |jobs| ==> next[i].ident == jobs[i].ident
    ensures IsNew(jobs, issues, ids, v, now)
  {
    var k :| 0 <= k < |issues[1..]| && NewAt(next, issues[1..], ids[1..], k, v, now);
    assert issues[1..][k+1..] == issues[k+2..];
    if Stores(jobs, issues[k+1].issueId) { StillStored(jobs, next, issues[k+1].issueId); }
    assert NewAt(jobs, issues, ids, k + 1, v, now);
  }

  lemma {:induction false} BatchDiscovers(jobs: seq<Job>, issues: seq<Issue>, ids: seq<string>, now: int)
    requires DistinctIssues(jobs) && |ids| == |issues| && DiscoverAll(jobs, issues, ids, now).Ok?
    ensures DiscoveredAs(jobs, DiscoverAll(jobs, issues, ids, now).value, issues, ids, now)
    decreases |issues|
  {
    if |issues| > 0 {
      var x, mid, next := issues[0], DiscoverOne(jobs, issues[0], ids[0], now).value,
                          DiscoverAll(jobs, issues, ids, now).value;
      OneDiscovered(jobs, x, ids[0], now);
      BatchDiscovers(mid, issues[1..], ids[1..], now);
      forall i | 0 <= i < |jobs|
        ensures SeenAgain(jobs[i], next[i], ClosedIn(issues, jobs[i].ident.issueId))
      {
        assert SeenAgain(mid[i], next[i], ClosedIn(issues[1..], mid[i].ident.issueId));
        ClosedInAll(issues, jobs[i].ident.issueId);
      }
      forall i | |jobs| <= i < |next| ensures IsNew(jobs, issues, ids, next[i], now) {
        if i < |mid| {
          assert SeenAgain(mid[i], next[i], ClosedIn(issues[1..], x.issueId));
          assert NewAt(jobs, issues, ids, 0, next[i], now);
        } else {
          NewStaysNew(jobs, mid, issues, ids, next[i], now);
        }
      }
      forall k | 0 <= k < |issues| && !issues[k].closed ensures Stores(next, issues[k].issueId) {
        if k > 0 {
          assert issues[1..][k-1] == issues[k];
        } else {
          assert |mid| == |jobs| + 1 ==> mid[|jobs|].ident.issueId == x.issueId;
          StillStored(mid, next, x.issueId);
        }
      }
    }
  }

  /** An accepted discovery registers exactly the open Issues that had no job, and changes nothing else of a stored
      job than its failure text. */
  lemma {:induction false} DiscoveryIsExact(jobs: seq<Job>, op: Op)
    requires Pool(jobs) && op.Discover? && Accepted(jobs, op, true)
    ensures DiscoveredAs(jobs, After(jobs, op, true), op.issues, op.ids, op.now)
  {
    BatchDiscovers(jobs, op.issues, op.ids, op.now);
  }

  /** What promotion makes of a job: a DISCOVERED or ELIGIBLE one is QUEUED, any other stays. */
  predicate PromotedTo(j: Job, v: Job, now: int) {
    var eligible := Entry(now, Some(Discovered), Eligible, "Issue is complete, safe, unclaimed, and worker-ready");
    var queued := Entry(now, Some(Eligible), Queued, "Execution slot requested");
    && (!j.state.Discovered? && !j.state.Eligible? ==> v == j)
    && (j.state.Discovered? || j.state.Eligible? ==>
          && v.state.Queued? && v.updatedAt == now && v.currentAction == "Waiting for execution slot"
          && v.nextAction == Some("Acquire repository lease")
          && v.history == j.history + (if j.state.Discovered? then [eligible] else []) + [queued]
          && v.ident == j.ident && v.leaseId == j.leaseId && v.leaseExpiresAt == j.leaseExpiresAt && v.pid == j.pid
          && v.heartbeatAt == j.heartbeatAt && v.retryCount == j.retryCount && v.work == j.work
          && v.humanGate == j.humanGate && v.failure == j.failure)
  }

  lemma {:induction false} PromotionIsExact(jobs: seq<Job>, now: int)
    requires Pool(jobs)
    ensures
      var op := PromoteDiscovered(now);
      && Accepted(jobs, op, true) && |After(jobs, op, true)| == |jobs|
      && forall i :: 0 <= i < |jobs| ==> PromotedTo(jobs[i], After(jobs, op, true)[i], now)
  {
    PromoteKeepsPool(jobs, now, PromoteDiscovered(now));
    var next := PromoteAll(jobs, now).value;
    forall i | 0 <= i < |jobs| ensures PromotedTo(jobs[i], next[i], now) {
      assert Promote(jobs[i], now) == Ok(next[i]);
      PromoteMoves(jobs[i], now);
    }
  }

  lemma {:induction false} PromoteMoves(j: Job, now: int)
    requires Promote(j, now).Ok?
    ensures PromotedTo(j, Promote(j, now).value, now)
  {
  }

  /** A tick takes an open Issue that was not stored all the way: discovered and promoted, it ends QUEUED if it is
      eligible, and BLOCKED with the reason if it is not. */
  lemma {:induction false} NewIssuesEndQueuedOrBlocked(jobs: seq<Job>, op: Op, later: int, i: nat)
    requires Pool(jobs) && op.Discover? && FreshIds(op.ids, jobs) && Accepted(jobs, op, true)
    requires |jobs| <= i < |After(jobs, op, true)|
    ensures
      var found := After(jobs, op, true);
      var next := After(found, PromoteDiscovered(later), true);
      && Accepted(found, PromoteDiscovered(later), true) && i < |next|
      && exists k :: 0 <= k < |op.issues| && NewAt(jobs, op.issues, op.ids, k, found[i], op.now)
           && if Ineligible(op.issues[k]) then next[i].state.Blocked? && ReasonFor(op.issues[k], next[i].currentAction)
              else next[i].state.Queued?
  {
    var found := After(jobs, op, true);
    DiscoveryIsExact(jobs, op);
    AcceptedKeepsPool(jobs, op);
    PromotionIsExact(found, later);
    assert IsNew(jobs, op.issues, op.ids, found[i], op.now);
    var k :| 0 <= k < |op.issues| && NewAt(jobs, op.issues, op.ids, k, found[i], op.now);
    assert PromotedTo(found[i], After(found, PromoteDiscovered(later), true)[i], later);
  }
}
