/** The v2 supervisor: what each store update does to the jobs, and the class that performs it. */
module V2Supervisor {
  import opened Common
  import opened V2State

  /** A discovered Issue; the two regular-expression tests on its text are given as booleans. */
  datatype Issue = Issue(
    issueId: string, repository: string, product: Option<string>, number: int, url: string, title: string,
    revision: string, closed: bool, hasOpenPullRequest: bool, workerAvailable: Option<bool>,
    worker: Option<string>, namesAcceptance: bool, namesSecrets: bool)

  datatype Progress = Progress(
    state: JobState, pid: Option<int>, action: string, nextAction: Option<string>,
    heartbeatAt: Option<int>, work: Delivery)

  datatype Outcome = Outcome(ok: bool, retryable: bool, failure: Option<string>, work: Delivery)

  const RETRY_LIMIT := 3

  // ------------------------------------------------------------- discovery

  function WorkerName(issue: Issue): string {
    if issue.worker.Some? then issue.worker.value else "undefined"
  }

  function EligibilityFailure(issue: Issue): Option<string> {
    if issue.hasOpenPullRequest then Some("An open pull request already addresses this Issue")
    else if issue.workerAvailable == Some(false) then Some("Required worker " + WorkerName(issue) + " is offline")
    else if !issue.namesAcceptance then Some("Issue lacks readable Acceptance criteria")
    else if issue.namesSecrets then Some("Issue requires secrets or an irreversible operation")
    else None
  }

  /** The first job of an Issue, or |jobs|. */
  function IndexOfIssue(jobs: seq<Job>, issueId: string): (i: nat)
    ensures i <= |jobs|
    ensures forall k :: 0 <= k < i ==> jobs[k].ident.issueId != issueId
    ensures i < |jobs| ==> jobs[i].ident.issueId == issueId
  {
    FirstIndex(jobs, (x: Job) => x.ident.issueId == issueId)
  }

  /** The first job with an id, or |jobs|. */
  function IndexOf(jobs: seq<Job>, jobId: string): (i: nat)
    ensures i <= |jobs|
    ensures forall k :: 0 <= k < i ==> jobs[k].ident.jobId != jobId
    ensures i < |jobs| ==> jobs[i].ident.jobId == jobId
  {
    FirstIndex(jobs, (x: Job) => x.ident.jobId == jobId)
  }

  function IdentityOf(issue: Issue, jobId: string, now: int): Identity {
    Identity(jobId, issue.issueId, issue.repository,
             if issue.product.Some? then issue.product.value else issue.repository,
             issue.number, issue.url, issue.title, issue.revision, RETRY_LIMIT, false, now)
  }

  function Register(issue: Issue, jobId: string, now: int): Result<Job> {
    var job := NewJob(IdentityOf(issue, jobId, now), now);
    var reason := EligibilityFailure(issue);
    if reason.None? then Ok(job)
    else
      Transition(job,
                 job.(failure := reason, currentAction := reason.value,
                      nextAction := if issue.workerAvailable == Some(true) then None
                                    else Some("Wait for " + WorkerName(issue))),
                 Blocked, reason.value, now)
  }

  function DiscoverOne(jobs: seq<Job>, issue: Issue, jobId: string, now: int): Result<seq<Job>> {
    var i := IndexOfIssue(jobs, issue.issueId);
    if issue.closed then
      if i < |jobs| && !jobs[i].state.Completed?
      then Ok(jobs[i := jobs[i].(failure := Some("Issue closed externally"))]) else Ok(jobs)
    else if i < |jobs| then Ok(jobs)
    else
      var job := Register(issue, jobId, now);
      if job.Ok? then Ok(jobs + [job.value]) else Err(job.error)
  }

  function DiscoverAll(jobs: seq<Job>, issues: seq<Issue>, ids: seq<string>, now: int): Result<seq<Job>>
    requires |ids| == |issues|
    decreases |issues|
  {
    if |issues| == 0 then Ok(jobs)
    else
      var first := DiscoverOne(jobs, issues[0], ids[0], now);
      if first.Err? then first else DiscoverAll(first.value, issues[1..], ids[1..], now)
  }

  // ------------------------------------------------ promotion and recovery

  function Promote(j: Job, now: int): Result<Job> {
    var eligible :=
      if j.state.Discovered?
      then Transition(j, j.(currentAction := "Eligibility confirmed", nextAction := Some("Enter durable queue")),
                      Eligible, "Issue is complete, safe, unclaimed, and worker-ready", now)
      else Ok(j);
    if eligible.Ok? && eligible.value.state.Eligible?
    then Transition(eligible.value,
                    eligible.value.(currentAction := "Waiting for execution slot",
                                    nextAction := Some("Acquire repository lease")),
                    Queued, "Execution slot requested", now)
    else eligible
  }

  predicate Expired(j: Job, now: int) { j.leaseExpiresAt.None? || j.leaseExpiresAt.value <= now }

  predicate Missing(j: Job, alive: set<int>) {
    j.state.Active? && (!NonZero(j.pid) || j.pid.value !in alive)
  }

  predicate Stale(j: Job, alive: set<int>, now: int) {
    Live(j.state) && (Expired(j, now) || Missing(j, alive))
  }

  function Released(j: Job, failure: string): Job {
    j.(pid := None, heartbeatAt := None, leaseId := None, leaseExpiresAt := None, failure := Some(failure))
  }

  function Expire(j: Job, alive: set<int>, now: int): Result<Job> {
    if !Stale(j, alive, now) then Ok(j)
    else
      var failure := if Missing(j, alive) then "Codex process disappeared" else "Lease/heartbeat expired";
      if j.retryCount < j.ident.retryLimit
      then Transition(j, Released(j, failure).(currentAction := failure,
                                               nextAction := Some("Retry with bounded budget")),
                      FailedRetryable, failure, now)
      else Transition(j, Released(j, failure).(currentAction := "Failed permanently", nextAction := None),
                      FailedFinal, "Retry budget exhausted", now)
  }

  function Requeue(j: Job, now: int): Result<Job> {
    if !j.state.FailedRetryable? then Ok(j)
    else Transition(j, j.(retryCount := j.retryCount + 1, currentAction := "Waiting to retry",
                          nextAction := Some("Acquire lease")),
                    Queued, "Bounded retry queued", now)
  }

  /** Applies `f` to every job in turn; the first failure abandons the pass. */
  function MapJobs(f: Job -> Result<Job>, jobs: seq<Job>): (r: Result<seq<Job>>)
    ensures r.Ok? ==> |r.value| == |jobs| && forall i :: 0 <= i < |jobs| ==> f(jobs[i]) == Ok(r.value[i])
    ensures (forall i :: 0 <= i < |jobs| ==> f(jobs[i]).Ok?) ==> r.Ok?
  {
    var n := |jobs|;
    if n == 0 then Ok([])
    else
      var before := MapJobs(f, jobs[..n-1]);
      if before.Err? then before
      else
        var last := f(jobs[n-1]);
        if last.Ok? then Ok(before.value + [last.value]) else Err(last.error)
  }

  function PromoteAll(jobs: seq<Job>, now: int): Result<seq<Job>> {
    MapJobs(j => Promote(j, now), jobs)
  }

  function ExpireAll(jobs: seq<Job>, alive: set<int>, now: int): Result<seq<Job>> {
    MapJobs(j => Expire(j, alive, now), jobs)
  }

  function RequeueAll(jobs: seq<Job>, now: int): Result<seq<Job>> {
    MapJobs(j => Requeue(j, now), jobs)
  }

  function ReconcileAll(jobs: seq<Job>, alive: set<int>, now: int): Result<seq<Job>> {
    var expired := ExpireAll(jobs, alive, now);
    if expired.Err? then expired else RequeueAll(expired.value, now)
  }

  // -------------------------------------------------------------- dispatch

  function LeaseJob(j: Job, leaseId: string, expires: int, now: int): Result<Job> {
    if !j.state.Queued? then Err("job no longer queued")
    else Transition(j, j.(leaseId := Some(leaseId), leaseExpiresAt := Some(expires),
                          currentAction := "Lease acquired", nextAction := Some("Start Codex")),
                    Leased, "Exclusive Issue lease acquired", now)
  }

  function Progressed(j: Job, u: Progress, expires: int, now: int): Job {
    j.(pid := OrElse(u.pid, j.pid), heartbeatAt := OrElse(u.heartbeatAt, Some(now)),
       leaseExpiresAt := Some(expires), currentAction := u.action, nextAction := u.nextAction,
       work := u.work.Or(j.work))
  }

  /** A worker may only report ACTIVE, VERIFYING, MERGING or DEPLOYING. */
  function UpdateJob(j: Job, u: Progress, expires: int, now: int): Result<Job> {
    if u.state.Leased? || !Live(u.state) then Err("not a worker state")
    else if j.state == u.state then Ok(Progressed(j, u, expires, now).(updatedAt := now))
    else Transition(j, Progressed(j, u, expires, now), u.state, u.action, now)
  }

  function FinishJob(j: Job, r: Outcome, now: int): Result<Job> {
    var patched := j.(pid := None, heartbeatAt := None, leaseId := None, leaseExpiresAt := None,
                      work := r.work.Or(j.work));
    if r.ok then
      if !j.state.Merging? && !j.state.Deploying? then Err("successful worker must reach final verification")
      else Transition(j, patched.(currentAction := "Completed", nextAction := None, failure := None),
                      Completed, "PR merged, deployment verified, and Issue completed", now)
    else
      var failure := if r.failure.Some? then r.failure.value else "Execution failed";
      var retryable := r.retryable && j.retryCount < j.ident.retryLimit;
      Transition(j, patched.(currentAction := "Execution failed",
                             nextAction := if retryable then Some("Retry") else None, failure := Some(failure)),
                 if retryable then FailedRetryable else FailedFinal, failure, now)
  }

  function CatchJob(j: Job, error: string, now: int): Result<Job> {
    if j.state.Completed? || j.state.FailedFinal? then Ok(j)
    else
      var retryable := j.retryCount < j.ident.retryLimit;
      Transition(j, Released(j, error).(currentAction := "Executor failure",
                                        nextAction := if retryable then Some("Retry") else None),
                 if retryable then FailedRetryable else FailedFinal, "Supervisor caught executor failure", now)
  }

  function OnJob(jobs: seq<Job>, jobId: string, f: Job -> Result<Job>): (r: Result<seq<Job>>)
    ensures r.Ok? ==>
      && IndexOf(jobs, jobId) < |jobs| && f(jobs[IndexOf(jobs, jobId)]).Ok?
      && r.value == jobs[IndexOf(jobs, jobId) := f(jobs[IndexOf(jobs, jobId)]).value]
  {
    var i := IndexOf(jobs, jobId);
    if i == |jobs| then Err("no such job")
    else
      var moved := f(jobs[i]);
      if moved.Ok? then Ok(jobs[i := moved.value]) else Err(moved.error)
  }

  // ----------------------------------------------------- the store updates

  /** One closure handed to the store. Times are milliseconds, read once per closure. */
  datatype Op =
    | Heartbeat(now: int)
    | Reconcile(alive: set<int>, now: int)
    | Discover(issues: seq<Issue>, ids: seq<string>, now: int)
    | PromoteDiscovered(now: int)
    | Lease(jobId: string, leaseId: string, expires: int, now: int)
    | Update(jobId: string, progress: Progress, expires: int, now: int)
    | Finish(jobId: string, outcome: Outcome, now: int)
    | Catch(jobId: string, error: string, now: int)

  function Apply(jobs: seq<Job>, op: Op): Result<seq<Job>> {
    match op
    case Heartbeat(_) => Ok(jobs)
    case Reconcile(alive, now) => ReconcileAll(jobs, alive, now)
    case Discover(issues, ids, now) =>
      if |ids| != |issues| then Err("one fresh id per issue") else DiscoverAll(jobs, issues, ids, now)
    case PromoteDiscovered(now) => PromoteAll(jobs, now)
    case Lease(jobId, leaseId, expires, now) => OnJob(jobs, jobId, j => LeaseJob(j, leaseId, expires, now))
    case Update(jobId, u, expires, now) => OnJob(jobs, jobId, j => UpdateJob(j, u, expires, now))
    case Finish(jobId, r, now) => OnJob(jobs, jobId, j => FinishJob(j, r, now))
    case Catch(jobId, error, now) => OnJob(jobs, jobId, j => CatchJob(j, error, now))
  }

  predicate AllValid(jobs: seq<Job>) { forall i :: 0 <= i < |jobs| ==> Valid(jobs[i]) }

  /** Whether an update is published: it did not throw, every job passes the check, and the write succeeds. */
  predicate Accepted(jobs: seq<Job>, op: Op, written: bool) {
    Apply(jobs, op).Ok? && AllValid(Apply(jobs, op).value) && written
  }

  /** The published jobs after an update: all of it or nothing. */
  function After(jobs: seq<Job>, op: Op, written: bool): seq<Job> {
    if Accepted(jobs, op, written) then Apply(jobs, op).value else jobs
  }

  // -------------------------------------------------------- picking a job

  predicate Busy(jobs: seq<Job>, repository: string) {
    exists i :: 0 <= i < |jobs| && Live(jobs[i].state) && jobs[i].ident.repository == repository
  }

  predicate Pickable(jobs: seq<Job>, i: int) {
    0 <= i < |jobs| && jobs[i].state.Queued? && !Busy(jobs, jobs[i].ident.repository)
  }

  /** The first of the earliest discovered jobs that may be dispatched. */
  ghost predicate IsPick(jobs: seq<Job>, i: nat) {
    && Pickable(jobs, i)
    && (forall k :: Pickable(jobs, k) ==> jobs[i].ident.discoveredAt <= jobs[k].ident.discoveredAt)
    && (forall k :: Pickable(jobs, k) && k < i ==> jobs[i].ident.discoveredAt < jobs[k].ident.discoveredAt)
  }

  // ------------------------------------------------------------ the class

  class V2Store {
    var jobs: seq<Job>
    var heartbeatAt: Option<int>
    var automationEnabled: bool

    constructor ()
      ensures jobs == [] && heartbeatAt == None && automationEnabled
    {
      jobs, heartbeatAt, automationEnabled := [], None, true;
    }

    /** The tail of every store update: check each job, write, publish. */
    method Publish(next: seq<Job>, beat: Option<int>, written: bool) returns (ok: bool)
      modifies this`jobs, this`heartbeatAt
      ensures ok == (AllValid(next) && written)
      ensures jobs == if ok then next else old(jobs)
      ensures heartbeatAt == if ok then beat else old(heartbeatAt)
    {
      ok := true;
      for i := 0 to |next|
        invariant ok == forall k :: 0 <= k < i ==> Valid(next[k])
      {
        if !Valid(next[i]) { ok := false; }
      }
      ok := ok && written;
      if ok { jobs, heartbeatAt := next, beat; }
    }
  }

  /** The loop of every pass: `s.jobs[i]` is overwritten position by position until a move throws. */
  method ReplaceEach(jobs: seq<Job>, f: Job -> Result<Job>) returns (r: Result<seq<Job>>)
    ensures r.Ok? ==> MapJobs(f, jobs) == r
    ensures r.Err? ==> MapJobs(f, jobs).Err?
  {
    var s, i := jobs, 0;
    while i < |s|
      invariant 0 <= i <= |s| == |jobs|
      invariant s[i..] == jobs[i..]
      invariant MapJobs(f, jobs[..i]) == Ok(s[..i])
    {
      assert jobs[..i+1][..i] == jobs[..i] && jobs[i] == s[i];
      var moved := f(s[i]);
      if moved.Err? {
        PrefixFails(f, jobs, i + 1);
        return Err(moved.error);
      }
      s := s[i := moved.value];
      assert s[..i+1] == s[..i] + [moved.value];
      i := i + 1;
    }
    assert jobs[..i] == jobs && s[..i] == s;
    r := Ok(s);
  }

  class Supervisor {
    const store: V2Store

    constructor (store: V2Store)
      ensures this.store == store
    {
      this.store := store;
    }

    method BeatOnce(now: int, written: bool) returns (ok: bool)
      modifies store
      ensures ok == Accepted(old(store.jobs), Heartbeat(now), written)
      ensures store.jobs == old(store.jobs) && store.automationEnabled == old(store.automationEnabled)
      ensures store.heartbeatAt == if ok then Some(now) else old(store.heartbeatAt)
    {
      ok := store.Publish(store.jobs, Some(now), written);
    }

    /** Two passes over the jobs: expired or processless attempts fail, then every retryable failure is queued. */
    method ReconcileOnce(alive: set<int>, now: int, written: bool) returns (ok: bool)
      modifies store
      ensures ok == Accepted(old(store.jobs), Reconcile(alive, now), written)
      ensures store.jobs == After(old(store.jobs), Reconcile(alive, now), written)
      ensures store.heartbeatAt == old(store.heartbeatAt)
    {
      var expired := ReplaceEach(store.jobs, j => Expire(j, alive, now));
      if expired.Err? { return false; }
      var queued := ReplaceEach(expired.value, j => Requeue(j, now));
      if queued.Err? { return false; }
      ok := store.Publish(queued.value, store.heartbeatAt, written);
    }

    method DiscoverOnce(issues: seq<Issue>, ids: seq<string>, now: int, written: bool) returns (ok: bool)
      requires |ids| == |issues|
      modifies store
      ensures ok == Accepted(old(store.jobs), Discover(issues, ids, now), written)
      ensures store.jobs == After(old(store.jobs), Discover(issues, ids, now), written)
      ensures store.heartbeatAt == old(store.heartbeatAt)
    {
      var s := store.jobs;
      for k := 0 to |issues|
        invariant DiscoverAll(s, issues[k..], ids[k..], now) == DiscoverAll(old(store.jobs), issues, ids, now)
        invariant store.jobs == old(store.jobs) && store.heartbeatAt == old(store.heartbeatAt)
      {
        assert issues[k..][1..] == issues[k+1..] && ids[k..][1..] == ids[k+1..];
        var next := DiscoverOne(s, issues[k], ids[k], now);
        if next.Err? { return false; }
        s := next.value;
      }
      ok := store.Publish(s, store.heartbeatAt, written);
    }

    method PromoteOnce(now: int, written: bool) returns (ok: bool)
      modifies store
      ensures ok == Accepted(old(store.jobs), PromoteDiscovered(now), written)
      ensures store.jobs == After(old(store.jobs), PromoteDiscovered(now), written)
      ensures store.heartbeatAt == old(store.heartbeatAt)
    {
      var queued := ReplaceEach(store.jobs, j => Promote(j, now));
      if queued.Err? { return false; }
      ok := store.Publish(queued.value, store.heartbeatAt, written);
    }

    /** Lease, progress, finish and catch all replace the one job they find. */
    method DispatchOnce(op: Op, written: bool) returns (ok: bool)
      requires op.Lease? || op.Update? || op.Finish? || op.Catch?
      modifies store
      ensures ok == Accepted(old(store.jobs), op, written)
      ensures store.jobs == After(old(store.jobs), op, written)
      ensures store.heartbeatAt == old(store.heartbeatAt)
    {
      var i := IndexOf(store.jobs, op.jobId);
      if i == |store.jobs| { return false; }
      var current := store.jobs[i];
      var moved :=
        if op.Lease? then LeaseJob(current, op.leaseId, op.expires, op.now)
        else if op.Update? then UpdateJob(current, op.progress, op.expires, op.now)
        else if op.Finish? then FinishJob(current, op.outcome, op.now)
        else CatchJob(current, op.error, op.now);
      if moved.Err? { return false; }
      ok := store.Publish(store.jobs[i := moved.value], store.heartbeatAt, written);
    }

    /** The scan of a tick: nothing when automation is off, otherwise the oldest job of a free repository. */
    method Pick() returns (picked: Option<nat>)
      ensures picked.Some? ==> store.automationEnabled && IsPick(store.jobs, picked.value)
      ensures picked.None? && store.automationEnabled ==> forall k :: !Pickable(store.jobs, k)
    {
      picked := None;
      if !store.automationEnabled { return; }
      var jobs := store.jobs;
      for i := 0 to |jobs|
        invariant picked.Some? ==>
          && picked.value < i && Pickable(jobs, picked.value)
          && (forall k :: Pickable(jobs, k) && k < i ==>
                jobs[picked.value].ident.discoveredAt <= jobs[k].ident.discoveredAt)
          && (forall k :: Pickable(jobs, k) && k < picked.value ==>
                jobs[picked.value].ident.discoveredAt < jobs[k].ident.discoveredAt)
        invariant picked.None? ==> forall k :: k < i ==> !Pickable(jobs, k)
      {
        if Pickable(jobs, i)
           && (picked.None? || jobs[i].ident.discoveredAt < jobs[picked.value].ident.discoveredAt) {
          picked := Some(i);
        }
      }
    }
  }

  lemma {:induction false} PrefixFails(f: Job -> Result<Job>, jobs: seq<Job>, n: nat)
    requires n <= |jobs| && MapJobs(f, jobs[..n]).Err?
    ensures MapJobs(f, jobs).Err?
    decreases |jobs|
  {
  }
}
