/** Jobs of the v2 supervisor: the record, its allowed transitions and its invariant. */
module V2State {
  import opened Common

  datatype JobState =
    | Discovered | Eligible | Queued | Leased | Active | Verifying | Merging | Deploying
    | Completed | WaitingHuman | Blocked | FailedRetryable | FailedFinal

  datatype Check = Pending | Pass | Fail

  datatype HumanGate = HumanGate(question: string, reason: string, releaseCondition: string)

  /** One line of a job's history; the first line has no origin. */
  datatype Entry = Entry(at: int, from: Option<JobState>, to: JobState, summary: string)

  /** The fields that are written once, when the Issue is discovered. */
  datatype Identity = Identity(
    jobId: string, issueId: string, repository: string, product: string, issueNumber: int,
    issueUrl: string, title: string, sourceRevision: string, retryLimit: int,
    legacyDeploymentUnverified: bool, discoveredAt: int)

  /** What an execution reports about its branch, pull request and deployment. */
  datatype Delivery = Delivery(
    branch: Option<string>, commitSha: Option<string>, prNumber: Option<int>, prUrl: Option<string>,
    ciStatus: Option<Check>, mainSha: Option<string>, deployedSha: Option<string>,
    healthStatus: Option<Check>, deploymentEvidence: Option<string>)
  {
    /** The values reported now, and the recorded ones where nothing is reported. */
    function Or(current: Delivery): Delivery {
      Delivery(OrElse(branch, current.branch), OrElse(commitSha, current.commitSha),
               OrElse(prNumber, current.prNumber), OrElse(prUrl, current.prUrl),
               OrElse(ciStatus, current.ciStatus), OrElse(mainSha, current.mainSha),
               OrElse(deployedSha, current.deployedSha), OrElse(healthStatus, current.healthStatus),
               OrElse(deploymentEvidence, current.deploymentEvidence))
    }
  }

  datatype Job = Job(
    ident: Identity, state: JobState,
    leaseId: Option<string>, leaseExpiresAt: Option<int>, pid: Option<int>, heartbeatAt: Option<int>,
    currentAction: string, nextAction: Option<string>, retryCount: int, work: Delivery,
    humanGate: Option<HumanGate>, failure: Option<string>, updatedAt: int, history: seq<Entry>)

  const LCC_REPOSITORY := "knys/luckountry-control-center"

  const NO_DELIVERY := Delivery(None, None, None, None, None, None, None, None, None)

  predicate NonZero(n: Option<int>) { n.Some? && n.value != 0 }

  /** The states in which a job occupies its repository. */
  predicate Live(s: JobState) {
    s.Leased? || s.Active? || s.Verifying? || s.Merging? || s.Deploying?
  }

  function Allowed(s: JobState): set<JobState> {
    match s
    case Discovered => {Eligible, Blocked}
    case Eligible => {Queued, Blocked}
    case Queued => {Leased}
    case Leased => {Active, Deploying, FailedRetryable, FailedFinal}
    case Active => {Verifying, FailedRetryable, FailedFinal, WaitingHuman}
    case Verifying => {Merging, FailedRetryable, FailedFinal}
    case Merging => {Deploying, Completed, FailedRetryable, FailedFinal}
    case Deploying => {Completed, FailedRetryable, FailedFinal}
    case Completed => {}
    case WaitingHuman => {Queued, FailedFinal}
    case Blocked => {Queued, FailedFinal}
    case FailedRetryable => {Queued, FailedFinal}
    case FailedFinal => {}
  }

  /** The check that every stored job passes after every store update. */
  predicate Valid(j: Job) {
    && j.ident.jobId != "" && j.ident.issueId != ""
    && 0 <= j.retryCount <= j.ident.retryLimit
    && (Live(j.state) ==> NonEmpty(j.leaseId) && j.leaseExpiresAt.Some?)
    && (j.state.Active? ==> NonZero(j.pid) && j.heartbeatAt.Some?)
    && (j.state.WaitingHuman? ==>
          && j.humanGate.Some? && j.humanGate.value.question != ""
          && j.humanGate.value.reason != "" && j.humanGate.value.releaseCondition != "")
    && (!j.state.WaitingHuman? ==> j.humanGate.None?)
    && (j.state.Completed? ==> Delivered(j))
  }

  /** The evidence a COMPLETED job carries. */
  predicate Delivered(j: Job) {
    && NonEmpty(j.work.mainSha) && NonZero(j.work.prNumber) && j.work.ciStatus == Some(Pass)
    && (j.ident.repository == LCC_REPOSITORY && !j.ident.legacyDeploymentUnverified ==>
          j.work.healthStatus == Some(Pass) && j.work.deployedSha == j.work.mainSha)
  }

  function NewJob(ident: Identity, now: int): Job {
    Job(ident, Discovered, None, None, None, None, "Issue discovered", Some("Check eligibility"), 0,
        NO_DELIVERY, None, None, now, [Entry(now, None, Discovered, "GitHub Issue discovered")])
  }

  /** Moves `job`, with its patch already applied in `patched`, along one edge of the table. */
  function Transition(job: Job, patched: Job, to: JobState, summary: string, now: int): Result<Job> {
    if to !in Allowed(job.state) then Err("invalid v2 transition")
    else
      var value := patched.(state := to, updatedAt := now,
                            history := job.history + [Entry(now, Some(job.state), to, summary)]);
      if Valid(value) then Ok(value) else Err("invalid v2 job")
  }

  // ---------------------------------------------------------------- history

  /** Every history is a walk along allowed edges that starts at DISCOVERED. */
  predicate Chain(h: seq<Entry>) {
    |h| > 0 &&
    if |h| == 1 then h[0].from.None? && h[0].to.Discovered?
    else
      && Chain(h[..|h|-1])
      && h[|h|-1].from == Some(h[|h|-2].to)
      && h[|h|-1].to in Allowed(h[|h|-2].to)
  }

  /** How often a history takes a retry edge. */
  function Retries(h: seq<Entry>): nat {
    if |h| == 0 then 0
    else Retries(h[..|h|-1])
         + if h[|h|-1].from == Some(FailedRetryable) && h[|h|-1].to.Queued? then 1 else 0
  }

  /** How often a history enters LEASED. */
  function Leases(h: seq<Entry>): nat {
    if |h| == 0 then 0 else Leases(h[..|h|-1]) + if h[|h|-1].to.Leased? then 1 else 0
  }

  /** The longest walk the supervisor can still take from here within one attempt. */
  function Rank(s: JobState): nat {
    match s
    case Discovered => 8
    case Eligible => 7
    case Queued => 6
    case Leased => 5
    case Active => 4
    case Verifying => 3
    case Merging => 2
    case Deploying => 1
    case FailedRetryable => 0
    case WaitingHuman => 1
    case Blocked => 1
    case Completed => 0
    case FailedFinal => 0
  }

  /** The lexicographic measure (retries left, rank), flattened: no attempt has more than seven moves. */
  function Potential(j: Job): int {
    if j.state.Completed? || j.state.FailedFinal? || j.state.Blocked? || j.state.WaitingHuman? then Rank(j.state)
    else 7 * (j.ident.retryLimit - j.retryCount) + Rank(j.state)
  }

  /** Whether this attempt has been leased already. */
  predicate PastQueue(s: JobState) {
    !s.Discovered? && !s.Eligible? && !s.Queued? && !s.Blocked?
  }

  function HistoryBound(limit: int): int { 2 + 7 * (limit + 1) }

  /** What every run keeps of one job. */
  predicate Sound(j: Job) {
    && Valid(j)
    && Chain(j.history) && j.history[|j.history|-1].to == j.state
    && Retries(j.history) == j.retryCount
    && Leases(j.history) <= j.retryCount + (if PastQueue(j.state) then 1 else 0)
    && (j.state.FailedRetryable? ==> j.retryCount < j.ident.retryLimit)
    && |j.history| + Potential(j) <= HistoryBound(j.ident.retryLimit)
  }

  /** The moves the supervisor makes: the table without the ways back from BLOCKED and WAITING_HUMAN. */
  predicate SupervisorMove(j: Job, patched: Job, to: JobState) {
    && patched.ident == j.ident && !to.WaitingHuman?
    && (to.Queued? ==> j.state.Eligible? || j.state.FailedRetryable?)
    && (to.FailedRetryable? ==> patched.retryCount < j.ident.retryLimit)
    && patched.retryCount == (if j.state.FailedRetryable? && to.Queued? then j.retryCount + 1 else j.retryCount)
  }

  lemma {:induction false} MoveKeepsSound(j: Job, patched: Job, to: JobState, summary: string, now: int)
    requires Sound(j) && SupervisorMove(j, patched, to)
    requires Transition(j, patched, to, summary, now).Ok?
    ensures
      var v := Transition(j, patched, to, summary, now).value;
      && Sound(v) && v.state == to && v.ident == j.ident
      && Potential(v) < Potential(j) && |v.history| == |j.history| + 1
  {
    var v := Transition(j, patched, to, summary, now).value;
    assert v.history[..|v.history|-1] == j.history;
  }

  lemma {:induction false} NewJobSound(ident: Identity, now: int)
    requires ident.jobId != "" && ident.issueId != "" && ident.retryLimit >= 0
    ensures Sound(NewJob(ident, now))
  {
  }

  /** The table alone bounds nothing: it allows histories of any length, around and around through WAITING_HUMAN. */
  lemma {:induction false} TableHasCycles(n: nat) returns (h: seq<Entry>)
    ensures Chain(h) && |h| > n && h[|h|-1].to.Queued?
  {
    if n == 0 {
      h := Walk([Entry(0, None, Discovered, "")], Eligible);
      h := Walk(h, Queued);
    } else {
      h := TableHasCycles(n - 1);
      h := Walk(h, Leased);
      h := Walk(h, Active);
      h := Walk(h, WaitingHuman);
      h := Walk(h, Queued);
    }
  }

  lemma {:induction false} Walk(h: seq<Entry>, to: JobState) returns (longer: seq<Entry>)
    requires Chain(h) && to in Allowed(h[|h|-1].to)
    ensures Chain(longer) && |longer| == |h| + 1 && longer[|h|].to == to
  {
    longer := h + [Entry(0, Some(h[|h|-1].to), to, "")];
    assert longer[..|h|] == h;
  }
}
