/** Whole runs of the v2 supervisor: ticks, any number of dispatches in flight or stale, and crashes,
    all going through the store's FIFO chain of updates. */
module V2Protocol {
  import opened Common
  import opened V2State
  import opened V2Supervisor
  import opened V2Jobs

  datatype Stage = Beating | Reconciling | Discovering | Promoting

  /** Where the current tick is. `Ready(s)` is about to enqueue the update of stage s, `Waiting(s)` awaits it,
      `Reading` is about to scan the jobs, and `Picked` has chosen a job but not yet enqueued its lease. */
  datatype Tick = Idle | Ready(stage: Stage) | Waiting(stage: Stage) | Reading | Picked(jobId: string)

  /** The published jobs, the tick, and the updates enqueued but not yet run. */
  datatype System = System(jobs: seq<Job>, tick: Tick, queue: seq<Op>)

  /** An update a dispatch issues after its lease; nothing ties it to the current attempt of its job. */
  predicate WorkerOp(op: Op) { op.Update? || op.Finish? || op.Catch? }

  predicate StageOp(stage: Stage, op: Op) {
    match stage
    case Beating => op.Heartbeat?
    case Reconciling => op.Reconcile?
    case Discovering => op.Discover?
    case Promoting => op.PromoteDiscovered?
  }

  predicate TickOp(op: Op) { op.Heartbeat? || op.Reconcile? || op.Discover? || op.PromoteDiscovered? }

  function Following(stage: Stage): Tick {
    match stage
    case Beating => Ready(Reconciling)
    case Reconciling => Ready(Discovering)
    case Discovering => Ready(Promoting)
    case Promoting => Reading
  }

  // ---------------------------------------------------------------- steps

  ghost predicate StartTick(s: System, s': System) {
    s.tick.Idle? && s' == s.(tick := Ready(Beating))
  }

  ghost predicate EnqueueStage(s: System, s': System) {
    && s.tick.Ready?
    && exists op: Op ::
         StageOp(s.tick.stage, op) && s' == s.(tick := Waiting(s.tick.stage), queue := s.queue + [op])
  }

  /** A dispatch, current or stale, enqueues an update at any time. */
  ghost predicate EnqueueWorker(s: System, s': System) {
    exists op: Op :: WorkerOp(op) && s' == s.(queue := s.queue + [op])
  }

  /** The head of the chain runs; its write may fail. The awaiting tick goes on, or gives up if it threw. */
  ghost predicate RunHead(s: System, s': System, written: bool) {
    && |s.queue| > 0
    && (s.queue[0].Discover? ==> FreshIds(s.queue[0].ids, s.jobs))
    && s'.jobs == After(s.jobs, s.queue[0], written)
    && s'.queue == s.queue[1..]
    && s'.tick ==
         if TickOp(s.queue[0]) && s.tick.Waiting?
         then (if Accepted(s.jobs, s.queue[0], written) then Following(s.tick.stage) else Idle)
         else s.tick
  }

  /** The scan: it ends the tick, or picks the job to dispatch. */
  ghost predicate Scan(s: System, s': System) {
    && s.tick.Reading?
    && (s' == s.(tick := Idle)
        || exists i: nat :: IsPick(s.jobs, i) && s' == s.(tick := Picked(s.jobs[i].ident.jobId)))
  }

  /** `dispatch` enqueues the lease and the tick returns without waiting for it. */
  ghost predicate Launch(s: System, s': System) {
    && s.tick.Picked?
    && exists op: Op ::
         op.Lease? && op.jobId == s.tick.jobId && s' == s.(tick := Idle, queue := s.queue + [op])
  }

  /** Discovery may throw before its update is enqueued. */
  ghost predicate Abandon(s: System, s': System) {
    s.tick.Ready? && s' == s.(tick := Idle)
  }

  /** A crash or restart loses the tick and the chain; the published jobs are reopened. */
  ghost predicate Crash(s: System, s': System) { s' == System(s.jobs, Idle, []) }

  ghost predicate Step(s: System, s': System) {
    || StartTick(s, s') || EnqueueStage(s, s') || EnqueueWorker(s, s')
    || RunHead(s, s', true) || RunHead(s, s', false)
    || Scan(s, s') || Launch(s, s') || Abandon(s, s') || Crash(s, s')
  }

  ghost predicate StepAt(trace: seq<System>, i: int)
    requires 0 <= i < |trace| - 1
  {
    Step(trace[i], trace[i+1])
  }

  ghost predicate Run(trace: seq<System>) {
    && |trace| > 0 && trace[0] == System([], Idle, [])
    && forall i :: 0 <= i < |trace| - 1 ==> StepAt(trace, i)
  }

  // ------------------------------------------------------------ invariant

  /** The job's repository has no live job. */
  predicate FreeFor(jobs: seq<Job>, jobId: string) {
    forall i :: 0 <= i < |jobs| && jobs[i].ident.jobId == jobId ==> !Busy(jobs, jobs[i].ident.repository)
  }

  predicate NoTickOps(queue: seq<Op>) { forall i :: 0 <= i < |queue| ==> !TickOp(queue[i]) }

  predicate NoLeases(queue: seq<Op>) { forall i :: 0 <= i < |queue| ==> !queue[i].Lease? }

  /** The awaited update is the only tick update in the chain, and no lease stands behind it. */
  ghost predicate Awaited(queue: seq<Op>, stage: Stage) {
    exists h ::
      && 0 <= h < |queue| && StageOp(stage, queue[h])
      && NoTickOps(queue[..h]) && NoTickOps(queue[h+1..]) && NoLeases(queue[h+1..])
  }

  predicate OneLease(queue: seq<Op>) {
    forall i, k :: 0 <= i < k < |queue| ==> !(queue[i].Lease? && queue[k].Lease?)
  }

  /** At most one lease is ever enqueued, and by FIFO order it has run before a later tick gets past its
      heartbeat, let alone scans the jobs again. */
  ghost predicate Ordered(s: System) {
    && OneLease(s.queue)
    && (if s.tick.Waiting? then Awaited(s.queue, s.tick.stage) else NoTickOps(s.queue))
    && (s.tick == Idle || s.tick == Ready(Beating) || s.tick == Waiting(Beating) || NoLeases(s.queue))
  }

  ghost predicate Inv(s: System) {
    && Pool(s.jobs) && Exclusive(s.jobs) && Ordered(s)
    && (s.tick.Picked? ==> FreeFor(s.jobs, s.tick.jobId))
    && (forall i :: 0 <= i < |s.queue| && s.queue[i].Lease? ==> FreeFor(s.jobs, s.queue[i].jobId))
  }

  // ------------------------------------------------- one step keeps it all

  /** Only a lease makes a repository busy, so a picked job's repository stays free until its own lease. */
  lemma {:induction false} FreeIsStable(jobs: seq<Job>, jobs': seq<Job>, op: Op, jobId: string)
    requires Pool(jobs) && Pool(jobs') && JobsEvolve(jobs, jobs', op) && !op.Lease?
    requires FreeFor(jobs, jobId) && exists i :: 0 <= i < |jobs| && jobs[i].ident.jobId == jobId
    ensures FreeFor(jobs', jobId)
  {
  }

  /** An update keeps exclusion: without a lease the live jobs only shrink, and a lease finds its repository free. */
  lemma {:induction false} ExclusiveIsStable(jobs: seq<Job>, jobs': seq<Job>, op: Op)
    requires Pool(jobs) && Exclusive(jobs) && JobsEvolve(jobs, jobs', op)
    requires op.Lease? ==> FreeFor(jobs, op.jobId)
    ensures Exclusive(jobs')
  {
  }

  ghost predicate Known(s: System) {
    && (s.tick.Picked? ==> exists i :: 0 <= i < |s.jobs| && s.jobs[i].ident.jobId == s.tick.jobId)
    && (forall q :: 0 <= q < |s.queue| && s.queue[q].Lease? ==>
          exists i :: 0 <= i < |s.jobs| && s.jobs[i].ident.jobId == s.queue[q].jobId)
  }

  lemma {:induction false} KnownPersists(jobs: seq<Job>, jobs': seq<Job>, op: Op, jobId: string)
    requires JobsEvolve(jobs, jobs', op) && exists i :: 0 <= i < |jobs| && jobs[i].ident.jobId == jobId
    ensures exists i :: 0 <= i < |jobs'| && jobs'[i].ident.jobId == jobId
  {
  }

  lemma {:induction false} TailOneLease(q: seq<Op>)
    requires |q| > 0 && OneLease(q)
    ensures OneLease(q[1..]) && (q[0].Lease? ==> NoLeases(q[1..]))
  {
  }

  /** When the awaited update is at the head nothing of a tick is left behind it; otherwise it stays awaited. */
  lemma {:induction false} TailAwaited(q: seq<Op>, stage: Stage)
    requires |q| > 0 && Awaited(q, stage)
    ensures if TickOp(q[0]) then StageOp(stage, q[0]) && NoTickOps(q[1..]) && NoLeases(q[1..])
            else Awaited(q[1..], stage)
  {
    var h :| 0 <= h < |q| && StageOp(stage, q[h]) && NoTickOps(q[..h]) && NoTickOps(q[h+1..]) && NoLeases(q[h+1..]);
    if h > 0 {
      var q' := q[1..];
      assert q[..h][0] == q[0];
      assert q'[h-1] == q[h] && q'[..h-1] == q[..h][1..] && q'[h-1+1..] == q[h+1..];
    }
  }

  lemma {:induction false} TailOrdered(s: System, s': System, written: bool)
    requires Ordered(s) && RunHead(s, s', written)
    ensures Ordered(s')
    ensures s.queue[0].Lease? ==> NoLeases(s'.queue)
    ensures s.queue[0].Lease? ==> s.tick.Idle? || s.tick == Ready(Beating) || s.tick == Waiting(Beating)
  {
    TailOneLease(s.queue);
    if s.tick.Waiting? { TailAwaited(s.queue, s.tick.stage); }
  }

  lemma {:induction false} RunHeadKeepsInv(s: System, s': System, written: bool)
    requires Inv(s) && Known(s) && RunHead(s, s', written)
    ensures Inv(s') && Known(s')
  {
    var op := s.queue[0];
    TailOrdered(s, s', written);
    forall i | 0 <= i < |s'.queue| ensures s'.queue[i] == s.queue[i+1] {}
    if Accepted(s.jobs, op, written) {
      AcceptedKeepsPool(s.jobs, op);
      ExclusiveIsStable(s.jobs, s'.jobs, op);
      if s'.tick.Picked? {
        KnownPersists(s.jobs, s'.jobs, op, s.tick.jobId);
        FreeIsStable(s.jobs, s'.jobs, op, s.tick.jobId);
      }
      forall i | 0 <= i < |s'.queue| && s'.queue[i].Lease?
        ensures FreeFor(s'.jobs, s'.queue[i].jobId)
        ensures exists k :: 0 <= k < |s'.jobs| && s'.jobs[k].ident.jobId == s'.queue[i].jobId
      {
        assert s.queue[i+1].Lease? && !op.Lease?;
        KnownPersists(s.jobs, s'.jobs, op, s'.queue[i].jobId);
        FreeIsStable(s.jobs, s'.jobs, op, s'.queue[i].jobId);
      }
    }
  }

  lemma {:induction false} AppendAwaited(q: seq<Op>, stage: Stage, op: Op)
    requires Awaited(q, stage) && WorkerOp(op)
    ensures Awaited(q + [op], stage)
  {
    var h :| 0 <= h < |q| && StageOp(stage, q[h])
      && NoTickOps(q[..h]) && NoTickOps(q[h+1..]) && NoLeases(q[h+1..]);
    var q' := q + [op];
    assert q'[..h] == q[..h] && q'[h] == q[h];
    assert q'[h+1..] == q[h+1..] + [op];
  }

  lemma {:induction false} WorkerKeepsInv(s: System, s': System, op: Op)
    requires Inv(s) && Known(s) && WorkerOp(op) && s' == s.(queue := s.queue + [op])
    ensures Inv(s') && Known(s')
  {
    if s.tick.Waiting? {
      AppendAwaited(s.queue, s.tick.stage, op);
    }
    assert Ordered(s');
  }

  lemma {:induction false} StageKeepsInv(s: System, s': System, op: Op)
    requires Inv(s) && Known(s) && s.tick.Ready? && StageOp(s.tick.stage, op)
    requires s' == s.(tick := Waiting(s.tick.stage), queue := s.queue + [op])
    ensures Inv(s') && Known(s')
  {
    var q, q' := s.queue, s'.queue;
    assert q'[..|q|] == q && q'[|q|+1..] == [] && q'[|q|] == op;
    assert Awaited(q', s'.tick.stage);
    assert Ordered(s');
  }

  lemma {:induction false} LaunchKeepsInv(s: System, s': System, op: Op)
    requires Inv(s) && Known(s) && s.tick.Picked? && op.Lease? && op.jobId == s.tick.jobId
    requires s' == s.(tick := Idle, queue := s.queue + [op])
    ensures Inv(s') && Known(s')
  {
    assert NoLeases(s.queue);
    assert Ordered(s');
  }

  lemma {:induction false} ScanKeepsInv(s: System, s': System)
    requires Inv(s) && Known(s) && Scan(s, s')
    ensures Inv(s') && Known(s')
  {
  }

  lemma {:induction false} StepKeepsInv(s: System, s': System)
    requires Inv(s) && Known(s) && Step(s, s')
    ensures Inv(s') && Known(s')
  {
    if RunHead(s, s', true) {
      RunHeadKeepsInv(s, s', true);
    } else if RunHead(s, s', false) {
      RunHeadKeepsInv(s, s', false);
    } else if EnqueueStage(s, s') {
      var op: Op :| StageOp(s.tick.stage, op) && s' == s.(tick := Waiting(s.tick.stage), queue := s.queue + [op]);
      StageKeepsInv(s, s', op);
    } else if EnqueueWorker(s, s') {
      var op: Op :| WorkerOp(op) && s' == s.(queue := s.queue + [op]);
      WorkerKeepsInv(s, s', op);
    } else if Launch(s, s') {
      var op: Op :| op.Lease? && op.jobId == s.tick.jobId && s' == s.(tick := Idle, queue := s.queue + [op]);
      LaunchKeepsInv(s, s', op);
    } else if Scan(s, s') {
      ScanKeepsInv(s, s');
    }
  }

  lemma {:induction false} RunKeepsInv(trace: seq<System>, n: nat)
    requires Run(trace) && n < |trace|
    ensures Inv(trace[n]) && Known(trace[n])
    decreases n
  {
    if n > 0 {
      RunKeepsInv(trace, n - 1);
      assert StepAt(trace, n - 1);
      StepKeepsInv(trace[n-1], trace[n]);
    }
  }

  // --------------------------------------------------------- main results

  /** In every interleaving of ticks, in-flight and stale dispatches and crashes, a repository never has two
      live jobs. */
  lemma {:induction false} MutualExclusion(trace: seq<System>, n: nat, i: nat, k: nat)
    requires Run(trace) && n < |trace| && i < k < |trace[n].jobs|
    requires trace[n].jobs[i].ident.repository == trace[n].jobs[k].ident.repository
    ensures
      var occupying := {Leased, Active, Verifying, Merging, Deploying};
      !(trace[n].jobs[i].state in occupying && trace[n].jobs[k].state in occupying)
  {
    RunKeepsInv(trace, n);
  }

  /** Every job is leased at most retryLimit + 1 times, its history is a walk along allowed edges of bounded
      length that ends in its state, and its retry count counts the retry edges. */
  lemma {:induction false} BoundedAttempts(trace: seq<System>, n: nat, i: nat)
    requires Run(trace) && n < |trace| && i < |trace[n].jobs|
    ensures
      var j := trace[n].jobs[i];
      && Chain(j.history) && j.history[|j.history|-1].to == j.state
      && Retries(j.history) == j.retryCount <= j.ident.retryLimit
      && Leases(j.history) <= j.ident.retryLimit + 1
      && |j.history| <= HistoryBound(j.ident.retryLimit)
  {
    RunKeepsInv(trace, n);
    assert Sound(trace[n].jobs[i]);
  }

  /** Two jobs never share an id or an Issue, and a COMPLETED job carries its evidence: the merged main, the pull
      request, its passed checks, and for the LCC repository, but for a legacy job, a healthy deployment of that
      main. */
  lemma {:induction false} IdentityAndEvidence(trace: seq<System>, n: nat, i: nat)
    requires Run(trace) && n < |trace| && i < |trace[n].jobs|
    ensures DistinctJobs(trace[n].jobs)
    ensures
      var j := trace[n].jobs[i];
      j.state.Completed? ==>
        && j.work.mainSha.Some? && j.work.mainSha != Some("") && j.work.prNumber.Some? && j.work.prNumber != Some(0)
        && j.work.ciStatus == Some(Pass)
        && (j.ident.repository == "knys/luckountry-control-center" && !j.ident.legacyDeploymentUnverified ==>
              j.work.healthStatus == Some(Pass) && j.work.deployedSha == j.work.mainSha)
  {
    RunKeepsInv(trace, n);
    assert Sound(trace[n].jobs[i]);
  }

  /** A job that occupies its repository has a lease with an expiry, an ACTIVE one also a process and a heartbeat, and
      only a job that waits for a human has a question. */
  lemma {:induction false} LiveJobsAreHeld(trace: seq<System>, n: nat, i: nat)
    requires Run(trace) && n < |trace| && i < |trace[n].jobs|
    ensures
      var j := trace[n].jobs[i];
      && (j.state in {Leased, Active, Verifying, Merging, Deploying} ==>
            j.leaseId.Some? && j.leaseId != Some("") && j.leaseExpiresAt.Some?)
      && (j.state.Active? ==> j.pid.Some? && j.pid != Some(0) && j.heartbeatAt.Some?)
      && (j.humanGate.Some? <==> j.state.WaitingHuman?)
  {
    RunKeepsInv(trace, n);
    assert Sound(trace[n].jobs[i]);
  }

  lemma {:induction false} EvolvesReflexive(j: Job)
    ensures Evolves(j, j)
  {
  }

  lemma {:induction false} StepEvolves(s: System, s': System)
    requires Inv(s) && Known(s) && Step(s, s')
    ensures |s.jobs| <= |s'.jobs| && forall i :: 0 <= i < |s.jobs| ==> Evolves(s.jobs[i], s'.jobs[i])
  {
    if |s.queue| > 0 && (s.queue[0].Discover? ==> FreshIds(s.queue[0].ids, s.jobs))
       && Accepted(s.jobs, s.queue[0], true) {
      AcceptedKeepsPool(s.jobs, s.queue[0]);
    }
    forall i | 0 <= i < |s.jobs| ensures Evolves(s.jobs[i], s.jobs[i]) {
      EvolvesReflexive(s.jobs[i]);
    }
  }

  predicate Grown(a: seq<Job>, b: seq<Job>) {
    |a| <= |b| && forall i :: 0 <= i < |a| ==> Evolves(a[i], b[i])
  }

  lemma {:induction false} RunEvolves(trace: seq<System>, n: nat)
    requires Run(trace) && n + 1 < |trace|
    ensures Grown(trace[n].jobs, trace[n+1].jobs)
  {
    RunKeepsInv(trace, n);
    assert StepAt(trace, n);
    StepEvolves(trace[n], trace[n+1]);
  }

  lemma {:induction false} GrownTrans(a: seq<Job>, b: seq<Job>, c: seq<Job>)
    requires Grown(a, b) && Grown(b, c)
    ensures Grown(a, c)
  {
  }

  predicate GrownAt(pools: seq<seq<Job>>, k: int)
    requires 0 <= k < |pools| - 1
  {
    Grown(pools[k], pools[k+1])
  }

  lemma {:induction false} GrownAlong(pools: seq<seq<Job>>, m: nat, n: nat)
    requires m <= n < |pools|
    requires forall k :: m <= k < n ==> GrownAt(pools, k)
    ensures Grown(pools[m], pools[n])
    decreases n
  {
    if m == n {
      forall i | 0 <= i < |pools[m]| ensures Evolves(pools[m][i], pools[m][i]) {
        EvolvesReflexive(pools[m][i]);
      }
    } else {
      GrownAlong(pools, m, n - 1);
      assert GrownAt(pools, n - 1);
      GrownTrans(pools[m], pools[n-1], pools[n]);
    }
  }

  /** Between any two moments of a run no job is removed, its identity stays, its history only grows, every
      change of state has used up potential, and a COMPLETED job is the same in every field. */
  lemma {:induction false} Finality(trace: seq<System>, m: nat, n: nat, i: nat)
    requires Run(trace) && m <= n < |trace| && i < |trace[m].jobs|
    ensures i < |trace[n].jobs| && Evolves(trace[m].jobs[i], trace[n].jobs[i])
  {
    var pools := seq(|trace|, k requires 0 <= k < |trace| => trace[k].jobs);
    forall k | m <= k < n ensures GrownAt(pools, k) {
      RunEvolves(trace, k);
    }
    GrownAlong(pools, m, n);
  }

  /** The published history lines of all jobs. */
  function Lines(jobs: seq<Job>): nat {
    if |jobs| == 0 then 0 else Lines(jobs[..|jobs|-1]) + |jobs[|jobs|-1].history|
  }

  /** What all jobs together may ever write. */
  function Budget(jobs: seq<Job>): int {
    if |jobs| == 0 then 0 else Budget(jobs[..|jobs|-1]) + HistoryBound(jobs[|jobs|-1].ident.retryLimit)
  }

  lemma {:induction false} LinesBounded(jobs: seq<Job>)
    requires forall i :: 0 <= i < |jobs| ==> Sound(jobs[i])
    ensures Lines(jobs) <= Budget(jobs)
  {
    if |jobs| > 0 {
      LinesBounded(jobs[..|jobs|-1]);
      assert Sound(jobs[|jobs|-1]);
    }
  }

  lemma {:induction false} LinesGrow(a: seq<Job>, b: seq<Job>)
    requires Grown(a, b)
    ensures Lines(a) <= Lines(b)
    decreases |b|
  {
    var n := |b| - 1;
    if |a| == |b| && |a| > 0 {
      LinesGrow(a[..n], b[..n]);
      assert Evolves(a[n], b[n]);
    } else if |b| > 0 {
      LinesGrow(a, b[..n]);
    }
  }

  lemma {:induction false} LinesGrowStrictly(a: seq<Job>, b: seq<Job>, i: nat)
    requires Grown(a, b) && i < |a| && a[i].state != b[i].state
    ensures Lines(a) < Lines(b)
    decreases |b|
  {
    var n := |b| - 1;
    assert Evolves(a[i], b[i]);
    if |a| == |b| && i == n {
      LinesGrow(a[..n], b[..n]);
    } else if |a| == |b| {
      LinesGrowStrictly(a[..n], b[..n], i);
      assert Evolves(a[n], b[n]);
    } else {
      LinesGrowStrictly(a, b[..n], i);
    }
  }

  /** Termination: every step that changes the state of a job adds to a total that no run exceeds. */
  lemma {:induction false} StateChangesAreBounded(trace: seq<System>, n: nat)
    requires Run(trace) && n < |trace|
    ensures Lines(trace[n].jobs) <= Budget(trace[n].jobs)
    ensures n > 0 ==> Lines(trace[n-1].jobs) <= Lines(trace[n].jobs)
    ensures n > 0 ==> forall i | 0 <= i < |trace[n-1].jobs| && i < |trace[n].jobs| ::
              trace[n-1].jobs[i].state != trace[n].jobs[i].state ==> Lines(trace[n-1].jobs) < Lines(trace[n].jobs)
  {
    RunKeepsInv(trace, n);
    LinesBounded(trace[n].jobs);
    if n > 0 {
      RunEvolves(trace, n - 1);
      LinesGrow(trace[n-1].jobs, trace[n].jobs);
      forall i | 0 <= i < |trace[n-1].jobs| && i < |trace[n].jobs|
        && trace[n-1].jobs[i].state != trace[n].jobs[i].state
        ensures Lines(trace[n-1].jobs) < Lines(trace[n].jobs)
      {
        LinesGrowStrictly(trace[n-1].jobs, trace[n].jobs, i);
      }
    }
  }

  /** A job whose whole row of ranks is spent cannot move: what is left of a run is bounded by its potential. */
  lemma {:induction false} SpentIsFinal(trace: seq<System>, m: nat, n: nat, i: nat)
    requires Run(trace) && m <= n < |trace| && i < |trace[m].jobs| && Potential(trace[m].jobs[i]) == 0
    ensures i < |trace[n].jobs| && trace[n].jobs[i].state == trace[m].jobs[i].state
    ensures trace[n].jobs[i].history == trace[m].jobs[i].history
  {
    Finality(trace, m, n, i);
    RunKeepsInv(trace, n);
    assert Sound(trace[n].jobs[i]);
  }

  /** Reconcile never throws in a run: neither of its passes can be rejected, and it leaves no retryable
      failure, no live job with an expired lease and no ACTIVE job without its process. */
  lemma {:induction false} ReconcileInRuns(trace: seq<System>, n: nat, alive: set<int>, now: int)
    requires Run(trace) && n < |trace|
    ensures
      var jobs, next := trace[n].jobs, After(trace[n].jobs, Reconcile(alive, now), true);
      && Accepted(jobs, Reconcile(alive, now), true) && |next| == |jobs|
      && forall i :: 0 <= i < |jobs| ==> Reconciled(jobs[i], next[i], alive, now)
  {
    RunKeepsInv(trace, n);
    ReconcileTotal(trace[n].jobs, alive, now);
  }
}
