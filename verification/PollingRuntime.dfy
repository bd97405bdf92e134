/** The polling runtime: one timer or one sync at a time for each repository, with back-off after failures. */
module PollingRuntime {
  import opened Common

  const MIN_POLL_INTERVAL_MS: int := 10_000
  const TRANSIENT_BACKOFF_START_MS: int := 30_000
  const MAX_BACKOFF_MS: int := 15 * 60_000

  /** A host timer set for longer than this fires after one millisecond. */
  const LONGEST_TIMER_MS: int := 0x7fff_ffff

  /** The last time that has a timestamp: a later one is no date, and rendering it throws. */
  const LAST_TIMESTAMP: int := 8_640_000_000_000_000

  datatype FailureType = AUTHENTICATION | AUTHORIZATION | RATE_LIMIT | UNKNOWN | OTHER

  /** A failed sync: how it failed, and the hints of a rate limit (seconds to wait, time of the reset). */
  datatype Failure = Failure(failureType: FailureType, retryAfter: Option<int>, resetAt: Option<int>)

  /** How an error other than a sync failure counts, such as a timestamp that cannot be rendered. */
  const UNEXPECTED := Failure(UNKNOWN, None, None)

  datatype Phase = IDLE | SYNCING | BACKOFF | BLOCKED

  /** `timer` is when the armed callback is due. */
  datatype Repo = Repo(
    name: string, phase: Phase, consecutiveFailures: nat, failureType: Option<FailureType>,
    lastAttemptedAt: Option<int>, lastSuccessfulAt: Option<int>, nextAttemptAt: Option<int>, timer: Option<int>)

  datatype Runtime = Runtime(
    repos: seq<Repo>, inflight: set<string>, running: bool, shuttingDown: bool, startedAt: Option<int>)

  function Pow2(n: nat): (r: int)
    ensures r >= 1
  {
    if n == 0 then 1 else 2 * Pow2(n - 1)
  }

  predicate AuthBlocked(f: Failure) { f.failureType.AUTHENTICATION? || f.failureType.AUTHORIZATION? }

  function RetryDelay(f: Failure): int { if f.retryAfter.None? then 0 else Max(0, f.retryAfter.value * 1000) }
  function ResetDelay(f: Failure, now: int): int { if f.resetAt.None? then 0 else Max(0, f.resetAt.value - now) }

  predicate Hinted(f: Failure, now: int) { f.failureType.RATE_LIMIT? && (RetryDelay(f) > 0 || ResetDelay(f, now) > 0) }

  function TransientDelay(failures: nat): int {
    Min(MAX_BACKOFF_MS, TRANSIENT_BACKOFF_START_MS * Pow2(if failures == 0 then 0 else failures - 1))
  }

  function FailureDelay(poll: int, f: Failure, failures: nat, now: int): int {
    if AuthBlocked(f) then Max(poll, MAX_BACKOFF_MS)
    else if Hinted(f, now) then Max(Max(RetryDelay(f), ResetDelay(f, now)), MIN_POLL_INTERVAL_MS)
    else TransientDelay(failures)
  }

  /** When a timer set now for `delay` fires. */
  function Due(now: int, delay: int): int { now + if 1 <= delay <= LONGEST_TIMER_MS then delay else 1 }

  // ---------------------------------------------------------------- the steps

  function Begun(r: Repo, now: int): Repo {
    r.(timer := None, nextAttemptAt := None, phase := SYNCING, lastAttemptedAt := Some(now))
  }

  function Begin(rt: Runtime, i: nat, now: int): Runtime
    requires i < |rt.repos|
  {
    if !rt.running || rt.shuttingDown || rt.repos[i].name in rt.inflight then rt
    else rt.(repos := rt.repos[i := Begun(rt.repos[i], now)], inflight := rt.inflight + {rt.repos[i].name})
  }

  function BeginFrom(rt: Runtime, i: nat, now: int): (next: Runtime)
    ensures |next.repos| == |rt.repos|
    decreases |rt.repos| - i
  {
    if i >= |rt.repos| then rt else BeginFrom(Begin(rt, i, now), i + 1, now)
  }

  /** The time after a wait has a timestamp. */
  predicate Reaches(now: int, delay: int) { now + delay <= LAST_TIMESTAMP }

  predicate Active(rt: Runtime) { rt.running && !rt.shuttingDown }

  /** Arming the next poll; None where rendering its time throws, before the timer is set. */
  function Scheduled(r: Repo, active: bool, delay: int, now: int): Option<Repo> {
    if !active then Some(r.(nextAttemptAt := None))
    else if !Reaches(now, delay) then None
    else Some(r.(nextAttemptAt := Some(now + delay), timer := Some(Due(now, delay))))
  }

  /** A failed sync: the failure is recorded and the next poll scheduled, if it can be. */
  function Failing(r: Repo, active: bool, f: Failure, poll: int, now: int): Repo {
    var recorded := r.(consecutiveFailures := r.consecutiveFailures + 1, failureType := Some(f.failureType),
                       phase := if AuthBlocked(f) then BLOCKED else BACKOFF);
    var next := Scheduled(recorded, active, FailureDelay(poll, f, recorded.consecutiveFailures, now), now);
    if next.Some? then next.value else recorded
  }

  /** A successful sync: a next poll that cannot be scheduled makes it count as a failure after all. */
  function Succeeding(r: Repo, active: bool, poll: int, now: int): Repo {
    var recorded := r.(phase := IDLE, lastSuccessfulAt := Some(now), consecutiveFailures := 0, failureType := None);
    var next := Scheduled(recorded, active, poll, now);
    if next.Some? then next.value else Failing(recorded, active, UNEXPECTED, poll, now)
  }

  /** A sync ends: its repository has its new state and is no longer in flight. */
  function Ended(rt: Runtime, i: nat, r: Repo): Runtime
    requires i < |rt.repos|
  {
    rt.(repos := rt.repos[i := r], inflight := rt.inflight - {r.name})
  }

  function Succeed(rt: Runtime, i: nat, poll: int, now: int): Runtime
    requires i < |rt.repos|
  {
    Ended(rt, i, Succeeding(rt.repos[i], Active(rt), poll, now))
  }

  function Fail(rt: Runtime, i: nat, f: Failure, poll: int, now: int): Runtime
    requires i < |rt.repos|
  {
    Ended(rt, i, Failing(rt.repos[i], Active(rt), f, poll, now))
  }

  function Cleared(repos: seq<Repo>): (cleared: seq<Repo>)
    ensures |cleared| == |repos|
    ensures forall i :: 0 <= i < |repos| ==> cleared[i] == repos[i].(timer := None, nextAttemptAt := None)
  {
    seq(|repos|, i requires 0 <= i < |repos| => repos[i].(timer := None, nextAttemptAt := None))
  }

  function StopRequest(rt: Runtime): Runtime {
    if rt.shuttingDown then rt else rt.(shuttingDown := true, repos := Cleared(rt.repos))
  }

  // ------------------------------------------------------------- the runtime

  class IssuePollingRuntime {
    const poll: int
    var repos: seq<Repo>
    var inflight: set<string>
    var running: bool
    var shuttingDown: bool
    var startedAt: Option<int>

    /** The runtime's state as a value. */
    function View(): Runtime
      reads this
    {
      Runtime(repos, inflight, running, shuttingDown, startedAt)
    }

    constructor (names: seq<string>, poll: int)
      requires poll >= MIN_POLL_INTERVAL_MS
      ensures this.poll == poll && View() == Initial(names)
    {
      this.poll := poll;
      repos := Initial(names).repos;
      inflight, running, shuttingDown, startedAt := {}, false, false, None;
    }

    method BeginPoll(i: nat, now: int)
      requires i < |repos|
      modifies this
      ensures View() == Begin(old(View()), i, now)
    {
      if !running || shuttingDown || repos[i].name in inflight { return; }
      repos := repos[i := Begun(repos[i], now)];
      inflight := inflight + {repos[i].name};
    }

    method Start(now: int) returns (ok: bool)
      modifies this
      ensures ok == !(old(running) || old(shuttingDown))
      ensures View() == if ok then Started(old(View()), now) else old(View())
    {
      if running || shuttingDown { return false; }
      running, startedAt := true, Some(now);
      ghost var whole := View();
      for i := 0 to |repos|
        invariant |repos| == |whole.repos|
        invariant BeginFrom(View(), i, now) == BeginFrom(whole, 0, now)
      {
        BeginPoll(i, now);
      }
      ok := true;
    }

    /** Arms the next poll, or fails before arming it where its time has no timestamp. */
    method Schedule(i: nat, delay: int, now: int) returns (ok: bool)
      requires i < |repos|
      modifies this`repos
      ensures
        var next := Scheduled(old(repos[i]), Active(old(View())), delay, now);
        ok == next.Some? && repos == if ok then old(repos)[i := next.value] else old(repos)
    {
      if !running || shuttingDown {
        repos := repos[i := repos[i].(nextAttemptAt := None)];
        return true;
      }
      if !Reaches(now, delay) { return false; }
      repos := repos[i := repos[i].(nextAttemptAt := Some(now + delay))];
      repos := repos[i := repos[i].(timer := Some(Due(now, delay)))];
      return true;
    }

    method Succeeded(i: nat, now: int)
      requires i < |repos|
      modifies this
      ensures View() == Succeed(old(View()), i, poll, now)
    {
      repos := repos[i := repos[i].(phase := IDLE, lastSuccessfulAt := Some(now))];
      repos := repos[i := repos[i].(consecutiveFailures := 0, failureType := None)];
      var ok := Schedule(i, poll, now);
      if !ok { Failed(i, UNEXPECTED, now); }
      inflight := inflight - {repos[i].name};
    }

    method Failed(i: nat, f: Failure, now: int)
      requires i < |repos|
      modifies this
      ensures View() == Fail(old(View()), i, f, poll, now)
    {
      repos := repos[i := repos[i].(consecutiveFailures := repos[i].consecutiveFailures + 1)];
      repos := repos[i := repos[i].(failureType := Some(f.failureType))];
      repos := repos[i := repos[i].(phase := if AuthBlocked(f) then BLOCKED else BACKOFF)];
      var ok := Schedule(i, FailureDelay(poll, f, repos[i].consecutiveFailures, now), now);
      inflight := inflight - {repos[i].name};
    }

    method RequestStop()
      modifies this
      ensures View() == StopRequest(old(View()))
    {
      if shuttingDown { return; }
      shuttingDown := true;
      for i := 0 to |repos|
        invariant |repos| == |old(repos)|
        invariant forall k :: 0 <= k < i ==> repos[k] == old(repos)[k].(timer := None, nextAttemptAt := None)
        invariant forall k :: i <= k < |repos| ==> repos[k] == old(repos)[k]
        invariant inflight == old(inflight) && running == old(running) && shuttingDown && startedAt == old(startedAt)
      {
        repos := repos[i := repos[i].(timer := None)];
        repos := repos[i := repos[i].(nextAttemptAt := None)];
      }
      assert repos == Cleared(old(repos));
    }

    method FinishStop()
      modifies this
      ensures View() == old(View()).(running := false)
    {
      running := false;
    }
  }

  function Initial(names: seq<string>): Runtime {
    Runtime(seq(|names|, i requires 0 <= i < |names| => Repo(names[i], IDLE, 0, None, None, None, None, None)), {},
            false, false, None)
  }

  function Started(rt: Runtime, now: int): Runtime { BeginFrom(rt.(running := true, startedAt := Some(now)), 0, now) }

  // -------------------------------------------------------------------- runs

  datatype Event =
    | StartCall | TimerFires(i: nat) | SyncSucceeds(i: nat) | SyncFails(i: nat, failure: Failure) | StopCall | StopEnds

  /** An event and when it happens. */
  datatype Moment = Moment(event: Event, at: int)

  function Apply(rt: Runtime, m: Moment, poll: int): Runtime {
    match m.event
    case StartCall => if rt.running || rt.shuttingDown then rt else Started(rt, m.at)
    case TimerFires(i) => if i < |rt.repos| then Begin(rt, i, m.at) else rt
    case SyncSucceeds(i) => if i < |rt.repos| then Succeed(rt, i, poll, m.at) else rt
    case SyncFails(i, f) => if i < |rt.repos| then Fail(rt, i, f, poll, m.at) else rt
    case StopCall => StopRequest(rt)
    case StopEnds => rt.(running := false)
  }

  /** Timers fire only when armed and due, syncs end only while in flight, and stopping ends when none is. */
  predicate Enabled(rt: Runtime, m: Moment) {
    match m.event
    case StartCall => true
    case TimerFires(i) => i < |rt.repos| && rt.repos[i].timer.Some? && rt.repos[i].timer.value <= m.at
    case SyncSucceeds(i) => i < |rt.repos| && rt.repos[i].name in rt.inflight
    case SyncFails(i, _) => i < |rt.repos| && rt.repos[i].name in rt.inflight
    case StopCall => true
    case StopEnds => rt.shuttingDown && rt.inflight == {}
  }

  /** The state after a list of moments. */
  function After(names: seq<string>, poll: int, run: seq<Moment>): Runtime {
    if |run| == 0 then Initial(names) else Apply(After(names, poll, run[..|run|-1]), run[|run|-1], poll)
  }

  /** A run of a runtime over distinct repositories, in the order of a clock that shows dates and does not go back. */
  predicate IsRun(names: seq<string>, poll: int, run: seq<Moment>) {
    && poll >= MIN_POLL_INTERVAL_MS
    && (forall i, k :: 0 <= i < k < |names| ==> names[i] != names[k])
    && Ordered(names, poll, run)
  }

  predicate Ordered(names: seq<string>, poll: int, run: seq<Moment>) {
    |run| == 0 ||
    (var before := run[..|run|-1];
     var m := run[|run|-1];
     && Ordered(names, poll, before)
     && Enabled(After(names, poll, before), m) && -LAST_TIMESTAMP <= m.at <= LAST_TIMESTAMP
     && (|before| > 0 ==> before[|before|-1].at <= m.at))
  }

  // ------------------------------------------------------------ the invariant

  predicate Armed(r: Repo) { r.timer.Some? }

  /** A repository never has both a sync in flight and a timer armed, and no timer unless the runtime is active; a
      timer is never due before its repository's last start. */
  predicate RepoInv(rt: Runtime, i: nat)
    requires i < |rt.repos|
  {
    var r := rt.repos[i];
    && (r.name in rt.inflight ==> !Armed(r)) && (!Active(rt) ==> !Armed(r) && r.nextAttemptAt.None?)
    && (r.name in rt.inflight ==> r.phase.SYNCING? && r.lastAttemptedAt.Some? && r.nextAttemptAt.None?)
    && (Armed(r) ==> r.nextAttemptAt.Some? && r.lastAttemptedAt.Some? && r.timer.value > r.lastAttemptedAt.value)
  }

  predicate Inv(rt: Runtime, now: Option<int>) {
    && (forall i, k :: 0 <= i < k < |rt.repos| ==> rt.repos[i].name != rt.repos[k].name)
    && (forall i :: 0 <= i < |rt.repos| ==> RepoInv(rt, i))
    && (!rt.running ==> rt.inflight == {})
    && (forall i :: 0 <= i < |rt.repos| && rt.repos[i].lastAttemptedAt.Some? ==>
          now.Some? && rt.repos[i].lastAttemptedAt.value <= now.value)
  }

  lemma {:induction false} BeginFromIs(rt: Runtime, i: nat, now: int)
    requires i <= |rt.repos| && rt.running && !rt.shuttingDown
    requires forall a, b :: 0 <= a < b < |rt.repos| ==> rt.repos[a].name != rt.repos[b].name
    requires forall k :: i <= k < |rt.repos| ==> rt.repos[k].name !in rt.inflight
    ensures
      var next := BeginFrom(rt, i, now);
      && next == rt.(repos := next.repos, inflight := next.inflight)
      && (forall k :: 0 <= k < i ==> next.repos[k] == rt.repos[k])
      && (forall k :: i <= k < |rt.repos| ==>
            next.repos[k] == Begun(rt.repos[k], now) && rt.repos[k].name in next.inflight)
      && (forall k :: 0 <= k < i ==> (rt.repos[k].name in next.inflight <==> rt.repos[k].name in rt.inflight))
    decreases |rt.repos| - i
  {
    if i < |rt.repos| { BeginFromIs(Begin(rt, i, now), i + 1, now); }
  }

  lemma {:induction false} StartKeepsInv(rt: Runtime, now: Option<int>, at: int)
    requires Inv(rt, now) && (now.Some? ==> now.value <= at) && !rt.running && !rt.shuttingDown
    ensures Inv(Started(rt, at), Some(at))
  {
    BeginFromIs(rt.(running := true, startedAt := Some(at)), 0, at);
  }

  /** What the end of a sync makes of its repository: at most one timer, set from now on. */
  predicate Ends(rt: Runtime, r: Repo, r': Repo, now: int) {
    && r'.name == r.name && r'.lastAttemptedAt == r.lastAttemptedAt && r'.nextAttemptAt.Some? == Armed(r')
    && (Armed(r') ==> Active(rt) && r'.timer.value > now)
  }

  lemma {:induction false} EndKeepsInv(rt: Runtime, now: Option<int>, i: nat, r: Repo, at: int)
    requires Inv(rt, now) && (now.Some? ==> now.value <= at) && i < |rt.repos| && rt.repos[i].name in rt.inflight
    requires Ends(rt, rt.repos[i], r, at)
    ensures Inv(Ended(rt, i, r), Some(at))
  {
    var next := Ended(rt, i, r);
    forall k | 0 <= k < |next.repos| ensures RepoInv(next, k) { assert RepoInv(rt, k); }
  }

  lemma {:induction false} FireKeepsInv(rt: Runtime, now: Option<int>, i: nat, at: int)
    requires Inv(rt, now) && (now.Some? ==> now.value <= at) && i < |rt.repos| && Armed(rt.repos[i])
    ensures Inv(Begin(rt, i, at), Some(at))
  {
    assert RepoInv(rt, i);
    var next := Begin(rt, i, at);
    forall k | 0 <= k < |next.repos| ensures RepoInv(next, k) { assert RepoInv(rt, k); }
  }

  lemma {:induction false} StepKeepsInv(rt: Runtime, now: Option<int>, m: Moment, poll: int)
    requires Inv(rt, now) && (now.Some? ==> now.value <= m.at) && Enabled(rt, m)
    ensures Inv(Apply(rt, m, poll), Some(m.at))
  {
    match m.event
    case StartCall =>
      if !rt.running && !rt.shuttingDown { StartKeepsInv(rt, now, m.at); }
    case TimerFires(i) => FireKeepsInv(rt, now, i, m.at);
    case SyncSucceeds(i) =>
      assert RepoInv(rt, i);
      EndKeepsInv(rt, now, i, Succeeding(rt.repos[i], Active(rt), poll, m.at), m.at);
    case SyncFails(i, f) =>
      assert RepoInv(rt, i);
      EndKeepsInv(rt, now, i, Failing(rt.repos[i], Active(rt), f, poll, m.at), m.at);
    case StopCall =>
      forall k | 0 <= k < |rt.repos| ensures RepoInv(StopRequest(rt), k) { assert RepoInv(rt, k); }
    case StopEnds =>
      forall k | 0 <= k < |rt.repos| ensures RepoInv(rt.(running := false), k) { assert RepoInv(rt, k); }
  }

  function LastTime(run: seq<Moment>): Option<int> { if |run| == 0 then None else Some(run[|run|-1].at) }

  lemma {:induction false} RunKeepsInv(names: seq<string>, poll: int, run: seq<Moment>)
    requires IsRun(names, poll, run)
    ensures Inv(After(names, poll, run), LastTime(run))
    ensures |After(names, poll, run).repos| == |names|
    ensures forall i :: 0 <= i < |names| ==> After(names, poll, run).repos[i].name == names[i]
    decreases |run|
  {
    if |run| > 0 {
      var before, m := run[..|run|-1], run[|run|-1];
      RunKeepsInv(names, poll, before);
      var rt := After(names, poll, before);
      StepKeepsInv(rt, LastTime(before), m, poll);
      NamesKept(rt, m, poll);
    }
  }

  lemma {:induction false} NamesKept(rt: Runtime, m: Moment, poll: int)
    ensures |Apply(rt, m, poll).repos| == |rt.repos|
    ensures forall i :: 0 <= i < |rt.repos| ==> Apply(rt, m, poll).repos[i].name == rt.repos[i].name
  {
    if m.event.StartCall? && !rt.running && !rt.shuttingDown {
      BeginKeepsNames(rt.(running := true, startedAt := Some(m.at)), 0, m.at);
    }
  }

  lemma {:induction false} BeginKeepsNames(rt: Runtime, i: nat, now: int)
    ensures forall k :: 0 <= k < |rt.repos| ==> BeginFrom(rt, i, now).repos[k].name == rt.repos[k].name
    decreases |rt.repos| - i
  {
    if i < |rt.repos| { BeginKeepsNames(Begin(rt, i, now), i + 1, now); }
  }

  // ------------------------------------------------------- failures and strandings

  predicate StopRequested(run: seq<Moment>) { exists n :: 0 <= n < |run| && run[n].event.StopCall? }

  /** What a moment adds to the failures of repository i. */
  function Counted(poll: int, before: seq<Moment>, m: Moment, i: nat, failures: nat): nat {
    match m.event
    case SyncSucceeds(k) => if k != i then failures else if StopRequested(before) || Reaches(m.at, poll) then 0 else 1
    case SyncFails(k, _) => failures + if k == i then 1 else 0
    case _ => failures
  }

  /** The failures of repository i since its last success; a success whose next poll has no timestamp counts as
      one. */
  function Streak(poll: int, run: seq<Moment>, i: nat): nat {
    if |run| == 0 then 0
    else
      var before, m := run[..|run|-1], run[|run|-1];
      Counted(poll, before, m, i, Streak(poll, before, i))
  }

  /** The moment ends a sync of repository i whose next poll cannot be scheduled: after a success neither by the
      interval nor by the first back-off, after a failure not by its delay. */
  predicate Strands(poll: int, before: seq<Moment>, m: Moment, i: nat) {
    !StopRequested(before) &&
    match m.event
    case SyncSucceeds(k) => k == i && !Reaches(m.at, poll) && !Reaches(m.at, TRANSIENT_BACKOFF_START_MS)
    case SyncFails(k, f) => k == i && !Reaches(m.at, FailureDelay(poll, f, Streak(poll, before, i) + 1, m.at))
    case _ => false
  }

  /** Some moment of the run has stranded repository i. */
  predicate Stranded(poll: int, run: seq<Moment>, i: nat) {
    |run| > 0 && (Stranded(poll, run[..|run|-1], i) || Strands(poll, run[..|run|-1], run[|run|-1], i))
  }

  lemma {:induction false} StopIsKnown(names: seq<string>, poll: int, run: seq<Moment>)
    requires IsRun(names, poll, run)
    ensures After(names, poll, run).shuttingDown <==> StopRequested(run)
    decreases |run|
  {
    if |run| > 0 {
      var before, m := run[..|run|-1], run[|run|-1];
      StopIsKnown(names, poll, before);
      RunKeepsInv(names, poll, before);
      assert StopRequested(run) <==> StopRequested(before) || m.event.StopCall? by {
        if StopRequested(before) {
          var n :| 0 <= n < |before| && before[n].event.StopCall?;
          assert run[n].event.StopCall?;
        }
        if StopRequested(run) && !m.event.StopCall? {
          var n :| 0 <= n < |run| && run[n].event.StopCall?;
          assert before[n].event.StopCall?;
        }
      }
      var rt := After(names, poll, before);
      if m.event.StartCall? && !rt.running && !rt.shuttingDown {
        BeginFromIs(rt.(running := true, startedAt := Some(m.at)), 0, m.at);
      }
    }
  }

  lemma {:induction false} StepCounts(rt: Runtime, now: Option<int>, m: Moment, poll: int, before: seq<Moment>, i: nat)
    requires Inv(rt, now) && Enabled(rt, m) && i < |rt.repos| && (rt.shuttingDown <==> StopRequested(before))
    ensures |Apply(rt, m, poll).repos| == |rt.repos|
    ensures Apply(rt, m, poll).repos[i].consecutiveFailures ==
            Counted(poll, before, m, i, rt.repos[i].consecutiveFailures)
  {
    if m.event.StartCall? && !rt.running && !rt.shuttingDown {
      BeginFromIs(rt.(running := true, startedAt := Some(m.at)), 0, m.at);
    }
  }

  lemma {:induction false} CountsFailures(names: seq<string>, poll: int, run: seq<Moment>, i: nat)
    requires IsRun(names, poll, run) && i < |names|
    ensures |After(names, poll, run).repos| == |names|
    ensures After(names, poll, run).repos[i].consecutiveFailures == Streak(poll, run, i)
    decreases |run|
  {
    if |run| > 0 {
      var before, m := run[..|run|-1], run[|run|-1];
      CountsFailures(names, poll, before, i);
      StopIsKnown(names, poll, before);
      RunKeepsInv(names, poll, before);
      StepCounts(After(names, poll, before), LastTime(before), m, poll, before, i);
    }
  }

  // ------------------------------------------------------------ main results

  /** A stranded repository has neither a sync in flight nor a timer; any other repository of an active runtime has
      one of the two, and before the runtime is started none is stranded. */
  predicate Accounted(rt: Runtime, i: nat, stranded: bool)
    requires i < |rt.repos|
  {
    var inFlight, armed := rt.repos[i].name in rt.inflight, Armed(rt.repos[i]);
    && (stranded ==> !inFlight && !armed) && (Active(rt) && !stranded ==> inFlight || armed)
    && (!rt.running && !rt.shuttingDown ==> !stranded)
  }

  lemma {:induction false} RunAccounts(names: seq<string>, poll: int, run: seq<Moment>, i: nat)
    requires IsRun(names, poll, run) && i < |names|
    ensures |After(names, poll, run).repos| == |names|
    ensures Accounted(After(names, poll, run), i, Stranded(poll, run, i))
    decreases |run|
  {
    RunKeepsInv(names, poll, run);
    if |run| > 0 {
      var before, m := run[..|run|-1], run[|run|-1];
      RunAccounts(names, poll, before, i);
      RunKeepsInv(names, poll, before);
      CountsFailures(names, poll, before, i);
      StopIsKnown(names, poll, before);
      StepAccounts(names, poll, before, m, i);
    }
  }

  lemma {:induction false} StepAccounts(names: seq<string>, poll: int, before: seq<Moment>, m: Moment, i: nat)
    requires i < |names| == |After(names, poll, before).repos| && Enabled(After(names, poll, before), m)
    requires Inv(After(names, poll, before), LastTime(before))
    requires Accounted(After(names, poll, before), i, Stranded(poll, before, i))
    requires After(names, poll, before).repos[i].consecutiveFailures == Streak(poll, before, i)
    requires After(names, poll, before).shuttingDown <==> StopRequested(before)
    ensures
      var rt := Apply(After(names, poll, before), m, poll);
      |rt.repos| == |names| && Accounted(rt, i, Stranded(poll, before, i) || Strands(poll, before, m, i))
  {
    var rt := After(names, poll, before);
    NamesKept(rt, m, poll);
    assert RepoInv(rt, i);
    if m.event.StartCall? && !rt.running && !rt.shuttingDown {
      BeginFromIs(rt.(running := true, startedAt := Some(m.at)), 0, m.at);
    }
  }

  /** In every run a repository of an active runtime never has both a sync in flight and an armed timer, and it has
      exactly one of them if and only if every end of a sync so far has left its next attempt a timestamp. */
  lemma {:induction false} ExactlyOne(names: seq<string>, poll: int, run: seq<Moment>, i: nat)
    requires IsRun(names, poll, run) && i < |names|
    ensures
      var rt := After(names, poll, run);
      && |rt.repos| == |names|
      && !(names[i] in rt.inflight && Armed(rt.repos[i]))
      && (Active(rt) ==> (names[i] in rt.inflight || Armed(rt.repos[i]) <==> !Stranded(poll, run, i)))
      && (!Active(rt) ==> !Armed(rt.repos[i])) && (!rt.running ==> rt.inflight == {})
  {
    RunKeepsInv(names, poll, run);
    RunAccounts(names, poll, run, i);
    assert RepoInv(After(names, poll, run), i);
  }

  /** What strands a repository, by poll interval, hints and clock, up to a quarter of an hour before the last
      timestamp: an authentication failure with too long an interval, or too long a hint. A success never does. */
  lemma {:induction false} StrandsExactly(poll: int, before: seq<Moment>, m: Moment, i: nat)
    requires m.at + MAX_BACKOFF_MS <= LAST_TIMESTAMP && !StopRequested(before)
    ensures Strands(poll, before, m, i) <==>
              && m.event.SyncFails? && m.event.i == i
              && ((AuthBlocked(m.event.failure) && m.at + poll > LAST_TIMESTAMP)
                  || (Hinted(m.event.failure, m.at)
                      && (m.at + RetryDelay(m.event.failure) > LAST_TIMESTAMP
                          || m.at + ResetDelay(m.event.failure, m.at) > LAST_TIMESTAMP)))
  {
  }

  lemma {:induction false} StrandedStays(poll: int, run: seq<Moment>, later: seq<Moment>, i: nat)
    requires Stranded(poll, run, i)
    ensures Stranded(poll, run + later, i)
    decreases |later|
  {
    if |later| == 0 {
      assert run + later == run;
    } else {
      assert (run + later)[..|run + later| - 1] == run + later[..|later|-1];
      StrandedStays(poll, run, later[..|later|-1], i);
    }
  }

  /** A stranded repository is never polled again, whatever happens to the runtime. */
  lemma {:induction false} StrandedForGood(names: seq<string>, poll: int, run: seq<Moment>, later: seq<Moment>, i: nat)
    requires IsRun(names, poll, run + later) && i < |names| && Stranded(poll, run, i)
    ensures
      var rt := After(names, poll, run + later);
      |rt.repos| == |names| && names[i] !in rt.inflight && !Armed(rt.repos[i])
  {
    StrandedStays(poll, run, later, i);
    RunAccounts(names, poll, run + later, i);
    RunKeepsInv(names, poll, run + later);
  }

  /** Whether a moment starts a sync of a repository. */
  predicate Starts(rt: Runtime, m: Moment, poll: int, name: string) {
    name !in rt.inflight && name in Apply(rt, m, poll).inflight
  }

  /** The waits that a host timer can keep. */
  predicate WithinTimer(m: Moment) {
    m.event.SyncFails? && Hinted(m.event.failure, m.at) ==>
      RetryDelay(m.event.failure) <= LONGEST_TIMER_MS && ResetDelay(m.event.failure, m.at) <= LONGEST_TIMER_MS
  }

  lemma {:induction false} DelayIsLong(poll: int, f: Failure, failures: nat, now: int)
    requires poll >= MIN_POLL_INTERVAL_MS
    ensures FailureDelay(poll, f, failures, now) >= MIN_POLL_INTERVAL_MS
    ensures FailureDelay(poll, f, failures, now) <= LONGEST_TIMER_MS <==>
              && (AuthBlocked(f) ==> poll <= LONGEST_TIMER_MS)
              && (Hinted(f, now) ==> RetryDelay(f) <= LONGEST_TIMER_MS && ResetDelay(f, now) <= LONGEST_TIMER_MS)
  {
  }

  /** The three ranges of a wait after a failure. The retry comes at least ten seconds later if and only if the wait
      fits a host timer and ends at a timestamp; a longer one that ends at a timestamp is over after one millisecond;
      and after a wait that ends at none the retry never comes. The wait fits a host timer unless the interval or a
      hint is longer. */
  lemma {:induction false} WaitIsKeptExactly(r: Repo, f: Failure, poll: int, now: int)
    requires poll >= MIN_POLL_INTERVAL_MS && !Armed(r)
    ensures
      var delay := FailureDelay(poll, f, r.consecutiveFailures + 1, now);
      var timer := Failing(r, true, f, poll, now).timer;
      && (timer.Some? && timer.value >= now + MIN_POLL_INTERVAL_MS <==>
            delay <= LONGEST_TIMER_MS && Reaches(now, delay))
      && (timer == Some(now + 1) <==> delay > LONGEST_TIMER_MS && Reaches(now, delay))
      && (timer.None? <==> !Reaches(now, delay))
      && (delay <= LONGEST_TIMER_MS <==>
            && (AuthBlocked(f) ==> poll <= LONGEST_TIMER_MS)
            && (Hinted(f, now) ==> RetryDelay(f) <= LONGEST_TIMER_MS && ResetDelay(f, now) <= LONGEST_TIMER_MS))
  {
    DelayIsLong(poll, f, r.consecutiveFailures + 1, now);
  }

  /** The three ranges of the wait after a success. As long as the time after the interval has a timestamp, the next
      poll comes at least ten seconds later if and only if the interval fits a host timer, and after one millisecond
      if and only if it does not. Past the last timestamp the success counts as a failure, and the next poll comes
      after the first back-off, or, if that has no timestamp either, never. */
  lemma {:induction false} IntervalIsKeptExactly(r: Repo, poll: int, now: int)
    requires poll >= MIN_POLL_INTERVAL_MS && !Armed(r)
    ensures
      var timer := Succeeding(r, true, poll, now).timer;
      && (Reaches(now, poll) ==>
            timer.Some? && (timer.value >= now + MIN_POLL_INTERVAL_MS <==> poll <= LONGEST_TIMER_MS))
      && (timer == Some(now + 1) <==> Reaches(now, poll) && poll > LONGEST_TIMER_MS)
      && (timer == Some(now + TRANSIENT_BACKOFF_START_MS) <==>
            if Reaches(now, poll) then poll == TRANSIENT_BACKOFF_START_MS
            else Reaches(now, TRANSIENT_BACKOFF_START_MS))
      && (timer.None? <==> !Reaches(now, poll) && !Reaches(now, TRANSIENT_BACKOFF_START_MS))
  {
    assert Pow2(0) == 1;
  }

  /** An armed timer is due at least ten seconds after the last start. */
  predicate Spaced(rt: Runtime) {
    forall i :: 0 <= i < |rt.repos| && Armed(rt.repos[i]) && rt.repos[i].lastAttemptedAt.Some? ==>
      rt.repos[i].timer.value >= rt.repos[i].lastAttemptedAt.value + MIN_POLL_INTERVAL_MS
  }

  lemma {:induction false} StepKeepsSpaced(rt: Runtime, now: Option<int>, m: Moment, poll: int)
    requires Inv(rt, now) && (now.Some? ==> now.value <= m.at) && Enabled(rt, m) && Spaced(rt)
    requires MIN_POLL_INTERVAL_MS <= poll <= LONGEST_TIMER_MS && WithinTimer(m)
    ensures Spaced(Apply(rt, m, poll))
  {
    if m.event.StartCall? && !rt.running && !rt.shuttingDown {
      BeginFromIs(rt.(running := true, startedAt := Some(m.at)), 0, m.at);
    } else if m.event.SyncFails? {
      var i := m.event.i;
      assert RepoInv(rt, i);
      DelayIsLong(poll, m.event.failure, rt.repos[i].consecutiveFailures + 1, m.at);
    } else if m.event.SyncSucceeds? {
      assert RepoInv(rt, m.event.i);
    }
  }

  lemma {:induction false} RunKeepsSpaced(names: seq<string>, poll: int, run: seq<Moment>)
    requires IsRun(names, poll, run) && poll <= LONGEST_TIMER_MS
    requires forall n :: 0 <= n < |run| ==> WithinTimer(run[n])
    ensures Spaced(After(names, poll, run))
    decreases |run|
  {
    if |run| > 0 {
      var before, m := run[..|run|-1], run[|run|-1];
      forall n | 0 <= n < |before| ensures WithinTimer(before[n]) { assert before[n] == run[n]; }
      RunKeepsSpaced(names, poll, before);
      RunKeepsInv(names, poll, before);
      StepKeepsSpaced(After(names, poll, before), LastTime(before), m, poll);
    }
  }

  /** Two starts for one repository are at least ten seconds apart in every run whose waits a host timer can keep. */
  lemma {:induction false} StartsAreSpaced(names: seq<string>, poll: int, run: seq<Moment>, m: Moment, i: nat)
    requires IsRun(names, poll, run + [m]) && poll <= LONGEST_TIMER_MS && i < |names|
    requires forall n :: 0 <= n < |run| ==> WithinTimer(run[n])
    requires Starts(After(names, poll, run), m, poll, names[i])
    ensures
      var rt := After(names, poll, run);
      && !rt.shuttingDown && (rt.running || m.event.StartCall?)
      && |rt.repos| == |names|
      && (rt.repos[i].lastAttemptedAt.Some? ==> m.at >= rt.repos[i].lastAttemptedAt.value + MIN_POLL_INTERVAL_MS)
  {
    assert (run + [m])[..|run|] == run;
    RunKeepsInv(names, poll, run);
    RunKeepsSpaced(names, poll, run);
    FirstStart(names, poll, run);
    var rt := After(names, poll, run);
    if m.event.TimerFires? { assert rt.repos[m.event.i].name == names[i] ==> m.event.i == i; }
    assert RepoInv(rt, i);
  }

  /** Before the runtime has run there was no start. */
  lemma {:induction false} FirstStart(names: seq<string>, poll: int, run: seq<Moment>)
    requires IsRun(names, poll, run)
    ensures
      var rt := After(names, poll, run);
      !rt.running && !rt.shuttingDown ==> forall i :: 0 <= i < |rt.repos| ==> rt.repos[i].lastAttemptedAt.None?
    decreases |run|
  {
    if |run| > 0 {
      FirstStart(names, poll, run[..|run|-1]);
      RunKeepsInv(names, poll, run[..|run|-1]);
      var rt, m := After(names, poll, run[..|run|-1]), run[|run|-1];
      if m.event.StartCall? && !rt.running && !rt.shuttingDown {
        BeginFromIs(rt.(running := true, startedAt := Some(m.at)), 0, m.at);
      }
    }
  }

  /** A rate limit that asks for a wait of a month is retried after a millisecond. */
  lemma {:induction false} LongWaitFiresAtOnce()
    ensures
      var failure := Failure(RATE_LIMIT, Some(3_000_000), None);
      var run := [Moment(StartCall, 0), Moment(SyncFails(0, failure), 0)];
      && IsRun(["a"], MIN_POLL_INTERVAL_MS, run + [Moment(TimerFires(0), 1)])
      && Starts(After(["a"], MIN_POLL_INTERVAL_MS, run), Moment(TimerFires(0), 1), MIN_POLL_INTERVAL_MS, "a")
      && After(["a"], MIN_POLL_INTERVAL_MS, run).repos[0].lastAttemptedAt == Some(0)
  {
    var failure := Failure(RATE_LIMIT, Some(3_000_000), None);
    var names, r1 := ["a"], [Moment(StartCall, 0)];
    var r2 := [Moment(StartCall, 0), Moment(SyncFails(0, failure), 0)];
    var r3 := r2 + [Moment(TimerFires(0), 1)];
    assert r2[..1] == r1 && r3[..2] == r2;
    var s1 := StartedOne(MIN_POLL_INTERVAL_MS);
    assert After(names, MIN_POLL_INTERVAL_MS, r2) == Fail(s1, 0, failure, MIN_POLL_INTERVAL_MS, 0);
    assert Ordered(names, MIN_POLL_INTERVAL_MS, r2);
    assert Ordered(names, MIN_POLL_INTERVAL_MS, r3);
  }

  /** With an interval that no host timer can keep, such as 2147483648 ms, the sync after a successful one starts a
      millisecond later. */
  lemma {:induction false} LongIntervalFiresAtOnce(poll: int)
    requires LONGEST_TIMER_MS < poll <= LAST_TIMESTAMP
    ensures
      var run := [Moment(StartCall, 0), Moment(SyncSucceeds(0), 0)];
      && IsRun(["a"], poll, run + [Moment(TimerFires(0), 1)])
      && Starts(After(["a"], poll, run), Moment(TimerFires(0), 1), poll, "a")
      && After(["a"], poll, run).repos[0].lastAttemptedAt == Some(0)
      && After(["a"], poll, run).repos[0].nextAttemptAt == Some(poll)
  {
    var names, r1 := ["a"], [Moment(StartCall, 0)];
    var r2 := [Moment(StartCall, 0), Moment(SyncSucceeds(0), 0)];
    var r3 := r2 + [Moment(TimerFires(0), 1)];
    assert r2[..1] == r1 && r3[..2] == r2;
    var s1 := StartedOne(poll);
    assert After(names, poll, r2) == Succeed(s1, 0, poll, 0);
    assert Ordered(names, poll, r2);
    assert Ordered(names, poll, r3);
  }

  /** The next attempt after a wait, unless that time has no timestamp. */
  function Until(at: int, wait: int): Option<int> {
    if at + wait <= 8_640_000_000_000_000 then Some(at + wait) else None
  }

  /** How long a host rate limit asks to wait: the longer of its two hints, or not at all. */
  function Asked(f: Failure, at: int): int {
    var seconds := if f.retryAfter.Some? && f.retryAfter.value > 0 then f.retryAfter.value else 0;
    var reset := if f.resetAt.Some? && f.resetAt.value > at then f.resetAt.value - at else 0;
    Max(1000 * seconds, reset)
  }

  /** How long is waited after n failures in a row: a quarter of an hour at least after a refused login, as long as a
      rate limit asks, at least ten seconds, and otherwise 30, 60, 120, 240, 480 and then 900 seconds. */
  function WaitAfter(poll: int, f: Failure, n: nat, at: int): int {
    if f.failureType in {AUTHENTICATION, AUTHORIZATION} then Max(poll, 900_000)
    else if f.failureType.RATE_LIMIT? && Asked(f, at) > 0 then Max(10_000, Asked(f, at))
    else if n <= 1 then 30_000 else if n == 2 then 60_000 else if n == 3 then 120_000 else if n == 4 then 240_000
    else if n == 5 then 480_000 else 900_000
  }

  lemma {:induction false} PowersDouble(n: nat)
    ensures n == 0 ==> Pow2(n) == 1
    ensures n == 1 ==> Pow2(n) == 2
    ensures n == 2 ==> Pow2(n) == 4
    ensures n == 3 ==> Pow2(n) == 8
    ensures n == 4 ==> Pow2(n) == 16
    ensures n >= 5 ==> Pow2(n) >= 32
  {
    if n > 0 { PowersDouble(n - 1); }
  }

  lemma {:induction false} DelayIsExact(poll: int, f: Failure, n: nat, at: int)
    requires n >= 1
    ensures FailureDelay(poll, f, n, at) == WaitAfter(poll, f, n, at)
  {
    PowersDouble(n - 1);
  }

  /** After a failure an active repository is blocked, if its login was refused, or backs off, and its failures since
      the last success count one more. It waits as `WaitAfter` says. Where the wait has no timestamp there is neither
      a next attempt nor a timer; otherwise the timer is set for the wait, or for a millisecond when the wait is
      longer than a host timer. */
  lemma {:induction false} BackoffIsExact(names: seq<string>, poll: int, run: seq<Moment>, i: nat, f: Failure, at: int)
    requires i < |names|
    requires IsRun(names, poll, run + [Moment(SyncFails(i, f), at)]) && Active(After(names, poll, run))
    ensures |After(names, poll, run + [Moment(SyncFails(i, f), at)]).repos| == |names|
    ensures
      var later := run + [Moment(SyncFails(i, f), at)];
      var n, r := Streak(poll, later, i), After(names, poll, later).repos[i];
      && n == Streak(poll, run, i) + 1 && r.consecutiveFailures == n && r.failureType == Some(f.failureType)
      && (r.phase == if f.failureType in {AUTHENTICATION, AUTHORIZATION} then BLOCKED else BACKOFF)
      && r.nextAttemptAt == Until(at, WaitAfter(poll, f, n, at))
      && (r.timer == if r.nextAttemptAt.None? then None
                     else if r.nextAttemptAt.value - at <= 2_147_483_647 then r.nextAttemptAt else Some(at + 1))
  {
    var m := Moment(SyncFails(i, f), at);
    assert (run + [m])[..|run|] == run;
    CountsFailures(names, poll, run, i);
    CountsFailures(names, poll, run + [m], i);
    RunKeepsInv(names, poll, run);
    assert RepoInv(After(names, poll, run), i);
    DelayIsExact(poll, f, Streak(poll, run, i) + 1, at);
    DelayIsLong(poll, f, Streak(poll, run, i) + 1, at);
  }

  /** A success counts as one if and only if its next poll has a timestamp; otherwise it counts as a first failure of
      unknown kind, and is retried after 30 seconds, if at all. The timer is set for the next attempt, or for a
      millisecond when the wait is longer than a host timer. */
  lemma {:induction false} SuccessCountsExactly(names: seq<string>, poll: int, run: seq<Moment>, i: nat, at: int)
    requires i < |names|
    requires IsRun(names, poll, run + [Moment(SyncSucceeds(i), at)]) && Active(After(names, poll, run))
    ensures |After(names, poll, run + [Moment(SyncSucceeds(i), at)]).repos| == |names|
    ensures
      var r := After(names, poll, run + [Moment(SyncSucceeds(i), at)]).repos[i];
      && (r.consecutiveFailures == 0 <==> at + poll <= LAST_TIMESTAMP) && r.lastSuccessfulAt == Some(at)
      && (at + poll <= LAST_TIMESTAMP ==> r.phase.IDLE? && r.failureType.None? && r.nextAttemptAt == Some(at + poll))
      && (at + poll > LAST_TIMESTAMP ==>
            && r.consecutiveFailures == 1 && r.phase.BACKOFF? && r.failureType == Some(UNKNOWN)
            && r.nextAttemptAt == Until(at, 30_000))
      && (r.timer == if r.nextAttemptAt.None? then None
                     else if r.nextAttemptAt.value - at <= LONGEST_TIMER_MS then r.nextAttemptAt else Some(at + 1))
  {
    var m := Moment(SyncSucceeds(i), at);
    assert (run + [m])[..|run|] == run;
    RunKeepsInv(names, poll, run);
    assert RepoInv(After(names, poll, run), i);
    assert Pow2(0) == 1;
  }

  /** A rate limit that asks for ten million million seconds leaves a running repository without a sync and without a
      timer, for good. */
  lemma {:induction false} EndlessWaitIsNeverRetried(later: seq<Moment>)
    requires
      var failure := Failure(RATE_LIMIT, Some(10_000_000_000_000), None);
      IsRun(["a"], MIN_POLL_INTERVAL_MS, [Moment(StartCall, 0), Moment(SyncFails(0, failure), 0)] + later)
    ensures
      var failure := Failure(RATE_LIMIT, Some(10_000_000_000_000), None);
      var run := [Moment(StartCall, 0), Moment(SyncFails(0, failure), 0)];
      var rt := After(["a"], MIN_POLL_INTERVAL_MS, run + later);
      && IsRun(["a"], MIN_POLL_INTERVAL_MS, run) && Active(After(["a"], MIN_POLL_INTERVAL_MS, run))
      && |rt.repos| == 1 && "a" !in rt.inflight && !Armed(rt.repos[0])
  {
    var failure := Failure(RATE_LIMIT, Some(10_000_000_000_000), None);
    var r1 := [Moment(StartCall, 0)];
    var run := [Moment(StartCall, 0), Moment(SyncFails(0, failure), 0)];
    var started := StartedOne(MIN_POLL_INTERVAL_MS);
    assert run[..1] == r1 && !StopRequested(r1);
    assert Strands(MIN_POLL_INTERVAL_MS, r1, run[1], 0);
    assert Stranded(MIN_POLL_INTERVAL_MS, run, 0);
    assert Ordered(["a"], MIN_POLL_INTERVAL_MS, run);
    assert After(["a"], MIN_POLL_INTERVAL_MS, run) == Fail(started, 0, failure, MIN_POLL_INTERVAL_MS, 0);
    StrandedForGood(["a"], MIN_POLL_INTERVAL_MS, run, later, 0);
  }

  /** The runtime of one repository right after its start at time 0. */
  lemma {:induction false} StartedOne(poll: int) returns (rt: Runtime)
    ensures rt == After(["a"], poll, [Moment(StartCall, 0)])
    ensures rt == Runtime([Repo("a", SYNCING, 0, None, Some(0), None, None, None)], {"a"}, true, false, Some(0))
    ensures Ordered(["a"], poll, [Moment(StartCall, 0)])
  {
    var run := [Moment(StartCall, 0)];
    assert run[..0] == [];
    var s0 := After(["a"], poll, run[..0]);
    assert s0.repos == [Repo("a", IDLE, 0, None, None, None, None, None)];
    BeginFromIs(s0.(running := true, startedAt := Some(0)), 0, 0);
    rt := Started(s0, 0);
    assert rt.repos == [Repo("a", SYNCING, 0, None, Some(0), None, None, None)];
    assert rt.inflight == {"a"};
  }

  /** Once stopping has begun no sync starts and no timer is armed, whatever happens; once it has ended nothing is in
      flight either. */
  lemma {:induction false} NothingAfterStop(names: seq<string>, poll: int, run: seq<Moment>, later: seq<Moment>)
    requires IsRun(names, poll, run + later) && |run| > 0
    requires run[|run|-1].event.StopCall? || run[|run|-1].event.StopEnds?
    ensures
      var rt := After(names, poll, run + later);
      && rt.shuttingDown
      && (forall i :: 0 <= i < |rt.repos| ==> !Armed(rt.repos[i]))
      && rt.inflight <= After(names, poll, run).inflight
      && (run[|run|-1].event.StopEnds? ==> !rt.running && rt.inflight == {})
    decreases |later|
  {
    RunKeepsInv(names, poll, run + later);
    var rt := After(names, poll, run + later);
    forall i | 0 <= i < |rt.repos| ensures rt.shuttingDown ==> !Armed(rt.repos[i]) { assert RepoInv(rt, i); }
    if |later| == 0 {
      assert run + later == run;
    } else {
      var before := later[..|later|-1];
      assert (run + later)[..|run + later| - 1] == run + before;
      NothingAfterStop(names, poll, run, before);
    }
  }
}
