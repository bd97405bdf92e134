/** The watchdog: classifies what it sees and works through bounded recovery actions for each incident. */
module Watchdog {
  import opened Common
  import opened SelfCommissioning

  const STALE_MS: int := 15 * 60_000
  const RESTART_LIMIT: int := 3
  const COOLDOWN_MS: int := 30 * 60_000
  const DAILY_CODEX_LIMIT: int := 3
  const DAY_MS: int := 86_400_000

  datatype Failure =
    | HealthOrServiceDown | WatcherDown | ReadinessStaleBlocked | RunStale | ActorLost | DispatchFailure
    | CodexFailure | RevisionMismatch | StateCorruption | RestoreFailure | UnknownFailure | CodeFixRequired

  datatype Classification = AtRest | Watching | RunningWithActor | AwaitingHuman | Failing(failure: Failure)

  datatype Observation = Observation(
    lccServiceActive: bool, watcherServiceActive: bool, healthReady: bool, watcherState: Option<string>,
    watcherUpdatedAt: Option<int>, productionRevision: Option<string>, expectedRevision: Option<string>,
    stateReadable: bool, restoreFailed: bool, codeFixRequired: bool, unknownFailure: bool, runs: seq<Run>)

  // ---------------------------------------------------------- classification

  function Lower(c: char): char { if 'A' <= c <= 'Z' then c - 'A' + 'a' else c }

  /** Case-insensitive search for a lower-case word. */
  predicate Mentions(text: Option<string>, word: string) {
    text.Some? && exists i :: 0 <= i <= |text.value| - |word| && SpelledAt(text.value, word, i)
  }

  predicate SpelledAt(text: string, word: string, i: int) {
    0 <= i <= |text| - |word| && forall k :: 0 <= k < |word| ==> Lower(text[i + k]) == word[k]
  }

  predicate Old(at: int, now: int) { now - at >= STALE_MS }

  predicate LongBlocked(r: Run, now: int) { r.status.Blocked? && Old(r.updatedAt, now) }

  predicate Lost(r: Run) { r.status.Running? && (r.activeActor.None? || r.activeExecutionId.None?) }

  function Classify(o: Observation, now: int): Classification {
    if !o.stateReadable then Failing(StateCorruption)
    else if o.restoreFailed then Failing(RestoreFailure)
    else if !o.lccServiceActive || !o.healthReady then Failing(HealthOrServiceDown)
    else if !o.watcherServiceActive then Failing(WatcherDown)
    else if o.watcherUpdatedAt.Some? && Old(o.watcherUpdatedAt.value, now) then Failing(WatcherDown)
    else if o.watcherState == Some("DEGRADED") then Failing(DispatchFailure)
    else if NonEmpty(o.expectedRevision) && o.productionRevision != o.expectedRevision then Failing(RevisionMismatch)
    else if o.codeFixRequired then Failing(CodeFixRequired)
    else if o.unknownFailure then Failing(UnknownFailure)
    else if exists r :: r in o.runs && Lost(r) then Failing(ActorLost)
    else if exists r :: r in o.runs && r.status.Running? && Old(r.updatedAt, now) then Failing(RunStale)
    else if exists r :: r in o.runs && LongBlocked(r, now) && Mentions(r.blocker, "codex") then Failing(CodexFailure)
    else if exists r :: r in o.runs && LongBlocked(r, now) && Mentions(r.blocker, "dispatch") then
      Failing(DispatchFailure)
    else if exists r :: r in o.runs && LongBlocked(r, now) then Failing(ReadinessStaleBlocked)
    else if exists r :: r in o.runs && r.status.Running? then RunningWithActor
    else if exists r :: r in o.runs && r.status.WaitingHuman? then AwaitingHuman
    else if o.watcherState == Some("WATCHING") then Watching
    else AtRest
  }

  predicate Normal(c: Classification) { !c.Failing? }

  // --------------------------------------------------------------- incidents

  predicate Recoverable(r: Run) { r.status.Blocked? && NonEmpty(r.failedStep) && NonEmpty(r.blocker) }

  /** The recoverable run that was updated last; of several, the first. */
  function RecoverableRun(runs: seq<Run>): (found: Option<Run>)
    ensures found.None? <==> forall r :: r in runs ==> !Recoverable(r)
    ensures found.Some? ==> found.value in runs && Recoverable(found.value)
    ensures found.Some? ==> forall r :: r in runs && Recoverable(r) ==> r.updatedAt <= found.value.updatedAt
  {
    if |runs| == 0 then None
    else
      var rest := RecoverableRun(runs[1..]);
      assert forall r :: r in runs <==> r == runs[0] || r in runs[1..];
      if Recoverable(runs[0]) && (rest.None? || rest.value.updatedAt <= runs[0].updatedAt) then Some(runs[0]) else rest
  }

  /** What identifies an incident: a hash of exactly these values. */
  datatype Fingerprint = Fingerprint(
    failure: Failure, runId: string, revision: Option<Revision>, production: Option<string>, expected: Option<string>)

  function Text(s: Option<string>): Option<string> { if s == Some("") then None else s }

  function IncidentFingerprint(failure: Failure, o: Observation): Fingerprint {
    var run := RecoverableRun(o.runs);
    Fingerprint(failure, if run.Some? then run.value.runId else "",
                if run.Some? then Some(FailureRevision(run.value)) else None,
                Text(o.productionRevision), Text(o.expectedRevision))
  }

  datatype Incident = Incident(
    fingerprint: Fingerprint, firstSeenAt: int, lastSeenAt: int, restartAttempts: nat,
    formalRecoveryAttempted: bool, codexAttempted: bool, blocked: bool, actions: seq<string>)

  datatype Delivery = Delivery(fingerprint: Fingerprint, commentId: string)

  datatype Decision = Decision(at: int, classification: Classification, fingerprint: Option<Fingerprint>)

  datatype Snapshot = Snapshot(
    incidents: seq<Incident>, codexAttempts: seq<int>, deliveries: seq<Delivery>, lastDecision: Option<Decision>)

  const EMPTY: Snapshot := Snapshot([], [], [], None)

  /** The first incident with a fingerprint, or |incidents|. */
  function IncidentIndex(incidents: seq<Incident>, f: Fingerprint): (i: nat)
    ensures i <= |incidents|
    ensures i < |incidents| ==> incidents[i].fingerprint == f
    ensures forall k :: 0 <= k < i ==> incidents[k].fingerprint != f
  {
    FirstIndex(incidents, (x: Incident) => x.fingerprint == f)
  }

  predicate Known(s: Snapshot, f: Fingerprint) { IncidentIndex(s.incidents, f) < |s.incidents| }

  function IncidentOf(s: Snapshot, f: Fingerprint): (i: Incident)
    requires Known(s, f)
    ensures i.fingerprint == f && i in s.incidents
  {
    s.incidents[IncidentIndex(s.incidents, f)]
  }

  function Put(s: Snapshot, i: Incident): Snapshot
    requires Known(s, i.fingerprint)
  {
    s.(incidents := s.incidents[IncidentIndex(s.incidents, i.fingerprint) := i])
  }

  function Noted(s: Snapshot, f: Fingerprint, now: int): (s': Snapshot)
    ensures Known(s', f)
  {
    var i := IncidentIndex(s.incidents, f);
    var noted := s.(lastDecision := Some(Decision(now, Failing(f.failure), Some(f))));
    if i < |s.incidents| then
      var next := Put(noted, s.incidents[i].(lastSeenAt := now));
      assert next.incidents[i].fingerprint == f;
      next
    else
      var added := Incident(f, now, now, 0, false, false, false, []);
      var next := noted.(incidents := s.incidents + [added]);
      assert next.incidents[i].fingerprint == f;
      next
  }

  // -------------------------------------------------------------- one round

  /** The clock readings of one round, in order: for the classification, for everything that is recorded, for the
      second classification, for the day's attempts, for the cooldown, and for pruning the attempts. A filter's
      readings are one. */
  datatype Clock = Clock(classified: int, noted: int, again: int, windowed: int, cooled: int, pruned: int) {
    predicate Ticking() { classified <= noted <= again <= windowed <= cooled <= pruned }
  }

  datatype Service = ControlCenter | CommissionWatcher

  datatype Effect =
    | Restart(fingerprint: Fingerprint, service: Service, key: nat)
    | FormalRecovery(fingerprint: Fingerprint, runId: string, expectedFailure: Revision)
    | Codex(fingerprint: Fingerprint, at: int, windowed: int, cooled: int)
    | Report(fingerprint: Fingerprint, actions: seq<string>)

  /** A call to the outside; it is recorded when it answered and its record could be written. */
  datatype Call = Call(effect: Effect, recorded: bool)

  datatype ActionResult = ActionResult(ok: bool, summary: string)

  /** What the outside says in one round: None where it throws or the record cannot be written. */
  datatype World = World(
    first: Observation, noted: bool, restart: Option<ActionResult>, second: Option<Observation>,
    recovery: Option<ActionResult>, codex: Option<ActionResult>, report: Option<string>)

  datatype Action =
    | NoAction | BlockedWithEvidence | RestartRestored | RestartAttempted | FormallyRecovered | CodexCooldown
    | CodexRecovery | Thrown

  datatype Outcome = Outcome(snapshot: Snapshot, calls: seq<Call>, action: Action)

  predicate Restartable(f: Failure) { f.HealthOrServiceDown? || f.WatcherDown? || f.RestoreFailure? }

  predicate FormallyRecoverable(f: Failure) {
    !f.UnknownFailure? && !f.CodeFixRequired? && !f.StateCorruption? && !f.RevisionMismatch?
  }

  predicate ForCodex(f: Failure) { f.UnknownFailure? || f.CodeFixRequired? }

  function ServiceFor(f: Failure): Service { if f.WatcherDown? then CommissionWatcher else ControlCenter }

  function ServiceName(service: Service): string {
    match service
    case ControlCenter => "luckountry-control-center.service"
    case CommissionWatcher => "luckountry-commission-watcher.service"
  }

  /** The lines that recorded actions leave on their incident. */
  function RestartLine(f: Failure, summary: string): string {
    "L2 restart " + ServiceName(ServiceFor(f)) + ": " + summary
  }

  function RecoveryLine(summary: string): string { "L3 formal recovery: " + summary }

  function RepairLine(summary: string): string { "L4 Codex recovery: " + summary }

  function LastTen(lines: seq<string>): seq<string> { if |lines| > 10 then lines[|lines|-10..] else lines }

  /** The attempts of the last day. */
  function Recent(attempts: seq<int>, now: int): seq<int> {
    if |attempts| == 0 then []
    else (if now - attempts[0] < DAY_MS then [attempts[0]] else []) + Recent(attempts[1..], now)
  }

  function BlockAndReport(s: Snapshot, calls: seq<Call>, f: Fingerprint, w: World): Outcome
    requires Known(s, f)
  {
    if exists d :: d in s.deliveries && d.fingerprint == f && d.commentId != "" then
      Outcome(s, calls, BlockedWithEvidence)
    else
      var report := Report(f, LastTen(IncidentOf(s, f).actions));
      if w.report.None? then Outcome(s, calls + [Call(report, false)], Thrown)
      else
        var blocked := Put(s, IncidentOf(s, f).(blocked := true));
        Outcome(blocked.(deliveries := s.deliveries + [Delivery(f, w.report.value)]), calls + [Call(report, true)],
                BlockedWithEvidence)
  }

  function Attempted(f: Fingerprint, t: Clock): Effect { Codex(f, t.noted, t.windowed, t.cooled) }

  function TryCodex(s: Snapshot, calls: seq<Call>, f: Fingerprint, t: Clock, w: World): Outcome
    requires Known(s, f)
  {
    var recent := Recent(s.codexAttempts, t.windowed);
    if !ForCodex(f.failure) || IncidentOf(s, f).codexAttempted || |recent| >= DAILY_CODEX_LIMIT then
      BlockAndReport(s, calls, f, w)
    else if |recent| > 0 && t.cooled - recent[|recent|-1] < COOLDOWN_MS then Outcome(s, calls, CodexCooldown)
    else if w.codex.None? then Outcome(s, calls + [Call(Attempted(f, t), false)], Thrown)
    else
      var i := IncidentOf(s, f);
      var s' := Put(s, i.(codexAttempted := true, actions := i.actions + [RepairLine(w.codex.value.summary)])).(
                  codexAttempts := Recent(s.codexAttempts, t.pruned) + [t.noted]);
      assert s'.incidents[IncidentIndex(s.incidents, f)].fingerprint == f;
      var calls' := calls + [Call(Attempted(f, t), true)];
      if w.codex.value.ok then Outcome(s', calls', CodexRecovery) else BlockAndReport(s', calls', f, w)
  }

  function Escalate(s: Snapshot, calls: seq<Call>, f: Fingerprint, t: Clock, w: World): Outcome
    requires Known(s, f)
  {
    var i := IncidentOf(s, f);
    var run := RecoverableRun(w.first.runs);
    if i.formalRecoveryAttempted || run.None? || !FormallyRecoverable(f.failure) then TryCodex(s, calls, f, t, w)
    else
      var effect := FormalRecovery(f, run.value.runId, FailureRevision(run.value));
      if w.recovery.None? then Outcome(s, calls + [Call(effect, false)], Thrown)
      else
        var s' := Put(s, i.(formalRecoveryAttempted := true,
                            actions := i.actions + [RecoveryLine(w.recovery.value.summary)]));
        assert s'.incidents[IncidentIndex(s.incidents, f)].fingerprint == f;
        if w.recovery.value.ok then Outcome(s', calls + [Call(effect, true)], FormallyRecovered)
        else TryCodex(s', calls + [Call(effect, true)], f, t, w)
  }

  /** A round on an incident that is noted and not blocked. */
  function Handle(s: Snapshot, f: Fingerprint, t: Clock, w: World): Outcome
    requires Known(s, f)
  {
    var i := IncidentOf(s, f);
    if !Restartable(f.failure) || i.restartAttempts >= RESTART_LIMIT then Escalate(s, [], f, t, w)
    else
      var effect := Restart(f, ServiceFor(f.failure), i.restartAttempts + 1);
      if w.restart.None? then Outcome(s, [Call(effect, false)], Thrown)
      else
        var s' := Put(s, i.(restartAttempts := i.restartAttempts + 1,
                            actions := i.actions + [RestartLine(f.failure, w.restart.value.summary)]));
        assert s'.incidents[IncidentIndex(s.incidents, f)].fingerprint == f;
        var calls := [Call(effect, true)];
        if w.second.None? then Outcome(s', calls, Thrown)
        else if Normal(Classify(w.second.value, t.again)) then Outcome(s', calls, RestartRestored)
        else if i.restartAttempts + 1 < RESTART_LIMIT then Outcome(s', calls, RestartAttempted)
        else Escalate(s', calls, f, t, w)
  }

  function Round(s: Snapshot, t: Clock, w: World): Outcome {
    var c := Classify(w.first, t.classified);
    if !w.noted then Outcome(s, [], Thrown)
    else if Normal(c) then Outcome(s.(lastDecision := Some(Decision(t.noted, c, None))), [], NoAction)
    else
      var f := IncidentFingerprint(c.failure, w.first);
      var s' := Noted(s, f, t.noted);
      if IncidentOf(s', f).blocked then Outcome(s', [], BlockedWithEvidence) else Handle(s', f, t, w)
  }

  class SelfCommissioningWatchdog {
    var value: Snapshot

    constructor ()
      ensures value == EMPTY
    {
      value := EMPTY;
    }

    /** The last two levels: a bounded repair, then the report. */
    method RepairOrReport(f: Fingerprint, before: seq<Call>, t: Clock, w: World)
      returns (calls: seq<Call>, action: Action)
      requires Known(value, f)
      modifies this
      ensures Outcome(value, calls, action) == TryCodex(old(value), before, f, t, w)
    {
      var incident := IncidentOf(value, f);
      calls := before;
      if ForCodex(f.failure) && !incident.codexAttempted {
        var recent := Recent(value.codexAttempts, t.windowed);
        if |recent| < DAILY_CODEX_LIMIT && |recent| > 0 && t.cooled - recent[|recent|-1] < COOLDOWN_MS {
          return calls, CodexCooldown;
        }
        if |recent| < DAILY_CODEX_LIMIT {
          if w.codex.None? { return calls + [Call(Attempted(f, t), false)], Thrown; }
          incident := Record(f, incident.(codexAttempted := true), RepairLine(w.codex.value.summary));
          value := value.(codexAttempts := Recent(value.codexAttempts, t.pruned) + [t.noted]);
          calls := calls + [Call(Attempted(f, t), true)];
          if w.codex.value.ok { return calls, CodexRecovery; }
        }
      }
      calls, action := PostReport(f, calls, w);
    }

    /** The formal recovery of a blocked run, once per incident; when it does not help, the last two levels. */
    method RecoverOrRepair(f: Fingerprint, before: seq<Call>, t: Clock, w: World)
      returns (calls: seq<Call>, action: Action)
      requires Known(value, f)
      modifies this
      ensures Outcome(value, calls, action) == Escalate(old(value), before, f, t, w)
    {
      var incident := IncidentOf(value, f);
      calls := before;
      var run := RecoverableRun(w.first.runs);
      if !incident.formalRecoveryAttempted && run.Some? && FormallyRecoverable(f.failure) {
        var effect := FormalRecovery(f, run.value.runId, FailureRevision(run.value));
        if w.recovery.None? { return calls + [Call(effect, false)], Thrown; }
        incident := Record(f, incident.(formalRecoveryAttempted := true), RecoveryLine(w.recovery.value.summary));
        calls := calls + [Call(effect, true)];
        if w.recovery.value.ok { return calls, FormallyRecovered; }
      }
      calls, action := RepairOrReport(f, calls, t, w);
    }

    /** One round: note the incident, then restart, recover, repair or report, each within its bound. */
    method RunOnce(t: Clock, w: World) returns (calls: seq<Call>, action: Action)
      modifies this
      ensures Outcome(value, calls, action) == Round(old(value), t, w)
    {
      var c := Classify(w.first, t.classified);
      calls := [];
      if !w.noted { return calls, Thrown; }
      if Normal(c) {
        value := value.(lastDecision := Some(Decision(t.noted, c, None)));
        return calls, NoAction;
      }
      var f := IncidentFingerprint(c.failure, w.first);
      value := Noted(value, f, t.noted);
      var incident := IncidentOf(value, f);
      if incident.blocked { return calls, BlockedWithEvidence; }
      if Restartable(c.failure) && incident.restartAttempts < RESTART_LIMIT {
        var effect := Restart(f, ServiceFor(c.failure), incident.restartAttempts + 1);
        if w.restart.None? { return [Call(effect, false)], Thrown; }
        incident := Record(f, incident.(restartAttempts := incident.restartAttempts + 1),
                           RestartLine(c.failure, w.restart.value.summary));
        calls := [Call(effect, true)];
        if w.second.None? { return calls, Thrown; }
        if Normal(Classify(w.second.value, t.again)) { return calls, RestartRestored; }
        if incident.restartAttempts < RESTART_LIMIT { return calls, RestartAttempted; }
      }
      calls, action := RecoverOrRepair(f, calls, t, w);
    }

    /** Posts the report of an incident, once, and closes it. */
    method PostReport(f: Fingerprint, before: seq<Call>, w: World) returns (calls: seq<Call>, action: Action)
      requires Known(value, f)
      modifies this
      ensures Outcome(value, calls, action) == BlockAndReport(old(value), before, f, w)
    {
      if exists d :: d in value.deliveries && d.fingerprint == f && d.commentId != "" {
        return before, BlockedWithEvidence;
      }
      var report := Report(f, LastTen(IncidentOf(value, f).actions));
      if w.report.None? { return before + [Call(report, false)], Thrown; }
      value := Put(value, IncidentOf(value, f).(blocked := true));
      value := value.(deliveries := value.deliveries + [Delivery(f, w.report.value)]);
      return before + [Call(report, true)], BlockedWithEvidence;
    }

    /** Replaces an incident by a changed one and adds a line about the action. */
    method Record(f: Fingerprint, changed: Incident, line: string) returns (incident: Incident)
      requires Known(value, f) && changed.fingerprint == f
      modifies this
      ensures incident == changed.(actions := changed.actions + [line])
      ensures value == Put(old(value), incident)
      ensures Known(value, f) && IncidentOf(value, f) == incident
    {
      incident := changed.(actions := changed.actions + [line]);
      assert IncidentIndex(Put(value, incident).incidents, f) == IncidentIndex(value.incidents, f) by {
        assert Put(value, incident).incidents[IncidentIndex(value.incidents, f)].fingerprint == f;
      }
      value := Put(value, incident);
    }
  }
}
