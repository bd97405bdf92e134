/** Which actions a round of the watchdog takes, and what it leaves behind. */
module WatchdogActions {
  import opened Common
  import opened SelfCommissioning
  import opened Watchdog
  import opened WatchdogRuns

  datatype Kind = Restarting | RecoveringRun | Repairing | Reporting

  /** A call by its kind, and whether it was recorded. */
  datatype Step = Step(kind: Kind, recorded: bool)

  function KindOf(e: Effect): Kind {
    match e
    case Restart(_, _, _) => Restarting
    case FormalRecovery(_, _, _) => RecoveringRun
    case Codex(_, _, _, _) => Repairing
    case Report(_, _) => Reporting
  }

  function Steps(calls: seq<Call>): (r: seq<Step>)
    ensures |r| == |calls|
    ensures forall k :: 0 <= k < |r| ==> r[k] == Step(KindOf(calls[k].effect), calls[k].recorded)
  {
    seq(|calls|, k requires 0 <= k < |calls| => Step(KindOf(calls[k].effect), calls[k].recorded))
  }

  function If(b: bool, step: Step): seq<Step> { if b then [step] else [] }

  function Line(b: bool, text: string): seq<string> { if b then [text] else [] }

  lemma {:induction false} OneMoreStep(calls: seq<Call>, c: Call)
    ensures Steps(calls + [c]) == Steps(calls) + [Step(KindOf(c.effect), c.recorded)]
  {
  }

  /** Nothing but this incident has changed, and of it only the counters and lines. */
  predicate Leaves(s: Snapshot, s': Snapshot, f: Fingerprint, restarts: nat, formal: bool, codex: bool, blocked: bool,
                   lines: seq<string>)
  {
    && Known(s, f) && Known(s', f) && s'.lastDecision == s.lastDecision
    && |s'.incidents| == |s.incidents|
    && (forall k :: 0 <= k < |s.incidents| && s.incidents[k].fingerprint != f ==> s'.incidents[k] == s.incidents[k])
    && var i, i' := IncidentOf(s, f), IncidentOf(s', f);
       && i'.firstSeenAt == i.firstSeenAt && i'.lastSeenAt == i.lastSeenAt
       && i'.restartAttempts == i.restartAttempts + restarts && i'.actions == i.actions + lines
       && (i'.formalRecoveryAttempted <==> i.formalRecoveryAttempted || formal)
       && (i'.codexAttempted <==> i.codexAttempted || codex) && (i'.blocked <==> i.blocked || blocked)
  }

  lemma {:induction false} PutLeaves(s: Snapshot, f: Fingerprint, i': Incident)
    requires Known(s, f) && i'.fingerprint == f
    ensures Known(Put(s, i'), f) && IncidentOf(Put(s, i'), f) == i'
    ensures |Put(s, i').incidents| == |s.incidents|
    ensures forall k :: 0 <= k < |s.incidents| && s.incidents[k].fingerprint != f ==>
              Put(s, i').incidents[k] == s.incidents[k]
    ensures forall k :: 0 <= k < |s.incidents| ==> Put(s, i').incidents[k].fingerprint == s.incidents[k].fingerprint
  {
    PutIs(s, i', f);
  }

  lemma {:induction false} LeavesNothing(s: Snapshot, f: Fingerprint)
    requires Known(s, f)
    ensures Leaves(s, s, f, 0, false, false, false, [])
  {
    assert IncidentOf(s, f).actions + [] == IncidentOf(s, f).actions;
  }

  lemma {:induction false} LeavesTrans(
    a: Snapshot, b: Snapshot, c: Snapshot, f: Fingerprint, r1: nat, r2: nat, formal1: bool, formal2: bool,
    codex1: bool, codex2: bool, blocked1: bool, blocked2: bool, l1: seq<string>, l2: seq<string>)
    requires Leaves(a, b, f, r1, formal1, codex1, blocked1, l1) && Leaves(b, c, f, r2, formal2, codex2, blocked2, l2)
    requires forall k :: 0 <= k < |a.incidents| ==> b.incidents[k].fingerprint == a.incidents[k].fingerprint
    ensures Leaves(a, c, f, r1 + r2, formal1 || formal2, codex1 || codex2, blocked1 || blocked2, l1 + l2)
  {
    assert IncidentOf(a, f).actions + (l1 + l2) == (IncidentOf(a, f).actions + l1) + l2;
  }

  // -------------------------------------------------------- when an action is due

  /** The action answered, and did not help. */
  predicate Failed(r: Option<ActionResult>) { r.Some? && !r.value.ok }

  function Said(r: Option<ActionResult>): string { if r.Some? then r.value.summary else "" }

  predicate RestartDue(s: Snapshot, f: Fingerprint)
    requires Known(s, f)
  {
    && (f.failure.HealthOrServiceDown? || f.failure.WatcherDown? || f.failure.RestoreFailure?)
    && IncidentOf(s, f).restartAttempts < 3
  }

  predicate RecoveryDue(s: Snapshot, f: Fingerprint, runs: seq<Run>)
    requires Known(s, f)
  {
    && !IncidentOf(s, f).formalRecoveryAttempted && (exists r :: r in runs && Stopped(r))
    && f.failure !in {UnknownFailure, CodeFixRequired, StateCorruption, RevisionMismatch}
  }

  predicate RepairAsked(s: Snapshot, f: Fingerprint, t: Clock)
    requires Known(s, f)
  {
    && (f.failure.UnknownFailure? || f.failure.CodeFixRequired?) && !IncidentOf(s, f).codexAttempted
    && |Recent(s.codexAttempts, t.windowed)| < 3
  }

  /** The last repair, of whatever incident, was less than half an hour ago. */
  predicate Cooling(s: Snapshot, t: Clock) {
    var recent := Recent(s.codexAttempts, t.windowed);
    |recent| > 0 && t.cooled - recent[|recent|-1] < 30 * 60_000
  }

  predicate Posted(s: Snapshot, f: Fingerprint) {
    exists d :: d in s.deliveries && d.fingerprint == f && d.commentId != ""
  }

  // ------------------------------------------------------------- what is taken

  /** The steps taken, and all that they leave behind. */
  predicate Took(
    s: Snapshot, before: seq<Call>, f: Fingerprint, o: Outcome, steps: seq<Step>, restarts: nat, formal: bool,
    codex: bool, blocked: bool, lines: seq<string>, attempts: seq<int>, deliveries: seq<Delivery>)
  {
    && Steps(o.calls) == Steps(before) + steps && Leaves(s, o.snapshot, f, restarts, formal, codex, blocked, lines)
    && (forall k :: 0 <= k < |s.incidents| ==> o.snapshot.incidents[k].fingerprint == s.incidents[k].fingerprint)
    && o.snapshot.codexAttempts == attempts && o.snapshot.deliveries == deliveries
  }

  /** The rest of a round after the given steps, which left the given counts and lines. If they settled the matter,
      the round ends with `settled`. Otherwise a repair that is asked for and does not have to wait is tried, and
      unless it helps or has to wait, the report is posted, if it has not been; that closes the incident. */
  predicate GoesOn(
    s: Snapshot, before: seq<Call>, f: Fingerprint, t: Clock, w: World, o: Outcome, steps: seq<Step>, restarts: nat,
    formal: bool, lines: seq<string>, on: bool, settled: Action)
    requires Known(s, f)
  {
    var asked := on && RepairAsked(s, f, t);
    var repair := asked && !Cooling(s, t);
    var report := on && (asked ==> repair && Failed(w.codex)) && !Posted(s, f);
    var repaired, posted := repair && w.codex.Some?, report && w.report.Some?;
    && Took(s, before, f, o,
            steps + If(repair, Step(Repairing, w.codex.Some?)) + If(report, Step(Reporting, w.report.Some?)),
            restarts, formal, repaired, posted, lines + Line(repaired, "L4 Codex recovery: " + Said(w.codex)),
            if repaired then Recent(s.codexAttempts, t.pruned) + [t.noted] else s.codexAttempts,
            if posted then s.deliveries + [Delivery(f, w.report.value)] else s.deliveries)
    && o.action == if !on then settled
                   else if asked && Cooling(s, t) then CodexCooldown
                   else if repair && w.codex.None? then Thrown
                   else if repair && w.codex.value.ok then CodexRecovery
                   else if report && w.report.None? then Thrown
                   else BlockedWithEvidence
  }

  lemma {:induction false} ReportTakes(s: Snapshot, before: seq<Call>, f: Fingerprint, w: World)
    requires Known(s, f)
    ensures
      var o, report := BlockAndReport(s, before, f, w), !Posted(s, f);
      var posted := report && w.report.Some?;
      && Took(s, before, f, o, If(report, Step(Reporting, w.report.Some?)), 0, false, false, posted, [],
              s.codexAttempts, if posted then s.deliveries + [Delivery(f, w.report.value)] else s.deliveries)
      && o.action == if report && w.report.None? then Thrown else BlockedWithEvidence
  {
    LeavesNothing(s, f);
    var i := IncidentOf(s, f);
    if Posted(s, f) {
      assert Steps(before) + [] == Steps(before);
    } else {
      OneMoreStep(before, Call(Report(f, LastTen(i.actions)), w.report.Some?));
      PutLeaves(s, f, i.(blocked := true));
      assert i.actions + [] == i.actions;
    }
  }

  /** The state after a recorded repair. */
  function AfterRepair(s: Snapshot, f: Fingerprint, t: Clock, summary: string): Snapshot
    requires Known(s, f)
  {
    var i := IncidentOf(s, f);
    Put(s, i.(codexAttempted := true, actions := i.actions + [RepairLine(summary)])).(
      codexAttempts := Recent(s.codexAttempts, t.pruned) + [t.noted])
  }

  lemma {:induction false} RepairLeaves(s: Snapshot, f: Fingerprint, t: Clock, summary: string)
    requires Known(s, f)
    ensures
      var s' := AfterRepair(s, f, t, summary);
      && Leaves(s, s', f, 0, false, true, false, ["L4 Codex recovery: " + summary])
      && (forall k :: 0 <= k < |s.incidents| ==> s'.incidents[k].fingerprint == s.incidents[k].fingerprint)
      && s'.codexAttempts == Recent(s.codexAttempts, t.pruned) + [t.noted] && s'.deliveries == s.deliveries
  {
    var i := IncidentOf(s, f);
    var i' := i.(codexAttempted := true, actions := i.actions + [RepairLine(summary)]);
    PutLeaves(s, f, i');
    assert IncidentOf(AfterRepair(s, f, t, summary), f) == i';
  }

  lemma {:induction false} FailedRepairTakes(s: Snapshot, before: seq<Call>, f: Fingerprint, t: Clock, w: World)
    requires Known(s, f) && RepairAsked(s, f, t) && !Cooling(s, t) && Failed(w.codex)
    ensures GoesOn(s, before, f, t, w, TryCodex(s, before, f, t, w), [], 0, false, [], true, NoAction)
  {
    var line := "L4 Codex recovery: " + w.codex.value.summary;
    var s', tried := AfterRepair(s, f, t, w.codex.value.summary), before + [Call(Attempted(f, t), true)];
    RepairLeaves(s, f, t, w.codex.value.summary);
    OneMoreStep(before, Call(Attempted(f, t), true));
    ReportTakes(s', tried, f, w);
    LeavesTrans(s, s', BlockAndReport(s', tried, f, w).snapshot, f, 0, 0, false, false, true, false, false,
                !Posted(s, f) && w.report.Some?, [line], []);
    assert [line] + [] == [line];
    assert TryCodex(s, before, f, t, w) == BlockAndReport(s', tried, f, w);
  }

  lemma {:induction false} OtherRepairTakes(s: Snapshot, before: seq<Call>, f: Fingerprint, t: Clock, w: World)
    requires Known(s, f) && RepairAsked(s, f, t) && (Cooling(s, t) || !Failed(w.codex))
    ensures GoesOn(s, before, f, t, w, TryCodex(s, before, f, t, w), [], 0, false, [], true, NoAction)
  {
    LeavesNothing(s, f);
    OneMoreStep(before, Call(Attempted(f, t), w.codex.Some?));
    if w.codex.Some? { RepairLeaves(s, f, t, w.codex.value.summary); }
  }

  lemma {:induction false} RepairTakes(s: Snapshot, before: seq<Call>, f: Fingerprint, t: Clock, w: World)
    requires Known(s, f)
    ensures GoesOn(s, before, f, t, w, TryCodex(s, before, f, t, w), [], 0, false, [], true, NoAction)
  {
    if !RepairAsked(s, f, t) {
      ReportTakes(s, before, f, w);
    } else if !Cooling(s, t) && Failed(w.codex) {
      FailedRepairTakes(s, before, f, t, w);
    } else {
      OtherRepairTakes(s, before, f, t, w);
    }
  }

  /** What goes on after the first steps of a round goes on after all of them. */
  lemma {:induction false} GoesOnAfter(
    s: Snapshot, m: Snapshot, before: seq<Call>, mid: seq<Call>, f: Fingerprint, t: Clock, w: World, o: Outcome,
    step: Step, steps: seq<Step>, r1: nat, r2: nat, formal1: bool, formal2: bool, line: string, lines: seq<string>,
    on: bool, settled: Action)
    requires Leaves(s, m, f, r1, formal1, false, false, [line])
    requires forall k :: 0 <= k < |s.incidents| ==> m.incidents[k].fingerprint == s.incidents[k].fingerprint
    requires m.codexAttempts == s.codexAttempts && m.deliveries == s.deliveries
    requires Steps(mid) == Steps(before) + [step]
    requires GoesOn(m, mid, f, t, w, o, steps, r2, formal2, lines, on, settled)
    ensures GoesOn(s, before, f, t, w, o, [step] + steps, r1 + r2, formal1 || formal2, [line] + lines, on, settled)
  {
    var asked := on && RepairAsked(m, f, t);
    var repair := asked && !Cooling(m, t);
    var report := on && (asked ==> repair && Failed(w.codex)) && !Posted(m, f);
    var repaired, posted := repair && w.codex.Some?, report && w.report.Some?;
    var l := Line(repaired, "L4 Codex recovery: " + Said(w.codex));
    LeavesTrans(s, m, o.snapshot, f, r1, r2, formal1, formal2, false, repaired, false, posted, [line], lines + l);
    Joins([line], lines, l);
    SameDue(s, m, f, t, r1, formal1, line);
    JoinsThree(Steps(before), [step], steps, If(repair, Step(Repairing, w.codex.Some?)),
               If(report, Step(Reporting, w.report.Some?)));
  }

  lemma {:induction false} Joins<T>(a: seq<T>, b: seq<T>, c: seq<T>)
    ensures a + (b + c) == (a + b) + c
  {
  }

  lemma {:induction false} JoinsThree<T>(a: seq<T>, b: seq<T>, c: seq<T>, d: seq<T>, e: seq<T>)
    ensures a + ((b + c) + d + e) == (a + b) + (c + d + e)
  {
  }

  /** A restart or a recovery does not change what a repair and the report go by. */
  lemma {:induction false} SameDue(
    s: Snapshot, m: Snapshot, f: Fingerprint, t: Clock, r: nat, formal: bool, line: string)
    requires Leaves(s, m, f, r, formal, false, false, [line])
    requires m.codexAttempts == s.codexAttempts && m.deliveries == s.deliveries
    ensures RepairAsked(s, f, t) == RepairAsked(m, f, t) && Cooling(s, t) == Cooling(m, t)
    ensures Posted(s, f) == Posted(m, f)
  {
  }

  /** Of the blocked runs that were updated last, the first. */
  predicate FirstLatest(runs: seq<Run>, k: nat) {
    && k < |runs| && Stopped(runs[k])
    && forall i :: 0 <= i < |runs| && Stopped(runs[i]) ==>
         if i < k then runs[i].updatedAt < runs[k].updatedAt else runs[i].updatedAt <= runs[k].updatedAt
  }

  /** Of several blocked runs that were updated last the first one is recovered. */
  lemma {:induction false} FirstOfTheLatest(runs: seq<Run>) returns (k: nat)
    requires exists r :: r in runs && Stopped(r)
    ensures FirstLatest(runs, k) && RecoverableRun(runs) == Some(runs[k])
  {
    var rest := RecoverableRun(runs[1..]);
    StoppedElsewhere(runs);
    if rest.Some? && !(Recoverable(runs[0]) && rest.value.updatedAt <= runs[0].updatedAt) {
      k := FirstOfTheLatest(runs[1..]);
      LatestLater(runs, k);
      k := k + 1;
    } else {
      k := 0;
      LatestFirst(runs);
    }
  }

  lemma {:induction false} LatestLater(runs: seq<Run>, k: nat)
    requires |runs| > 0 && FirstLatest(runs[1..], k)
    requires Stopped(runs[0]) ==> runs[0].updatedAt < runs[k+1].updatedAt
    ensures FirstLatest(runs, k + 1)
  {
    forall i | 0 <= i < |runs| && Stopped(runs[i])
      ensures if i < k + 1 then runs[i].updatedAt < runs[k+1].updatedAt else runs[i].updatedAt <= runs[k+1].updatedAt
    {
      if i > 0 { assert runs[1..][i-1] == runs[i]; }
    }
  }

  lemma {:induction false} LatestFirst(runs: seq<Run>)
    requires |runs| > 0 && Stopped(runs[0])
    requires var rest := RecoverableRun(runs[1..]); rest.None? || rest.value.updatedAt <= runs[0].updatedAt
    ensures FirstLatest(runs, 0)
  {
    forall i | 1 <= i < |runs| && Stopped(runs[i]) ensures runs[i].updatedAt <= runs[0].updatedAt {
      assert runs[1..][i-1] == runs[i] && Recoverable(runs[i]);
    }
  }

  lemma {:induction false} StoppedElsewhere(runs: seq<Run>)
    requires exists r :: r in runs && Stopped(r)
    ensures RecoverableRun(runs[1..]).Some? <==> exists r :: r in runs[1..] && Stopped(r)
    ensures RecoverableRun(runs[1..]).None? ==> Recoverable(runs[0])
  {
    RecoverableIsStopped(runs[1..]);
    var r :| r in runs && Stopped(r);
    assert Recoverable(r) && (r == runs[0] || r in runs[1..]);
  }

  lemma {:induction false} RecoverableIsStopped(runs: seq<Run>)
    ensures RecoverableRun(runs).Some? <==> exists r :: r in runs && Stopped(r)
  {
    if r :| r in runs && Stopped(r) { assert Recoverable(r); }
    if RecoverableRun(runs).Some? { assert Stopped(RecoverableRun(runs).value); }
  }

  /** The state after a recorded recovery. */
  function AfterRecovery(s: Snapshot, f: Fingerprint, summary: string): Snapshot
    requires Known(s, f)
  {
    var i := IncidentOf(s, f);
    Put(s, i.(formalRecoveryAttempted := true, actions := i.actions + [RecoveryLine(summary)]))
  }

  lemma {:induction false} RecoveryLeaves(s: Snapshot, f: Fingerprint, summary: string)
    requires Known(s, f)
    ensures
      var s' := AfterRecovery(s, f, summary);
      && Leaves(s, s', f, 0, true, false, false, ["L3 formal recovery: " + summary])
      && (forall k :: 0 <= k < |s.incidents| ==> s'.incidents[k].fingerprint == s.incidents[k].fingerprint)
      && s'.codexAttempts == s.codexAttempts && s'.deliveries == s.deliveries
  {
    var i := IncidentOf(s, f);
    PutLeaves(s, f, i.(formalRecoveryAttempted := true, actions := i.actions + [RecoveryLine(summary)]));
  }

  /** The level of the formal recovery, and what comes after it. */
  predicate RecoversOr(s: Snapshot, before: seq<Call>, f: Fingerprint, t: Clock, w: World, o: Outcome)
    requires Known(s, f)
  {
    var due := RecoveryDue(s, f, w.first.runs);
    var recorded := due && w.recovery.Some?;
    GoesOn(s, before, f, t, w, o, If(due, Step(RecoveringRun, w.recovery.Some?)), 0, recorded,
           Line(recorded, "L3 formal recovery: " + Said(w.recovery)), due ==> Failed(w.recovery),
           if w.recovery.Some? then FormallyRecovered else Thrown)
  }

  lemma {:induction false} FailedRecoveryTakes(s: Snapshot, before: seq<Call>, f: Fingerprint, t: Clock, w: World)
    requires Known(s, f) && RecoveryDue(s, f, w.first.runs) && Failed(w.recovery)
    ensures RecoversOr(s, before, f, t, w, Escalate(s, before, f, t, w))
  {
    RecoverableIsStopped(w.first.runs);
    var run := RecoverableRun(w.first.runs).value;
    var c := Call(FormalRecovery(f, run.runId, FailureRevision(run)), true);
    var line, s' := "L3 formal recovery: " + w.recovery.value.summary, AfterRecovery(s, f, w.recovery.value.summary);
    OneMoreStep(before, c);
    RecoveryLeaves(s, f, w.recovery.value.summary);
    RepairTakes(s', before + [c], f, t, w);
    SettledIsMoot(s', before + [c], f, t, w, TryCodex(s', before + [c], f, t, w), FormallyRecovered);
    assert Escalate(s, before, f, t, w) == TryCodex(s', before + [c], f, t, w);
    GoesOnAfter(s, s', before, before + [c], f, t, w, Escalate(s, before, f, t, w), Step(RecoveringRun, true), [], 0, 0,
                true, false, line, [], true, FormallyRecovered);
    assert [Step(RecoveringRun, true)] + [] == [Step(RecoveringRun, true)] && [line] + [] == [line];
  }

  lemma {:induction false} OtherRecoveryTakes(s: Snapshot, before: seq<Call>, f: Fingerprint, t: Clock, w: World)
    requires Known(s, f) && RecoveryDue(s, f, w.first.runs) && !Failed(w.recovery)
    ensures RecoversOr(s, before, f, t, w, Escalate(s, before, f, t, w))
  {
    RecoverableIsStopped(w.first.runs);
    LeavesNothing(s, f);
    var run := RecoverableRun(w.first.runs).value;
    OneMoreStep(before, Call(FormalRecovery(f, run.runId, FailureRevision(run)), w.recovery.Some?));
    if w.recovery.Some? { RecoveryLeaves(s, f, w.recovery.value.summary); }
  }

  lemma {:induction false} RecoveryTakes(s: Snapshot, before: seq<Call>, f: Fingerprint, t: Clock, w: World)
    requires Known(s, f)
    ensures RecoversOr(s, before, f, t, w, Escalate(s, before, f, t, w))
  {
    if !RecoveryDue(s, f, w.first.runs) {
      RecoverableIsStopped(w.first.runs);
      RepairTakes(s, before, f, t, w);
      SettledIsMoot(s, before, f, t, w, TryCodex(s, before, f, t, w),
                    if w.recovery.Some? then FormallyRecovered else Thrown);
    } else if Failed(w.recovery) {
      FailedRecoveryTakes(s, before, f, t, w);
    } else {
      OtherRecoveryTakes(s, before, f, t, w);
    }
  }

  lemma {:induction false} SettledIsMoot(
    s: Snapshot, before: seq<Call>, f: Fingerprint, t: Clock, w: World, o: Outcome, settled: Action)
    requires Known(s, f) && GoesOn(s, before, f, t, w, o, [], 0, false, [], true, NoAction)
    ensures GoesOn(s, before, f, t, w, o, [], 0, false, [], true, settled)
  {
  }

  function NameOf(f: Fingerprint): string {
    if f.failure.WatcherDown? then "luckountry-commission-watcher.service" else "luckountry-control-center.service"
  }

  /** The restart did not restore normal operation, and was the last one. */
  predicate Unrestored(s: Snapshot, f: Fingerprint, t: Clock, w: World)
    requires Known(s, f)
  {
    RestartDue(s, f) ==>
      && w.restart.Some? && w.second.Some? && !Normal(Classify(w.second.value, t.again))
      && IncidentOf(s, f).restartAttempts == 2
  }

  /** A whole round on an open incident: a restart when one is due; a formal recovery unless that settles it; then the
      repair and the report as `GoesOn` says. All that is recorded of it, and nothing else, is left behind. */
  predicate RestartsOr(s: Snapshot, f: Fingerprint, t: Clock, w: World, o: Outcome)
    requires Known(s, f)
  {
    var restart := RestartDue(s, f);
    var restarted, unrestored := restart && w.restart.Some?, Unrestored(s, f, t, w);
    var recovery := unrestored && RecoveryDue(s, f, w.first.runs);
    var recovered := recovery && w.recovery.Some?;
    GoesOn(s, [], f, t, w, o,
           If(restart, Step(Restarting, w.restart.Some?)) + If(recovery, Step(RecoveringRun, w.recovery.Some?)),
           if restarted then 1 else 0, recovered,
           Line(restarted, "L2 restart " + NameOf(f) + ": " + Said(w.restart))
           + Line(recovered, "L3 formal recovery: " + Said(w.recovery)),
           unrestored && (recovery ==> Failed(w.recovery)),
           if unrestored then if w.recovery.Some? then FormallyRecovered else Thrown
           else if w.restart.None? || w.second.None? then Thrown
           else if Normal(Classify(w.second.value, t.again)) then RestartRestored else RestartAttempted)
  }

  function AfterRestart(s: Snapshot, f: Fingerprint, summary: string): Snapshot
    requires Known(s, f)
  {
    var i := IncidentOf(s, f);
    Put(s, i.(restartAttempts := i.restartAttempts + 1, actions := i.actions + [RestartLine(f.failure, summary)]))
  }

  lemma {:induction false} RestartLeaves(s: Snapshot, f: Fingerprint, summary: string)
    requires Known(s, f)
    ensures
      var s' := AfterRestart(s, f, summary);
      && Leaves(s, s', f, 1, false, false, false, ["L2 restart " + NameOf(f) + ": " + summary])
      && (forall k :: 0 <= k < |s.incidents| ==> s'.incidents[k].fingerprint == s.incidents[k].fingerprint)
      && s'.codexAttempts == s.codexAttempts && s'.deliveries == s.deliveries
  {
    var i := IncidentOf(s, f);
    PutLeaves(s, f, i.(restartAttempts := i.restartAttempts + 1,
                       actions := i.actions + [RestartLine(f.failure, summary)]));
  }

  function RestartCall(s: Snapshot, f: Fingerprint, w: World): Call
    requires Known(s, f)
  {
    Call(Restart(f, ServiceFor(f.failure), IncidentOf(s, f).restartAttempts + 1), w.restart.Some?)
  }

  lemma {:induction false} RestartEscalates(s: Snapshot, f: Fingerprint, t: Clock, w: World)
    requires Known(s, f) && RestartDue(s, f) && Unrestored(s, f, t, w)
    ensures
      var s' := AfterRestart(s, f, w.restart.value.summary);
      Known(s', f) && Handle(s, f, t, w) == Escalate(s', [RestartCall(s, f, w)], f, t, w)
  {
    RestartLeaves(s, f, w.restart.value.summary);
  }

  lemma {:induction false} RestartSettles(s: Snapshot, f: Fingerprint, t: Clock, w: World)
    requires Known(s, f) && RestartDue(s, f) && !Unrestored(s, f, t, w)
    ensures
      Handle(s, f, t, w) ==
      Outcome(if w.restart.Some? then AfterRestart(s, f, w.restart.value.summary) else s, [RestartCall(s, f, w)],
              if w.restart.None? || w.second.None? then Thrown
              else if Normal(Classify(w.second.value, t.again)) then RestartRestored else RestartAttempted)
  {
  }

  lemma {:induction false} FirstStep(s: Snapshot, f: Fingerprint, w: World)
    requires Known(s, f)
    ensures Steps([RestartCall(s, f, w)]) == Steps([]) + [Step(Restarting, w.restart.Some?)]
  {
    OneMoreStep([], RestartCall(s, f, w));
    assert [] + [RestartCall(s, f, w)] == [RestartCall(s, f, w)];
  }

  lemma {:induction false} LastRestartTakes(s: Snapshot, f: Fingerprint, t: Clock, w: World)
    requires Known(s, f) && RestartDue(s, f) && Unrestored(s, f, t, w)
    ensures RestartsOr(s, f, t, w, Handle(s, f, t, w))
  {
    var c, o := RestartCall(s, f, w), Handle(s, f, t, w);
    var line, s' := "L2 restart " + NameOf(f) + ": " + Said(w.restart), AfterRestart(s, f, w.restart.value.summary);
    FirstStep(s, f, w);
    RestartLeaves(s, f, w.restart.value.summary);
    RestartEscalates(s, f, t, w);
    RecoveryTakes(s', [c], f, t, w);
    LastRestartGoesOn(s, s', f, t, w, o, c, line);
  }

  lemma {:induction false} LastRestartGoesOn(
    s: Snapshot, s': Snapshot, f: Fingerprint, t: Clock, w: World, o: Outcome, c: Call, line: string)
    requires Known(s, f) && RestartDue(s, f) && Unrestored(s, f, t, w)
    requires Leaves(s, s', f, 1, false, false, false, [line])
    requires forall k :: 0 <= k < |s.incidents| ==> s'.incidents[k].fingerprint == s.incidents[k].fingerprint
    requires s'.codexAttempts == s.codexAttempts && s'.deliveries == s.deliveries
    requires Steps([c]) == Steps([]) + [Step(Restarting, true)] && RecoversOr(s', [c], f, t, w, o)
    requires line == "L2 restart " + NameOf(f) + ": " + Said(w.restart)
    ensures RestartsOr(s, f, t, w, o)
  {
    var due := RecoveryDue(s, f, w.first.runs);
    var recovered := due && w.recovery.Some?;
    GoesOnAfter(s, s', [], [c], f, t, w, o, Step(Restarting, true), If(due, Step(RecoveringRun, w.recovery.Some?)), 1,
                0, false, recovered, line, Line(recovered, "L3 formal recovery: " + Said(w.recovery)),
                due ==> Failed(w.recovery), if w.recovery.Some? then FormallyRecovered else Thrown);
  }

  lemma {:induction false} OtherRestartTakes(s: Snapshot, f: Fingerprint, t: Clock, w: World)
    requires Known(s, f) && RestartDue(s, f) && !Unrestored(s, f, t, w)
    ensures RestartsOr(s, f, t, w, Handle(s, f, t, w))
  {
    LeavesNothing(s, f);
    FirstStep(s, f, w);
    RestartSettles(s, f, t, w);
    if w.restart.Some? { RestartLeaves(s, f, w.restart.value.summary); }
  }

  lemma {:induction false} OpenIncidentTakes(s: Snapshot, f: Fingerprint, t: Clock, w: World)
    requires Known(s, f)
    ensures RestartsOr(s, f, t, w, Handle(s, f, t, w))
  {
    if !RestartDue(s, f) {
      RecoveryTakes(s, [], f, t, w);
      NothingBefore();
    } else if Unrestored(s, f, t, w) {
      LastRestartTakes(s, f, t, w);
    } else {
      OtherRestartTakes(s, f, t, w);
    }
  }

  lemma {:induction false} NothingBefore()
    ensures forall x: seq<Step> :: [] + x == x
    ensures forall x: seq<string> :: [] + x == x
  {
  }

  // --------------------------------------------------------- the classification

  /** The word occurs in the text, in whatever case. */
  predicate Occurs(text: Option<string>, word: string) {
    text.Some? && exists i :: 0 <= i <= |text.value| - |word| && WordAt(text.value, word, i)
  }

  predicate WordAt(text: string, word: string, i: int) {
    0 <= i <= |text| - |word|
    && forall k :: 0 <= k < |word| ==> text[i + k] == word[k] || text[i + k] as int == word[k] as int - 32
  }

  lemma {:induction false} MentionsIsOccurs(text: Option<string>, word: string)
    requires forall k :: 0 <= k < |word| ==> 'a' <= word[k] <= 'z'
    ensures Mentions(text, word) <==> Occurs(text, word)
  {
    if text.Some? {
      forall i | 0 <= i <= |text.value| - |word|
        ensures SpelledAt(text.value, word, i) <==> WordAt(text.value, word, i)
      {
      }
    }
  }

  predicate QuarterHour(at: int, now: int) { now - at >= 900_000 }

  predicate AnyLost(runs: seq<Run>) {
    exists r :: r in runs && r.status.Running? && (r.activeActor.None? || r.activeExecutionId.None?)
  }

  predicate AnyStale(runs: seq<Run>, now: int) {
    exists r :: r in runs && r.status.Running? && QuarterHour(r.updatedAt, now)
  }

  predicate AnyBlocked(runs: seq<Run>, now: int) {
    exists r :: r in runs && r.status.Blocked? && QuarterHour(r.updatedAt, now)
  }

  predicate AnyBlockedBy(runs: seq<Run>, now: int, word: string) {
    exists r :: r in runs && r.status.Blocked? && QuarterHour(r.updatedAt, now) && Occurs(r.blocker, word)
  }

  lemma {:induction false} BlockedByIs(runs: seq<Run>, now: int, word: string)
    requires forall k :: 0 <= k < |word| ==> 'a' <= word[k] <= 'z'
    ensures AnyBlockedBy(runs, now, word) <==> exists r :: r in runs && LongBlocked(r, now) && Mentions(r.blocker, word)
  {
    forall r | r in runs ensures Mentions(r.blocker, word) <==> Occurs(r.blocker, word) {
      MentionsIsOccurs(r.blocker, word);
    }
    if r :| r in runs && LongBlocked(r, now) && Mentions(r.blocker, word) {
      assert r.status.Blocked? && QuarterHour(r.updatedAt, now) && Occurs(r.blocker, word);
    }
    if r :| r in runs && r.status.Blocked? && QuarterHour(r.updatedAt, now) && Occurs(r.blocker, word) {
      assert LongBlocked(r, now) && Mentions(r.blocker, word);
    }
  }

  lemma {:induction false} RunsAre(runs: seq<Run>, now: int)
    ensures AnyLost(runs) <==> exists r :: r in runs && Lost(r)
    ensures AnyStale(runs, now) <==> exists r :: r in runs && r.status.Running? && Old(r.updatedAt, now)
    ensures AnyBlocked(runs, now) <==> exists r :: r in runs && LongBlocked(r, now)
  {
    if r :| r in runs && LongBlocked(r, now) { assert r.status.Blocked? && QuarterHour(r.updatedAt, now); }
    if r :| r in runs && r.status.Blocked? && QuarterHour(r.updatedAt, now) { assert LongBlocked(r, now); }
    if r :| r in runs && r.status.Running? && (r.activeActor.None? || r.activeExecutionId.None?) { assert Lost(r); }
  }

  /** When exactly each failure is seen: state, restore, services, watcher, revision, known causes, and only then the
      runs, the first that applies. */
  lemma {:induction false} ClassificationIsExact(o: Observation, now: int)
    ensures
      var c := Classify(o, now);
      var sound := o.stateReadable && !o.restoreFailed;
      var serving := sound && o.lccServiceActive && o.healthReady;
      var watched := serving && o.watcherServiceActive
                     && (o.watcherUpdatedAt.None? || !QuarterHour(o.watcherUpdatedAt.value, now));
      var dispatching := watched && o.watcherState != Some("DEGRADED");
      var current := dispatching && (o.expectedRevision.None? || o.expectedRevision == Some("")
                                     || o.productionRevision == o.expectedRevision);
      var clear := current && !o.codeFixRequired && !o.unknownFailure;
      var moving := clear && !AnyLost(o.runs) && !AnyStale(o.runs, now);
      var codex, dispatch := AnyBlockedBy(o.runs, now, "codex"), AnyBlockedBy(o.runs, now, "dispatch");
      && (c == Failing(StateCorruption) <==> !o.stateReadable)
      && (c == Failing(RestoreFailure) <==> o.stateReadable && o.restoreFailed)
      && (c == Failing(HealthOrServiceDown) <==> sound && !serving)
      && (c == Failing(WatcherDown) <==> serving && !watched)
      && (c == Failing(DispatchFailure) <==> (watched && !dispatching) || (moving && !codex && dispatch))
      && (c == Failing(RevisionMismatch) <==> dispatching && !current)
      && (c == Failing(CodeFixRequired) <==> current && o.codeFixRequired)
      && (c == Failing(UnknownFailure) <==> current && !o.codeFixRequired && o.unknownFailure)
      && (c == Failing(ActorLost) <==> clear && AnyLost(o.runs))
      && (c == Failing(RunStale) <==> clear && !AnyLost(o.runs) && AnyStale(o.runs, now))
      && (c == Failing(CodexFailure) <==> moving && codex)
      && (c == Failing(ReadinessStaleBlocked) <==> moving && !codex && !dispatch && AnyBlocked(o.runs, now))
      && (!c.Failing? <==> moving && !codex && !dispatch && !AnyBlocked(o.runs, now))
  {
    RunsAre(o.runs, now);
    BlockedByIs(o.runs, now, "codex");
    BlockedByIs(o.runs, now, "dispatch");
  }

  /** Which of the four normal states it is. */
  lemma {:induction false} NormalStateIsExact(o: Observation, now: int)
    requires !Classify(o, now).Failing?
    ensures
      var c, running, waiting := Classify(o, now), exists r :: r in o.runs && r.status.Running?,
                                 exists r :: r in o.runs && r.status.WaitingHuman?;
      && (c.RunningWithActor? <==> running) && (c.AwaitingHuman? <==> !running && waiting)
      && (c.Watching? <==> !running && !waiting && o.watcherState == Some("WATCHING"))
      && (c.AtRest? <==> !running && !waiting && o.watcherState != Some("WATCHING"))
  {
  }

  // ------------------------------------------------------------- whole rounds

  /** An incident is noted: a known one has been seen again, a new one begins without any action. */
  predicate NotedAs(s: Snapshot, s': Snapshot, f: Fingerprint, now: int) {
    var n := |s.incidents|;
    && s'.codexAttempts == s.codexAttempts && s'.deliveries == s.deliveries
    && s'.lastDecision == Some(Decision(now, Failing(f.failure), Some(f)))
    && Known(s', f)
    && (!Known(s, f) ==>
          && |s'.incidents| == n + 1 && s'.incidents[..n] == s.incidents
          && s'.incidents[n] == Incident(f, now, now, 0, false, false, false, []))
    && (Known(s, f) ==>
          && |s'.incidents| == n && IncidentOf(s', f) == IncidentOf(s, f).(lastSeenAt := now)
          && forall k :: 0 <= k < n && s.incidents[k].fingerprint != f ==> s'.incidents[k] == s.incidents[k])
  }

  lemma {:induction false} NotedIsExact(s: Snapshot, f: Fingerprint, now: int)
    ensures NotedAs(s, Noted(s, f, now), f, now)
  {
    if Known(s, f) {
      PutLeaves(s, f, IncidentOf(s, f).(lastSeenAt := now));
      assert Noted(s, f, now).incidents == Put(s, IncidentOf(s, f).(lastSeenAt := now)).incidents;
    }
  }

  /** What identifies the incident of a failure: the failure, the latest blocked run with its failure, if there is
      one, and the two revisions. */
  predicate Identifies(f: Fingerprint, failure: Failure, o: Observation) {
    && f.failure == failure
    && f.production == (if o.productionRevision == Some("") then None else o.productionRevision)
    && f.expected == (if o.expectedRevision == Some("") then None else o.expectedRevision)
    && (f.revision.Some? <==> exists r :: r in o.runs && Stopped(r))
    && (f.revision.Some? ==> NamesRun(o.runs, f.runId, f.revision.value)) && (f.revision.None? ==> f.runId == "")
  }

  lemma {:induction false} FingerprintIdentifies(failure: Failure, o: Observation)
    ensures Identifies(IncidentFingerprint(failure, o), failure, o)
  {
    RecoverableIsStopped(o.runs);
    if RecoverableRun(o.runs).Some? { RecoveryNamesRun(o.runs); }
  }

  /** A round on a failure: its incident is noted; if it is closed nothing else happens, and otherwise it is worked
      on. */
  lemma {:induction false} FailingRoundIsExact(s: Snapshot, t: Clock, w: World)
    returns (f: Fingerprint, noted: Snapshot)
    requires w.noted && Classify(w.first, t.classified).Failing?
    ensures Identifies(f, Classify(w.first, t.classified).failure, w.first) && NotedAs(s, noted, f, t.noted)
    ensures if IncidentOf(noted, f).blocked then Round(s, t, w) == Outcome(noted, [], BlockedWithEvidence)
            else RestartsOr(noted, f, t, w, Round(s, t, w))
  {
    var failure := Classify(w.first, t.classified).failure;
    f := IncidentFingerprint(failure, w.first);
    noted := Noted(s, f, t.noted);
    FingerprintIdentifies(failure, w.first);
    NotedIsExact(s, f, t.noted);
    OpenIncidentTakes(noted, f, t, w);
  }

  /** A round on a normal state records that, and one whose note cannot be written does nothing. */
  lemma {:induction false} NormalRoundIsExact(s: Snapshot, t: Clock, w: World)
    ensures !w.noted ==> Round(s, t, w) == Outcome(s, [], Thrown)
    ensures w.noted && !Classify(w.first, t.classified).Failing? ==>
              var o := Round(s, t, w);
              && o.calls == [] && o.action == NoAction && o.snapshot.incidents == s.incidents
              && o.snapshot.codexAttempts == s.codexAttempts && o.snapshot.deliveries == s.deliveries
              && o.snapshot.lastDecision == Some(Decision(t.noted, Classify(w.first, t.classified), None))
  {
  }

  /** The first round on a service, watcher or restore failure restarts at once: the watcher if that is down, the
      control center otherwise. */
  lemma {:induction false} FreshFailuresAreRestarted(s: Snapshot, t: Clock, w: World)
    requires w.noted && Classify(w.first, t.classified).Failing?
    requires Classify(w.first, t.classified).failure in {HealthOrServiceDown, WatcherDown, RestoreFailure}
    requires forall i :: i in s.incidents ==> i.fingerprint.failure != Classify(w.first, t.classified).failure
    ensures
      var failure, calls := Classify(w.first, t.classified).failure, Round(s, t, w).calls;
      && |calls| >= 1 && calls[0].effect.Restart? && calls[0].recorded == w.restart.Some? && calls[0].effect.key == 1
      && (calls[0].effect.service.CommissionWatcher? <==> failure.WatcherDown?)
      && Identifies(calls[0].effect.fingerprint, failure, w.first)
  {
    var failure := Classify(w.first, t.classified).failure;
    var f := IncidentFingerprint(failure, w.first);
    FingerprintIdentifies(failure, w.first);
    FreshIsNew(s, f, t.noted);
    DueIsRestarted(s, failure, t, w);
  }

  lemma {:induction false} FreshIsNew(s: Snapshot, f: Fingerprint, now: int)
    requires forall i :: i in s.incidents ==> i.fingerprint.failure != f.failure
    ensures IncidentOf(Noted(s, f, now), f).restartAttempts == 0 && !IncidentOf(Noted(s, f, now), f).blocked
  {
    var noted := Noted(s, f, now);
    AppendedIs(s.incidents, noted.incidents[|s.incidents|], f);
    assert noted.incidents == s.incidents + [noted.incidents[|s.incidents|]];
  }

  lemma {:induction false} DueIsRestarted(s: Snapshot, failure: Failure, t: Clock, w: World)
    requires w.noted && Classify(w.first, t.classified) == Failing(failure)
    requires
      var f := IncidentFingerprint(failure, w.first);
      var noted := Noted(s, f, t.noted);
      !IncidentOf(noted, f).blocked && RestartDue(noted, f)
    ensures
      var f := IncidentFingerprint(failure, w.first);
      var noted := Noted(s, f, t.noted);
      Round(s, t, w).calls != [] && Round(s, t, w).calls[0] == RestartCall(noted, f, w)
  {
    var f := IncidentFingerprint(failure, w.first);
    var noted := Noted(s, f, t.noted);
    if Unrestored(noted, f, t, w) {
      RestartEscalates(noted, f, t, w);
      RestartLeaves(noted, f, w.restart.value.summary);
      CallsAreKept(AfterRestart(noted, f, w.restart.value.summary), [RestartCall(noted, f, w)], f, t, w);
    } else {
      RestartSettles(noted, f, t, w);
    }
  }

  /** Later levels only add calls. */
  lemma {:induction false} CallsAreKept(s: Snapshot, before: seq<Call>, f: Fingerprint, t: Clock, w: World)
    requires Known(s, f)
    ensures before <= Escalate(s, before, f, t, w).calls
  {
  }

  // ----------------------------------------------------------- whole histories

  /** What an incident's failure calls for, whoever makes the call and whenever. */
  predicate Called(e: Effect) {
    var x := e.fingerprint.failure;
    match e
    case Restart(_, service, key) =>
      && x in {HealthOrServiceDown, WatcherDown, RestoreFailure} && 1 <= key <= 3
      && (service.CommissionWatcher? <==> x.WatcherDown?)
    case FormalRecovery(f, runId, expected) =>
      && x !in {UnknownFailure, CodeFixRequired, StateCorruption, RevisionMismatch}
      && f.revision == Some(expected) && f.runId == runId
    case Codex(_, _, _, _) => x in {UnknownFailure, CodeFixRequired}
    case Report(_, lines) => |lines| <= 10
  }

  predicate AllCalled(calls: seq<Call>) { forall k :: 0 <= k < |calls| ==> Called(calls[k].effect) }

  lemma {:induction false} RoundIsCalledFor(s: Snapshot, turn: Turn)
    ensures AllCalled(Round(s, turn.clock, turn.world).calls)
  {
    RoundIsAbout(s, turn);
    var calls := Round(s, turn.clock, turn.world).calls;
    var x := Classify(turn.world.first, turn.clock.classified);
    if calls != [] { AboutIsCalled(calls, x.failure, turn); }
  }

  lemma {:induction false} AboutIsCalled(calls: seq<Call>, x: Failure, turn: Turn)
    requires About(calls, IncidentFingerprint(x, turn.world.first), turn.clock, turn.world.first.runs)
    ensures AllCalled(calls)
  {
    forall k | 0 <= k < |calls| ensures Called(calls[k].effect) { assert calls[k] in calls; }
  }

  lemma {:induction false} MoreCalled(a: seq<Call>, b: seq<Call>)
    requires AllCalled(a) && AllCalled(b)
    ensures AllCalled(a + b)
  {
  }

  /** Over every history each call, recorded or not, is one that the failure of its incident calls for. */
  lemma {:induction false} CallsAreCalledFor(run: seq<Turn>)
    ensures AllCalled(Calls(run))
    decreases |run|
  {
    if |run| > 0 {
      var before, turn := run[..|run|-1], run[|run|-1];
      CallsAreCalledFor(before);
      RoundIsCalledFor(After(before), turn);
      MoreCalled(Calls(before), Round(After(before), turn.clock, turn.world).calls);
    }
  }
}
