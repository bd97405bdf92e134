/** Whole histories of the watchdog: what the recorded actions of all its rounds amount to. */
module WatchdogRuns {
  import opened Common
  import opened SelfCommissioning
  import opened Watchdog

  /** One round: its clock readings, and what the outside says. */
  datatype Turn = Turn(clock: Clock, world: World)

  function After(run: seq<Turn>): Snapshot {
    if |run| == 0 then EMPTY
    else Round(After(run[..|run|-1]), run[|run|-1].clock, run[|run|-1].world).snapshot
  }

  /** All calls of a history, in order. */
  function Calls(run: seq<Turn>): seq<Call> {
    if |run| == 0 then []
    else Calls(run[..|run|-1]) + Round(After(run[..|run|-1]), run[|run|-1].clock, run[|run|-1].world).calls
  }

  /** The clock does not go back, neither within a round nor from one to the next. */
  predicate Timed(run: seq<Turn>) {
    && (forall i :: 0 <= i < |run| ==> run[i].clock.Ticking())
    && (forall i, k :: 0 <= i < k < |run| ==> run[i].clock.pruned <= run[k].clock.classified)
  }

  // ------------------------------------------------------------------ tallies

  /** The recorded actions of a history on one incident: the keys of its restarts, and how many of each other kind. */
  datatype Tally = Tally(keys: seq<nat>, formal: nat, codex: nat, reports: nat)

  function Add(t: Tally, c: Call, f: Fingerprint): Tally {
    if !c.recorded || c.effect.fingerprint != f then t
    else
      match c.effect
      case Restart(_, _, key) => t.(keys := t.keys + [key])
      case FormalRecovery(_, _, _) => t.(formal := t.formal + 1)
      case Codex(_, _, _, _) => t.(codex := t.codex + 1)
      case Report(_, _) => t.(reports := t.reports + 1)
  }

  function Tallied(h: seq<Call>, f: Fingerprint): Tally {
    if |h| == 0 then Tally([], 0, 0, 0) else Add(Tallied(h[..|h|-1], f), h[|h|-1], f)
  }

  /** A recorded repair attempt: the time that is stored for it, and the readings of its two checks. */
  datatype Attempt = Attempt(at: int, windowed: int, cooled: int)

  function AttemptOf(e: Effect): Attempt
    requires e.Codex?
  {
    Attempt(e.at, e.windowed, e.cooled)
  }

  /** The recorded repair attempts of a history. */
  function Times(h: seq<Call>): seq<Attempt> {
    if |h| == 0 then []
    else
      var c := h[|h|-1];
      Times(h[..|h|-1]) + if c.recorded && c.effect.Codex? then [AttemptOf(c.effect)] else []
  }

  function UpTo(n: nat): (keys: seq<nat>)
    ensures |keys| == n && forall i :: 0 <= i < n ==> keys[i] == i + 1
  {
    seq(n, i => i + 1)
  }

  function One(b: bool): nat { if b then 1 else 0 }

  /** An incident's counters say what its recorded actions were. */
  predicate Accounts(i: Incident, t: Tally) {
    && i.restartAttempts <= RESTART_LIMIT && t.keys == UpTo(i.restartAttempts)
    && t.formal == One(i.formalRecoveryAttempted) && t.codex == One(i.codexAttempted) && t.reports == One(i.blocked)
  }

  predicate AccountsFor(s: Snapshot, h: seq<Call>, f: Fingerprint) {
    if Known(s, f) then Accounts(IncidentOf(s, f), Tallied(h, f)) else Tallied(h, f) == Tally([], 0, 0, 0)
  }

  ghost predicate Accounted(s: Snapshot, h: seq<Call>) { forall f :: AccountsFor(s, h, f) }

  /** The stored attempts are the latest ones, those dropped are a day old, and all keep their distances. */
  predicate Attempts(stored: seq<int>, times: seq<Attempt>, now: int) {
    && |stored| <= |times|
    && (forall i :: 0 <= i < |stored| ==> stored[i] == times[|times| - |stored| + i].at)
    && AllOld(times, |times| - |stored|, now) && (forall i :: 0 <= i < |times| ==> times[i].at <= now)
    && Ascends(times) && Gaps(times) && Spans(times)
  }

  /** The first n attempts are a day old. */
  predicate AllOld(times: seq<Attempt>, n: int, now: int) {
    n <= |times| && forall i :: 0 <= i < n ==> now - times[i].at >= DAY_MS
  }

  predicate Ascends(times: seq<Attempt>) { forall i, k :: 0 <= i < k < |times| ==> times[i].at <= times[k].at }

  predicate GapAt(times: seq<Attempt>, i: int)
    requires 0 <= i < |times| - 1
  {
    times[i+1].cooled - times[i].at >= COOLDOWN_MS
  }

  predicate SpanAt(times: seq<Attempt>, i: int)
    requires 0 <= i < |times| - 3
  {
    times[i+3].windowed - times[i].at >= DAY_MS
  }

  /** From each attempt to the cooldown check of the next. */
  predicate Gaps(times: seq<Attempt>) {
    forall i :: 0 <= i < |times| - 1 ==> GapAt(times, i)
  }

  /** From each attempt to the window check of the third after it. */
  predicate Spans(times: seq<Attempt>) {
    forall i :: 0 <= i < |times| - 3 ==> SpanAt(times, i)
  }

  ghost predicate Inv(s: Snapshot, h: seq<Call>, now: int) {
    Accounted(s, h) && Attempts(s.codexAttempts, Times(h), now)
  }

  // ------------------------------------------------------------- single steps

  lemma {:induction false} TallyOneMore(h: seq<Call>, c: Call, f: Fingerprint)
    ensures Tallied(h + [c], f) == Add(Tallied(h, f), c, f)
    ensures Times(h + [c]) == if c.recorded && c.effect.Codex? then Times(h) + [AttemptOf(c.effect)] else Times(h)
  {
    assert (h + [c])[..|h|] == h;
  }

  lemma {:induction false} PutIs(s: Snapshot, i: Incident, f: Fingerprint)
    requires Known(s, i.fingerprint)
    ensures Known(Put(s, i), f) <==> Known(s, f)
    ensures Known(s, f) ==> IncidentOf(Put(s, i), f) == if f == i.fingerprint then i else IncidentOf(s, f)
  {
    var was := s.incidents;
    var now := Put(s, i).incidents;
    var k := IncidentIndex(was, i.fingerprint);
    assert forall n :: 0 <= n < |was| ==> now[n].fingerprint == was[n].fingerprint;
    var a, b := IncidentIndex(was, f), IncidentIndex(now, f);
    assert a == b;
  }

  /** A recorded call together with the changed incident keeps the accounts. */
  lemma {:induction false} PutKeepsAccounts(s: Snapshot, h: seq<Call>, i: Incident, c: Call)
    requires Accounted(s, h) && Known(s, i.fingerprint) && c.effect.fingerprint == i.fingerprint
    requires Accounts(i, Add(Tallied(h, i.fingerprint), c, i.fingerprint))
    ensures Accounted(Put(s, i), h + [c])
  {
    forall f ensures AccountsFor(Put(s, i), h + [c], f) {
      assert AccountsFor(s, h, f);
      TallyOneMore(h, c, f);
      PutIs(s, i, f);
    }
  }

  lemma {:induction false} UnrecordedKeepsInv(s: Snapshot, h: seq<Call>, c: Call, now: int)
    requires Inv(s, h, now) && !c.recorded
    ensures Inv(s, h + [c], now)
  {
    forall f ensures AccountsFor(s, h + [c], f) {
      assert AccountsFor(s, h, f);
      TallyOneMore(h, c, f);
    }
    TallyOneMore(h, c, c.effect.fingerprint);
  }

  lemma {:induction false} NotedKeepsInv(s: Snapshot, h: seq<Call>, f: Fingerprint, now: int)
    requires Inv(s, h, now)
    ensures Inv(Noted(s, f, now), h, now)
    ensures Known(s, f) ==> IncidentOf(Noted(s, f, now), f).blocked == IncidentOf(s, f).blocked
  {
    var s' := Noted(s, f, now);
    forall g ensures AccountsFor(s', h, g) {
      assert AccountsFor(s, h, g);
      if Known(s, f) {
        PutIs(s, IncidentOf(s, f).(lastSeenAt := now), g);
        assert s'.incidents == Put(s, IncidentOf(s, f).(lastSeenAt := now)).incidents;
      } else {
        AppendedIs(s.incidents, s'.incidents[|s.incidents|], g);
      }
    }
    if Known(s, f) { PutIs(s, IncidentOf(s, f).(lastSeenAt := now), f); }
  }

  lemma {:induction false} AppendedIs(incidents: seq<Incident>, i: Incident, f: Fingerprint)
    ensures
      var k := IncidentIndex(incidents, f);
      IncidentIndex(incidents + [i], f) == if k < |incidents| || i.fingerprint == f then k else |incidents| + 1
  {
    var k, n := IncidentIndex(incidents, f), IncidentIndex(incidents + [i], f);
    if k < |incidents| { assert (incidents + [i])[k].fingerprint == f; }
    if n < |incidents| { assert incidents[n].fingerprint == f; }
    assert (incidents + [i])[|incidents|] == i;
  }

  /** A recorded action other than a repair keeps the invariant. */
  lemma {:induction false} RecordKeepsInv(s: Snapshot, h: seq<Call>, i: Incident, c: Call, now: int)
    requires Inv(s, h, now) && Known(s, i.fingerprint) && c.effect.fingerprint == i.fingerprint && !c.effect.Codex?
    requires Accounts(i, Add(Tallied(h, i.fingerprint), c, i.fingerprint))
    ensures Inv(Put(s, i), h + [c], now)
    ensures Known(Put(s, i), i.fingerprint) && IncidentOf(Put(s, i), i.fingerprint) == i
  {
    PutKeepsAccounts(s, h, i, c);
    TallyOneMore(h, c, i.fingerprint);
    PutIs(s, i, i.fingerprint);
  }

  // ------------------------------------------------------- the sliding window

  predicate Ascending(a: seq<int>) { forall i, k :: 0 <= i < k < |a| ==> a[i] <= a[k] }

  lemma {:induction false} AllRecent(a: seq<int>, now: int)
    requires forall i :: 0 <= i < |a| ==> now - a[i] < DAY_MS
    ensures Recent(a, now) == a
  {
    if |a| > 0 { AllRecent(a[1..], now); }
  }

  /** Of ascending attempts, the recent ones are the last ones. */
  lemma {:induction false} RecentIsSuffix(a: seq<int>, now: int)
    requires Ascending(a)
    ensures
      var r := Recent(a, now);
      && |r| <= |a| && r == a[|a| - |r|..]
      && (forall i :: 0 <= i < |a| - |r| ==> now - a[i] >= DAY_MS)
      && (forall i :: 0 <= i < |r| ==> now - r[i] < DAY_MS)
  {
    if |a| > 0 {
      if now - a[0] < DAY_MS {
        AllRecent(a, now);
      } else {
        RecentIsSuffix(a[1..], now);
        assert Recent(a, now) == Recent(a[1..], now);
      }
    }
  }

  /** A further attempt keeps the distances when fewer than three are recent and the last of these is long ago. */
  lemma {:induction false} OneMoreAttempt(times: seq<Attempt>, a: Attempt, recent: nat)
    requires Gaps(times) && Spans(times) && recent <= |times| && recent < DAILY_CODEX_LIMIT && a.windowed <= a.cooled
    requires AllOld(times, |times| - recent, a.windowed)
    requires recent > 0 ==> a.cooled - times[|times|-1].at >= COOLDOWN_MS
    ensures Gaps(times + [a]) && Spans(times + [a])
  {
    var all := times + [a];
    forall i | 0 <= i < |all| - 1 ensures GapAt(all, i) {
      if i < |times| - 1 { assert GapAt(times, i); }
    }
    forall i | 0 <= i < |all| - 3 ensures SpanAt(all, i) {
      if i < |times| - 3 { assert SpanAt(times, i); }
    }
  }

  /** Filtered at a later reading, the stored attempts are again the latest ones, and the rest is a day old. */
  lemma {:induction false} RecentAmongAll(stored: seq<int>, times: seq<Attempt>, now: int, later: int)
    requires Attempts(stored, times, now) && now <= later
    ensures Attempts(Recent(stored, later), times, later)
  {
    forall i, k | 0 <= i < k < |stored| ensures stored[i] <= stored[k] {
      assert times[|times| - |stored| + i].at <= times[|times| - |stored| + k].at;
    }
    RecentIsSuffix(stored, later);
    var recent := Recent(stored, later);
    forall i | |times| - |stored| <= i < |times| - |recent| ensures later - times[i].at >= DAY_MS {
      assert times[i].at == stored[i - (|times| - |stored|)];
    }
  }

  /** An attempt that passes the two checks keeps the window, whatever is pruned before and after them. */
  lemma {:induction false} AttemptKeepsWindow(stored: seq<int>, times: seq<Attempt>, t: Clock)
    requires Attempts(stored, times, t.noted) && t.Ticking() && |Recent(stored, t.windowed)| < DAILY_CODEX_LIMIT
    requires
      var recent := Recent(stored, t.windowed);
      |recent| > 0 ==> t.cooled - recent[|recent|-1] >= COOLDOWN_MS
    ensures Attempts(Recent(stored, t.pruned) + [t.noted], times + [Attempt(t.noted, t.windowed, t.cooled)], t.pruned)
  {
    RecentAmongAll(stored, times, t.noted, t.windowed);
    RecentAmongAll(stored, times, t.noted, t.pruned);
    OneMoreAttempt(times, Attempt(t.noted, t.windowed, t.cooled), |Recent(stored, t.windowed)|);
    OneMoreStored(Recent(stored, t.pruned), times, Attempt(t.noted, t.windowed, t.cooled), t.pruned);
  }

  lemma {:induction false} OneMoreStored(stored: seq<int>, times: seq<Attempt>, a: Attempt, now: int)
    requires Attempts(stored, times, now) && a.at <= now && forall i :: 0 <= i < |times| ==> times[i].at <= a.at
    requires Gaps(times + [a]) && Spans(times + [a])
    ensures Attempts(stored + [a.at], times + [a], now)
  {
  }

  lemma {:induction false} LaterKeepsInv(s: Snapshot, h: seq<Call>, now: int, later: int)
    requires Inv(s, h, now) && now <= later
    ensures Inv(s, h, later)
  {
    assert Attempts(s.codexAttempts, Times(h), later);
  }

  // ------------------------------------------------------------ one round

  /** The accounts depend on the incidents alone. */
  lemma {:induction false} SameIncidents(s: Snapshot, s': Snapshot, h: seq<Call>)
    requires Accounted(s, h) && s.incidents == s'.incidents
    ensures Accounted(s', h)
  {
    forall f ensures AccountsFor(s', h, f) { assert AccountsFor(s, h, f); }
  }

  /** A posted report keeps the invariant. */
  lemma {:induction false} PostedKeepsInv(
    s: Snapshot, h: seq<Call>, f: Fingerprint, lines: seq<string>, d: Delivery, now: int)
    requires Known(s, f) && !IncidentOf(s, f).blocked && Inv(s, h, now)
    ensures
      var s' := Put(s, IncidentOf(s, f).(blocked := true)).(deliveries := s.deliveries + [d]);
      Inv(s', h + [Call(Report(f, lines), true)], now)
  {
    var i := IncidentOf(s, f).(blocked := true);
    var c := Call(Report(f, lines), true);
    assert AccountsFor(s, h, f);
    RecordKeepsInv(s, h, i, c, now);
    SameIncidents(Put(s, i), Put(s, i).(deliveries := s.deliveries + [d]), h + [c]);
  }

  /** A recorded restart keeps the invariant. */
  lemma {:induction false} RestartKeepsInv(s: Snapshot, h: seq<Call>, f: Fingerprint, line: string, now: int)
    requires Known(s, f) && IncidentOf(s, f).restartAttempts < RESTART_LIMIT && Inv(s, h, now)
    ensures
      var i := IncidentOf(s, f);
      var i' := i.(restartAttempts := i.restartAttempts + 1, actions := i.actions + [line]);
      && Inv(Put(s, i'), h + [Call(Restart(f, ServiceFor(f.failure), i.restartAttempts + 1), true)], now)
      && Known(Put(s, i'), f) && IncidentOf(Put(s, i'), f) == i'
  {
    var i := IncidentOf(s, f);
    assert AccountsFor(s, h, f);
    assert UpTo(i.restartAttempts) + [i.restartAttempts + 1] == UpTo(i.restartAttempts + 1);
    RecordKeepsInv(s, h, i.(restartAttempts := i.restartAttempts + 1, actions := i.actions + [line]),
                   Call(Restart(f, ServiceFor(f.failure), i.restartAttempts + 1), true), now);
  }

  /** A recorded formal recovery keeps the invariant. */
  lemma {:induction false} RecoveryKeepsInv(
    s: Snapshot, h: seq<Call>, f: Fingerprint, e: Effect, line: string, now: int)
    requires Known(s, f) && !IncidentOf(s, f).formalRecoveryAttempted && Inv(s, h, now)
    requires e.FormalRecovery? && e.fingerprint == f
    ensures
      var i := IncidentOf(s, f);
      var i' := i.(formalRecoveryAttempted := true, actions := i.actions + [line]);
      && Inv(Put(s, i'), h + [Call(e, true)], now) && Known(Put(s, i'), f) && IncidentOf(Put(s, i'), f) == i'
  {
    var i := IncidentOf(s, f);
    assert AccountsFor(s, h, f);
    RecordKeepsInv(s, h, i.(formalRecoveryAttempted := true, actions := i.actions + [line]), Call(e, true), now);
  }

  /** A recorded repair that the window allows keeps the invariant. */
  lemma {:induction false} RepairKeepsInv(s: Snapshot, h: seq<Call>, f: Fingerprint, line: string, t: Clock)
    requires Known(s, f) && !IncidentOf(s, f).codexAttempted && Inv(s, h, t.noted) && t.Ticking()
    requires |Recent(s.codexAttempts, t.windowed)| < DAILY_CODEX_LIMIT
    requires
      var recent := Recent(s.codexAttempts, t.windowed);
      |recent| > 0 ==> t.cooled - recent[|recent|-1] >= COOLDOWN_MS
    ensures
      var i := IncidentOf(s, f);
      var i' := i.(codexAttempted := true, actions := i.actions + [line]);
      var s' := Put(s, i').(codexAttempts := Recent(s.codexAttempts, t.pruned) + [t.noted]);
      && Inv(s', h + [Call(Attempted(f, t), true)], t.pruned) && Known(s', f) && IncidentOf(s', f) == i'
  {
    var c := Call(Attempted(f, t), true);
    var i' := IncidentOf(s, f).(codexAttempted := true, actions := IncidentOf(s, f).actions + [line]);
    assert AccountsFor(s, h, f);
    PutKeepsAccounts(s, h, i', c);
    SameIncidents(Put(s, i'), Put(s, i').(codexAttempts := Recent(s.codexAttempts, t.pruned) + [t.noted]), h + [c]);
    TallyOneMore(h, c, f);
    AttemptKeepsWindow(s.codexAttempts, Times(h), t);
    PutIs(s, i', f);
  }

  lemma {:induction false} ReportKeepsInv(
    s: Snapshot, h: seq<Call>, calls: seq<Call>, f: Fingerprint, now: int, w: World)
    requires Known(s, f) && !IncidentOf(s, f).blocked && Inv(s, h + calls, now)
    ensures
      var o := BlockAndReport(s, calls, f, w);
      Inv(o.snapshot, h + o.calls, now)
  {
    var lines := LastTen(IncidentOf(s, f).actions);
    var c := Call(Report(f, lines), w.report.Some?);
    assert h + (calls + [c]) == (h + calls) + [c];
    if w.report.Some? {
      PostedKeepsInv(s, h + calls, f, lines, Delivery(f, w.report.value), now);
    } else {
      UnrecordedKeepsInv(s, h + calls, c, now);
    }
  }

  lemma {:induction false} CodexKeepsInv(
    s: Snapshot, h: seq<Call>, calls: seq<Call>, f: Fingerprint, t: Clock, w: World)
    requires Known(s, f) && !IncidentOf(s, f).blocked && Inv(s, h + calls, t.noted) && t.Ticking()
    ensures
      var o := TryCodex(s, calls, f, t, w);
      Inv(o.snapshot, h + o.calls, t.pruned)
  {
    LaterKeepsInv(s, h + calls, t.noted, t.pruned);
    var recent := Recent(s.codexAttempts, t.windowed);
    var c := Call(Attempted(f, t), w.codex.Some?);
    assert h + (calls + [c]) == (h + calls) + [c];
    if !ForCodex(f.failure) || IncidentOf(s, f).codexAttempted || |recent| >= DAILY_CODEX_LIMIT {
      ReportKeepsInv(s, h, calls, f, t.pruned, w);
    } else if |recent| > 0 && t.cooled - recent[|recent|-1] < COOLDOWN_MS {
    } else if w.codex.None? {
      UnrecordedKeepsInv(s, h + calls, c, t.pruned);
    } else {
      RepairKeepsInv(s, h + calls, f, RepairLine(w.codex.value.summary), t);
      var i := IncidentOf(s, f);
      var s' := Put(s, i.(codexAttempted := true, actions := i.actions + [RepairLine(w.codex.value.summary)])).(
                  codexAttempts := Recent(s.codexAttempts, t.pruned) + [t.noted]);
      if !w.codex.value.ok { ReportKeepsInv(s', h, calls + [c], f, t.pruned, w); }
    }
  }

  lemma {:induction false} EscalateKeepsInv(
    s: Snapshot, h: seq<Call>, calls: seq<Call>, f: Fingerprint, t: Clock, w: World)
    requires Known(s, f) && !IncidentOf(s, f).blocked && Inv(s, h + calls, t.noted) && t.Ticking()
    ensures
      var o := Escalate(s, calls, f, t, w);
      Inv(o.snapshot, h + o.calls, t.pruned)
  {
    var i := IncidentOf(s, f);
    var run := RecoverableRun(w.first.runs);
    if i.formalRecoveryAttempted || run.None? || !FormallyRecoverable(f.failure) {
      CodexKeepsInv(s, h, calls, f, t, w);
    } else {
      var c := Call(FormalRecovery(f, run.value.runId, FailureRevision(run.value)), w.recovery.Some?);
      assert h + (calls + [c]) == (h + calls) + [c];
      LaterKeepsInv(s, h + calls, t.noted, t.pruned);
      if w.recovery.None? {
        UnrecordedKeepsInv(s, h + calls, c, t.pruned);
      } else {
        var line := RecoveryLine(w.recovery.value.summary);
        RecoveryKeepsInv(s, h + calls, f, c.effect, line, t.noted);
        var s' := Put(s, i.(formalRecoveryAttempted := true, actions := i.actions + [line]));
        LaterKeepsInv(s', h + (calls + [c]), t.noted, t.pruned);
        if !w.recovery.value.ok { CodexKeepsInv(s', h, calls + [c], f, t, w); }
      }
    }
  }

  function Restarted(i: Incident, summary: string): Incident {
    i.(restartAttempts := i.restartAttempts + 1, actions := i.actions + [RestartLine(i.fingerprint.failure, summary)])
  }

  /** A restart that does not help, and was the last one, is followed by the next level. */
  predicate LastOneFails(i: Incident, t: Clock, w: World) {
    w.second.Some? && !Normal(Classify(w.second.value, t.again)) && i.restartAttempts + 1 >= RESTART_LIMIT
  }

  lemma {:induction false} AfterRestartIs(s: Snapshot, f: Fingerprint, t: Clock, w: World)
    requires Known(s, f) && w.restart.Some? && !LastOneFails(IncidentOf(s, f), t, w)
    requires Restartable(f.failure) && IncidentOf(s, f).restartAttempts < RESTART_LIMIT
    ensures
      var i, o := IncidentOf(s, f), Handle(s, f, t, w);
      && o.snapshot == Put(s, Restarted(i, w.restart.value.summary))
      && o.calls == [Call(Restart(f, ServiceFor(f.failure), i.restartAttempts + 1), true)]
  {
  }

  lemma {:induction false} AfterLastRestartIs(s: Snapshot, f: Fingerprint, t: Clock, w: World)
    requires Known(s, f) && w.restart.Some? && LastOneFails(IncidentOf(s, f), t, w)
    requires Restartable(f.failure) && IncidentOf(s, f).restartAttempts < RESTART_LIMIT
    ensures
      var i := IncidentOf(s, f);
      var s' := Put(s, Restarted(i, w.restart.value.summary));
      && Known(s', f)
      && Handle(s, f, t, w) ==
         Escalate(s', [Call(Restart(f, ServiceFor(f.failure), i.restartAttempts + 1), true)], f, t, w)
  {
    PutIs(s, Restarted(IncidentOf(s, f), w.restart.value.summary), f);
  }

  lemma {:induction false} LastRestartKeepsInv(s: Snapshot, h: seq<Call>, f: Fingerprint, t: Clock, w: World)
    requires Known(s, f) && !IncidentOf(s, f).blocked && Inv(s, h, t.noted) && t.Ticking() && w.restart.Some?
    requires Restartable(f.failure) && IncidentOf(s, f).restartAttempts < RESTART_LIMIT
    requires LastOneFails(IncidentOf(s, f), t, w)
    ensures Inv(Handle(s, f, t, w).snapshot, h + Handle(s, f, t, w).calls, t.pruned)
  {
    var i := IncidentOf(s, f);
    AfterLastRestartIs(s, f, t, w);
    RestartedKeepsInv(s, h, f, Restarted(i, w.restart.value.summary),
                      [Call(Restart(f, ServiceFor(f.failure), i.restartAttempts + 1), true)], t, w);
  }

  lemma {:induction false} RestartedKeepsInv(
    s: Snapshot, h: seq<Call>, f: Fingerprint, i': Incident, calls: seq<Call>, t: Clock, w: World)
    requires Known(s, f) && !IncidentOf(s, f).blocked && Inv(s, h, t.noted) && t.Ticking() && w.restart.Some?
    requires IncidentOf(s, f).restartAttempts < RESTART_LIMIT
    requires i' == Restarted(IncidentOf(s, f), w.restart.value.summary) && Known(Put(s, i'), f)
    requires calls == [Call(Restart(f, ServiceFor(f.failure), i'.restartAttempts), true)]
    ensures
      var o := Escalate(Put(s, i'), calls, f, t, w);
      Inv(o.snapshot, h + o.calls, t.pruned)
  {
    RestartKeepsInv(s, h, f, RestartLine(f.failure, w.restart.value.summary), t.noted);
    EscalateKeepsInv(Put(s, i'), h, calls, f, t, w);
  }

  lemma {:induction false} EarlyRestartKeepsInv(s: Snapshot, h: seq<Call>, f: Fingerprint, t: Clock, w: World)
    requires Known(s, f) && !IncidentOf(s, f).blocked && Inv(s, h, t.noted) && t.Ticking() && w.restart.Some?
    requires Restartable(f.failure) && IncidentOf(s, f).restartAttempts < RESTART_LIMIT
    requires !LastOneFails(IncidentOf(s, f), t, w)
    ensures Inv(Handle(s, f, t, w).snapshot, h + Handle(s, f, t, w).calls, t.pruned)
  {
    var i := IncidentOf(s, f);
    RestartKeepsInv(s, h, f, RestartLine(f.failure, w.restart.value.summary), t.noted);
    AfterRestartIs(s, f, t, w);
    LaterKeepsInv(Put(s, Restarted(i, w.restart.value.summary)),
                  h + [Call(Restart(f, ServiceFor(f.failure), i.restartAttempts + 1), true)], t.noted, t.pruned);
  }

  lemma {:induction false} HandleKeepsInv(s: Snapshot, h: seq<Call>, f: Fingerprint, t: Clock, w: World)
    requires Known(s, f) && !IncidentOf(s, f).blocked && Inv(s, h, t.noted) && t.Ticking()
    ensures
      var o := Handle(s, f, t, w);
      Inv(o.snapshot, h + o.calls, t.pruned)
  {
    var i := IncidentOf(s, f);
    if !Restartable(f.failure) || i.restartAttempts >= RESTART_LIMIT {
      assert h + [] == h;
      EscalateKeepsInv(s, h, [], f, t, w);
    } else if w.restart.None? {
      LaterKeepsInv(s, h, t.noted, t.pruned);
      UnrecordedKeepsInv(s, h, Call(Restart(f, ServiceFor(f.failure), i.restartAttempts + 1), false), t.pruned);
    } else if LastOneFails(i, t, w) {
      LastRestartKeepsInv(s, h, f, t, w);
    } else {
      EarlyRestartKeepsInv(s, h, f, t, w);
    }
  }

  lemma {:induction false} RoundKeepsInv(s: Snapshot, h: seq<Call>, t: Clock, w: World)
    requires Inv(s, h, t.classified) && t.Ticking()
    ensures Inv(Round(s, t, w).snapshot, h + Round(s, t, w).calls, t.pruned)
  {
    var c := Classify(w.first, t.classified);
    assert h + [] == h;
    LaterKeepsInv(s, h, t.classified, t.noted);
    LaterKeepsInv(s, h, t.classified, t.pruned);
    if w.noted && Normal(c) {
      SameIncidents(s, Round(s, t, w).snapshot, h);
    } else if w.noted {
      var f := IncidentFingerprint(c.failure, w.first);
      NotedKeepsInv(s, h, f, t.noted);
      LaterKeepsInv(Noted(s, f, t.noted), h, t.noted, t.pruned);
      if !IncidentOf(Noted(s, f, t.noted), f).blocked { HandleKeepsInv(Noted(s, f, t.noted), h, f, t, w); }
    }
  }

  lemma {:induction false} RunKeepsInv(run: seq<Turn>)
    requires Timed(run)
    ensures Inv(After(run), Calls(run), if |run| == 0 then 0 else run[|run|-1].clock.pruned)
    decreases |run|
  {
    if |run| == 0 {
      forall f ensures AccountsFor(EMPTY, [], f) { }
    } else {
      var before, t := run[..|run|-1], run[|run|-1];
      RunKeepsInv(before);
      if |before| == 0 {
        assert Attempts([], [], t.clock.classified);
      } else {
        LaterKeepsInv(After(before), Calls(before), before[|before|-1].clock.pruned, t.clock.classified);
      }
      RoundKeepsInv(After(before), Calls(before), t.clock, t.world);
    }
  }

  // ------------------------------------------------------------ main results

  /** Over every history, although the store keeps only the attempts of the last day: from each recorded repair
      attempt to the cooldown check of the next there are at least 30 minutes, and to the window check of the third
      after it at least a day. So recorded times are that far apart but for what an attempt's round had taken up to
      its check. */
  lemma {:induction false} RepairsAreRationed(run: seq<Turn>, i: nat)
    requires Timed(run) && i < |Times(Calls(run))|
    ensures
      var times := Times(Calls(run));
      && (i + 1 < |times| ==>
            && times[i+1].at - times[i].at >= 30 * 60_000 - (times[i+1].cooled - times[i+1].at)
            && times[i].at <= times[i+1].at)
      && (i + 3 < |times| ==>
            times[i+3].at - times[i].at >= 24 * 60 * 60_000 - (times[i+3].windowed - times[i+3].at))
  {
    RunKeepsInv(run);
    var times := Times(Calls(run));
    if i + 1 < |times| { assert GapAt(times, i); }
    if i + 3 < |times| { assert SpanAt(times, i); }
  }

  /** When every round comes to its checks within d of its recorded time, recorded attempts are at least 30 minutes
      less d apart, and any four span at least a day less d; with one reading for the whole round, d is 0. */
  lemma {:induction false} RepairsAreRationedWithin(run: seq<Turn>, d: int, i: nat)
    requires Timed(run) && i < |Times(Calls(run))|
    requires forall k :: 0 <= k < |run| ==> run[k].clock.cooled - run[k].clock.noted <= d
    ensures
      var times := Times(Calls(run));
      && (i + 1 < |times| ==> times[i+1].at - times[i].at >= 30 * 60_000 - d)
      && (i + 3 < |times| ==> times[i+3].at - times[i].at >= 24 * 60 * 60_000 - d)
  {
    RepairsAreRationed(run, i);
    LagsAreBounded(run, d);
  }

  /** An attempt's readings are those of its round. */
  predicate Prompt(times: seq<Attempt>, d: int) {
    forall i :: 0 <= i < |times| ==> times[i].windowed <= times[i].cooled && times[i].cooled - times[i].at <= d
  }

  lemma {:induction false} LagsAreBounded(run: seq<Turn>, d: int)
    requires Timed(run) && forall k :: 0 <= k < |run| ==> run[k].clock.cooled - run[k].clock.noted <= d
    ensures Prompt(Times(Calls(run)), d)
    decreases |run|
  {
    if |run| > 0 {
      var before, t := run[..|run|-1], run[|run|-1];
      LagsAreBounded(before, d);
      RoundIsAbout(After(before), t);
      MorePrompt(Calls(before), Round(After(before), t.clock, t.world).calls, t.clock, d);
    }
  }

  lemma {:induction false} MorePrompt(h: seq<Call>, more: seq<Call>, t: Clock, d: int)
    requires Prompt(Times(h), d) && t.Ticking() && t.cooled - t.noted <= d && ReadAt(more, t)
    ensures Prompt(Times(h + more), d)
    decreases |more|
  {
    if |more| == 0 {
      assert h + more == h;
    } else {
      assert (h + more)[..|h + more| - 1] == h + more[..|more|-1];
      MorePrompt(h, more[..|more|-1], t, d);
    }
  }

  /** Per incident the recorded actions of a whole history are at most three restarts, with the keys 1, 2, 3 in this
      order, and at most one formal recovery, one repair and one report. */
  lemma {:induction false} ActionsAreBounded(run: seq<Turn>, f: Fingerprint)
    requires Timed(run)
    ensures
      var t := Tallied(Calls(run), f);
      && |t.keys| <= 3 && t.keys == UpTo(|t.keys|) && t.formal <= 1 && t.codex <= 1 && t.reports <= 1
  {
    RunKeepsInv(run);
    assert AccountsFor(After(run), Calls(run), f);
  }

  /** The run that a formal recovery is for: of the BLOCKED runs that name their failed step and blocker the one
      updated last, with its failure as it is. */
  predicate NamesRun(runs: seq<Run>, runId: string, expected: Revision) {
    exists r :: r in runs && LatestBlocked(runs, r) && runId == r.runId
                && expected == Revision(r.runId, r.failedStep.value, r.blocker.value, r.retryBudget.consumed)
  }

  /** The run is the one by which incidents are identified. */
  predicate ForLatest(runs: seq<Run>, runId: string, expected: Revision) {
    var run := RecoverableRun(runs);
    run.Some? && runId == run.value.runId && expected == FailureRevision(run.value)
  }

  predicate Stopped(r: Run) {
    && r.status.Blocked? && r.failedStep.Some? && r.failedStep != Some("") && r.blocker.Some? && r.blocker != Some("")
  }

  predicate LatestBlocked(runs: seq<Run>, r: Run) {
    Stopped(r) && forall other :: other in runs && Stopped(other) ==> other.updatedAt <= r.updatedAt
  }

  /** A call of a round concerns the round's own incident, and is one that its failure calls for: a restart, of the
      watcher if that is down and of the control center otherwise, with one of three keys; the formal recovery of the
      latest blocked run, unless the failure is beyond a run; a repair of code, with the round's readings; or a
      report. */
  predicate AboutCall(e: Effect, f: Fingerprint, t: Clock, runs: seq<Run>) {
    && e.fingerprint == f
    && match e
       case Restart(_, service, key) =>
         && (f.failure.HealthOrServiceDown? || f.failure.WatcherDown? || f.failure.RestoreFailure?)
         && (service.CommissionWatcher? <==> f.failure.WatcherDown?) && 1 <= key <= 3
       case FormalRecovery(_, runId, expected) =>
         && !f.failure.UnknownFailure? && !f.failure.CodeFixRequired? && !f.failure.StateCorruption?
         && !f.failure.RevisionMismatch? && NamesRun(runs, runId, expected) && ForLatest(runs, runId, expected)
       case Codex(_, _, _, _) => (f.failure.UnknownFailure? || f.failure.CodeFixRequired?) && e == Attempted(f, t)
       case Report(_, lines) => |lines| <= 10
  }

  predicate About(calls: seq<Call>, f: Fingerprint, t: Clock, runs: seq<Run>) {
    forall c :: c in calls ==> AboutCall(c.effect, f, t, runs)
  }

  predicate ReadAt(calls: seq<Call>, t: Clock) {
    forall c :: c in calls && c.effect.Codex? ==> AttemptOf(c.effect) == Attempt(t.noted, t.windowed, t.cooled)
  }

  lemma {:induction false} OneIsAbout(e: Effect, f: Fingerprint, t: Clock, runs: seq<Run>)
    requires AboutCall(e, f, t, runs)
    ensures About([Call(e, true)], f, t, runs) && About([Call(e, false)], f, t, runs)
  {
  }

  lemma {:induction false} MoreAbout(calls: seq<Call>, e: Effect, f: Fingerprint, t: Clock, runs: seq<Run>)
    requires About(calls, f, t, runs) && AboutCall(e, f, t, runs)
    ensures About(calls + [Call(e, true)], f, t, runs) && About(calls + [Call(e, false)], f, t, runs)
  {
  }

  lemma {:induction false} HandleIsAbout(s: Snapshot, f: Fingerprint, t: Clock, w: World)
    requires Known(s, f)
    ensures About(Handle(s, f, t, w).calls, f, t, w.first.runs)
  {
    var i := IncidentOf(s, f);
    if !Restartable(f.failure) || i.restartAttempts >= RESTART_LIMIT {
      EscalateIsAbout(s, [], f, t, w);
    } else {
      var e := Restart(f, ServiceFor(f.failure), i.restartAttempts + 1);
      OneIsAbout(e, f, t, w.first.runs);
      if w.restart.Some? && w.second.Some? && !Normal(Classify(w.second.value, t.again))
         && i.restartAttempts + 1 >= RESTART_LIMIT {
        var line := RestartLine(f.failure, w.restart.value.summary);
        var i' := i.(restartAttempts := i.restartAttempts + 1, actions := i.actions + [line]);
        PutIs(s, i', f);
        EscalateIsAbout(Put(s, i'), [Call(e, true)], f, t, w);
      }
    }
  }

  lemma {:induction false} RecoveryNamesRun(runs: seq<Run>)
    requires RecoverableRun(runs).Some?
    ensures NamesRun(runs, RecoverableRun(runs).value.runId, FailureRevision(RecoverableRun(runs).value))
  {
    var r := RecoverableRun(runs).value;
    forall other | other in runs && Stopped(other) ensures other.updatedAt <= r.updatedAt { assert Recoverable(other); }
    assert LatestBlocked(runs, r);
  }

  lemma {:induction false} EscalateIsAbout(s: Snapshot, calls: seq<Call>, f: Fingerprint, t: Clock, w: World)
    requires Known(s, f) && About(calls, f, t, w.first.runs)
    ensures About(Escalate(s, calls, f, t, w).calls, f, t, w.first.runs)
  {
    var i := IncidentOf(s, f);
    var run := RecoverableRun(w.first.runs);
    if i.formalRecoveryAttempted || run.None? || !FormallyRecoverable(f.failure) {
      TryCodexIsAbout(s, calls, f, t, w);
    } else {
      var e := FormalRecovery(f, run.value.runId, FailureRevision(run.value));
      RecoveryNamesRun(w.first.runs);
      MoreAbout(calls, e, f, t, w.first.runs);
      if w.recovery.Some? && !w.recovery.value.ok {
        var line := RecoveryLine(w.recovery.value.summary);
        var i' := i.(formalRecoveryAttempted := true, actions := i.actions + [line]);
        PutIs(s, i', f);
        TryCodexIsAbout(Put(s, i'), calls + [Call(e, true)], f, t, w);
      }
    }
  }

  lemma {:induction false} ReportIsAbout(s: Snapshot, calls: seq<Call>, f: Fingerprint, t: Clock, w: World)
    requires Known(s, f) && About(calls, f, t, w.first.runs)
    ensures About(BlockAndReport(s, calls, f, w).calls, f, t, w.first.runs)
  {
    MoreAbout(calls, Report(f, LastTen(IncidentOf(s, f).actions)), f, t, w.first.runs);
  }

  lemma {:induction false} TryCodexIsAbout(s: Snapshot, calls: seq<Call>, f: Fingerprint, t: Clock, w: World)
    requires Known(s, f) && About(calls, f, t, w.first.runs)
    ensures About(TryCodex(s, calls, f, t, w).calls, f, t, w.first.runs)
  {
    ReportIsAbout(s, calls, f, t, w);
    var recent := Recent(s.codexAttempts, t.windowed);
    if ForCodex(f.failure) && !IncidentOf(s, f).codexAttempted && |recent| < DAILY_CODEX_LIMIT
       && !(|recent| > 0 && t.cooled - recent[|recent|-1] < COOLDOWN_MS) {
      MoreAbout(calls, Attempted(f, t), f, t, w.first.runs);
      if w.codex.Some? {
        var i := IncidentOf(s, f);
        var i' := i.(codexAttempted := true, actions := i.actions + [RepairLine(w.codex.value.summary)]);
        PutIs(s, i', f);
        var s' := Put(s, i').(codexAttempts := Recent(s.codexAttempts, t.pruned) + [t.noted]);
        assert IncidentOf(s', f) == i';
        ReportIsAbout(s', calls + [Call(Attempted(f, t), true)], f, t, w);
      }
    }
  }

  lemma {:induction false} RoundIsAbout(s: Snapshot, turn: Turn)
    ensures ReadAt(Round(s, turn.clock, turn.world).calls, turn.clock)
    ensures
      var t, w := turn.clock, turn.world;
      var c := Classify(w.first, t.classified);
      && (!w.noted || Normal(c) ==> Round(s, t, w).calls == [])
      && (w.noted && c.Failing? ==>
            About(Round(s, t, w).calls, IncidentFingerprint(c.failure, w.first), t, w.first.runs))
  {
    var t, w := turn.clock, turn.world;
    var c := Classify(w.first, t.classified);
    if w.noted && c.Failing? {
      var f := IncidentFingerprint(c.failure, w.first);
      HandleIsAbout(Noted(s, f, t.noted), f, t, w);
    }
  }

  /** The calls b go on from the calls a without touching an incident. */
  predicate Spare(a: seq<Call>, b: seq<Call>, f: Fingerprint) {
    |a| <= |b| && b[..|a|] == a && forall i :: |a| <= i < |b| ==> b[i].effect.fingerprint != f
  }

  /** From calls with a report of an incident one comes to calls that go on from them without touching it. */
  predicate Spares(a: seq<Call>, b: seq<Call>, f: Fingerprint) {
    Tallied(a, f).reports >= 1 ==> Spare(a, b, f) && Tallied(b, f).reports >= 1
  }

  predicate SparesNext(hs: seq<seq<Call>>, k: int, f: Fingerprint)
    requires 0 <= k < |hs| - 1
  {
    Spares(hs[k], hs[k+1], f)
  }

  lemma {:induction false} SparesAlong(hs: seq<seq<Call>>, n: nat, f: Fingerprint)
    requires n < |hs| && (forall k :: 0 <= k < n ==> SparesNext(hs, k, f))
    ensures Spares(hs[0], hs[n], f)
    decreases n
  {
    if n > 0 {
      SparesAlong(hs, n - 1, f);
      assert SparesNext(hs, n - 1, f);
    }
  }

  /** Once its report has been posted, an incident triggers nothing any more: no later call, recorded or not, is about
      it. */
  lemma {:induction false} BlockedForGood(run: seq<Turn>, later: seq<Turn>, f: Fingerprint)
    requires Timed(run + later) && Tallied(Calls(run), f).reports >= 1
    ensures Spare(Calls(run), Calls(run + later), f) && Tallied(Calls(run + later), f).reports >= 1
  {
    var n := |later|;
    var hs := seq(n + 1, k requires 0 <= k <= n => Calls(run + later[..k]));
    forall k | 0 <= k < n ensures SparesNext(hs, k, f) { SparesAt(run, later, k, f); }
    assert run + later[..0] == run && run + later[..n] == run + later;
    SparesAlong(hs, n, f);
  }

  lemma {:induction false} SparesAt(run: seq<Turn>, later: seq<Turn>, k: nat, f: Fingerprint)
    requires Timed(run + later) && k < |later|
    ensures Spares(Calls(run + later[..k]), Calls(run + later[..k+1]), f)
  {
    assert run + later[..k+1] == (run + later[..k]) + [later[k]];
    TimedBefore(run + later[..k+1], later[k+1..], run + later);
    BlockedRound(run + later[..k], later[k], f);
  }

  lemma {:induction false} BlockedRound(run: seq<Turn>, t: Turn, f: Fingerprint)
    requires Timed(run + [t])
    ensures Spares(Calls(run), Calls(run + [t]), f)
  {
    TimedBefore(run, [t], run + [t]);
    RunKeepsInv(run);
    OneMoreRound(run, t);
    var more := Round(After(run), t.clock, t.world).calls;
    if Tallied(Calls(run), f).reports >= 1 { RoundSparesBlocked(After(run), Calls(run), f, t); }
    TallyGrows(Calls(run), more, f);
  }

  lemma {:induction false} OneMoreRound(run: seq<Turn>, t: Turn)
    ensures Calls(run + [t]) == Calls(run) + Round(After(run), t.clock, t.world).calls
  {
    assert (run + [t])[..|run|] == run;
  }

  lemma {:induction false} TimedBefore(run: seq<Turn>, later: seq<Turn>, all: seq<Turn>)
    requires Timed(all) && all == run + later
    ensures Timed(run)
  {
    assert forall i :: 0 <= i < |run| ==> run[i] == all[i];
    forall i, k | 0 <= i < k < |run| ensures run[i].clock.pruned <= run[k].clock.classified {
      assert run[i] == all[i] && run[k] == all[k];
    }
  }

  lemma {:induction false} RoundSparesBlocked(s: Snapshot, h: seq<Call>, f: Fingerprint, t: Turn)
    requires Accounted(s, h) && Tallied(h, f).reports >= 1
    ensures forall c :: c in Round(s, t.clock, t.world).calls ==> c.effect.fingerprint != f
  {
    assert AccountsFor(s, h, f);
    RoundIsAbout(s, t);
    var at := t.clock.noted;
    PutIs(s, IncidentOf(s, f).(lastSeenAt := at), f);
    assert Noted(s, f, at).incidents == Put(s, IncidentOf(s, f).(lastSeenAt := at)).incidents;
  }

  lemma {:induction false} TallyGrows(h: seq<Call>, more: seq<Call>, f: Fingerprint)
    ensures Tallied(h + more, f).reports >= Tallied(h, f).reports
    decreases |more|
  {
    if |more| == 0 {
      assert h + more == h;
    } else {
      assert (h + more)[..|h + more| - 1] == h + more[..|more|-1];
      TallyGrows(h, more[..|more|-1], f);
    }
  }

  /** A normal classification means exactly that everything is up, current and readable and no run is stuck. */
  lemma {:induction false} NormalExactly(o: Observation, now: int)
    ensures Normal(Classify(o, now)) <==>
              && o.stateReadable && !o.restoreFailed && o.lccServiceActive && o.healthReady && o.watcherServiceActive
              && !(o.watcherUpdatedAt.Some? && Old(o.watcherUpdatedAt.value, now)) && o.watcherState != Some("DEGRADED")
              && (NonEmpty(o.expectedRevision) ==> o.productionRevision == o.expectedRevision)
              && !o.codeFixRequired && !o.unknownFailure
              && forall r :: r in o.runs ==>
                   !Lost(r) && !(r.status.Running? && Old(r.updatedAt, now)) && !LongBlocked(r, now)
  {
    if exists r :: r in o.runs && LongBlocked(r, now) && Mentions(r.blocker, "codex") {
      var r :| r in o.runs && LongBlocked(r, now) && Mentions(r.blocker, "codex");
      assert LongBlocked(r, now);
    }
  }

  /** The runs of a self-commissioning store pass its check, so that an actor is never reported lost. */
  lemma {:induction false} ActorsAreNeverLost(o: Observation, now: int)
    requires forall r :: r in o.runs ==> RunValid(r)
    ensures Classify(o, now) != Failing(ActorLost)
  {
    forall r | r in o.runs ensures !Lost(r) { assert RunValid(r); }
  }
}
