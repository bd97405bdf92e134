/** The pilot over whole histories: two scanners step by step, with everything else happening in between. */
module PilotBudget {
  import opened Common
  import opened WorkStateMachine
  import opened Execution
  import opened PilotControl

  datatype System = System(store: Store, executor: Pc, verifier: Pc)

  /** What the rest of the program may do to the store: items change freely, records finish and others are recovered,
      but nobody else writes the cycles or dispatches for the scope. */
  ghost predicate Elsewhere(s: Store, s': Store) {
    && s'.cycles == s.cycles && s'.dispatched == s.dispatched
    && forall id :: CountOf(ItemIds(s.records), id) <= CountOf(ItemIds(s'.records), id)
  }

  predicate ExecutorStep(cfg: Config, s: System, s': System, luck: Luck) {
    (s'.store, s'.executor) == Advance(cfg, s.store, s.executor, true, luck) && s'.verifier == s.verifier
  }

  predicate VerifierStep(cfg: Config, s: System, s': System, luck: Luck) {
    (s'.store, s'.verifier) == Advance(cfg, s.store, s.verifier, false, luck) && s'.executor == s.executor
  }

  /** A step of either scanner, of the rest of the program, or a restart. */
  ghost predicate Step(cfg: Config, s: System, s': System) {
    || (exists luck :: ExecutorStep(cfg, s, s', luck)) || (exists luck :: VerifierStep(cfg, s, s', luck))
    || (Elsewhere(s.store, s'.store) && s'.executor == s.executor && s'.verifier == s.verifier)
    || (s'.store == s.store && s'.executor == Idle && s'.verifier == Idle)
  }

  /** A history begins with both scanners idle, over any stored state whose dispatches are all recorded. */
  ghost predicate History(cfg: Config, trace: seq<System>) {
    && |trace| > 0 && trace[0].executor == Idle && trace[0].verifier == Idle
    && (forall id :: CountOf(trace[0].store.dispatched, id) <= CountOf(ItemIds(trace[0].store.records), id))
    && forall i :: 0 <= i < |trace| - 1 ==> StepAt(cfg, trace, i)
  }

  ghost predicate StepAt(cfg: Config, trace: seq<System>, i: int)
    requires 0 <= i < |trace| - 1
  {
    Step(cfg, trace[i], trace[i+1])
  }

  // ------------------------------------------------------------------- saves

  /** One cycle may follow another in the store. */
  predicate Follows(was: Cycle, c: Cycle) {
    && c.cycleId == was.cycleId && c.scopeFingerprint == was.scopeFingerprint && c.workItemId == was.workItemId
    && was.recoveryCount <= c.recoveryCount && was.remediationCount <= c.remediationCount
    && (was.recoveryConsumedAt.Some? ==> c.recoveryConsumedAt == was.recoveryConsumedAt)
    && (was.remediationConsumedAt.Some? ==> c.remediationConsumedAt == was.remediationConsumedAt)
  }

  /** A stored cycle, if there was one, is still there and has only gone on. */
  predicate GoesOn(cycles: seq<Cycle>, cycles': seq<Cycle>, id: string) {
    var before, after := FindCycle(cycles, id), FindCycle(cycles', id);
    before.Some? ==> after.Some? && Follows(before.value, after.value)
  }

  lemma {:induction false} GoesOnStill(a: seq<Cycle>, b: seq<Cycle>, c: seq<Cycle>, id: string)
    requires GoesOn(a, b, id) && GoesOn(b, c, id)
    ensures GoesOn(a, c, id)
  {
  }

  /** Whatever is saved by whomever, the stored cycle of every id goes on from the one before. */
  lemma {:induction false} SaveFollows(cycles: seq<Cycle>, c: Cycle, id: string)
    requires Save(cycles, c).Ok?
    ensures
      var before, after := FindCycle(cycles, id), FindCycle(Save(cycles, c).value, id);
      && (c.cycleId == id ==> after == Some(c))
      && (c.cycleId != id ==> after == before)
      && GoesOn(cycles, Save(cycles, c).value, id)
  {
    var next := Save(cycles, c).value;
    var i, k := CycleIndex(cycles, id), CycleIndex(next, id);
    if CycleIndex(cycles, c.cycleId) == |cycles| {
      assert next[|cycles|] == c;
      if i < |cycles| { assert next[i].cycleId == id; }
    } else {
      assert forall n :: 0 <= n < |cycles| ==> next[n].cycleId == cycles[n].cycleId;
    }
  }

  /** A save of a copy that was read before a grant is refused, whatever else it says. */
  lemma {:induction false} StaleSaveIsRefused(cycles: seq<Cycle>, was: Cycle, c: Cycle)
    requires FindCycle(cycles, c.cycleId) == Some(was)
    ensures Save(cycles, c).Ok? <==> ValidCycle(c) && Follows(was, c)
    ensures c.recoveryCount < was.recoveryCount || c.remediationCount < was.remediationCount ==> Save(cycles, c).Err?
  {
  }

  // ------------------------------------------------------------------ counting

  lemma {:induction false} CountOneMore(ids: seq<string>, x: string, id: string)
    ensures CountOf(ids + [x], id) == CountOf(ids, id) + if x == id then 1 else 0
  {
  }

  lemma {:induction false} RecordOneMore(records: seq<Record>, r: Record, id: string)
    ensures CountOf(ItemIds(records + [r]), id) == CountOf(ItemIds(records), id) + if r.workItemId == id then 1 else 0
  {
    assert ItemIds(records + [r]) == ItemIds(records) + [r.workItemId];
    CountOneMore(ItemIds(records), r.workItemId, id);
  }

  // ------------------------------------------------------------ the invariant

  function Stored(cfg: Config, s: Store): Option<Cycle> { FindCycle(s.cycles, cfg.cycleId) }

  function LimitFor(cfg: Config, s: Store, id: string): int {
    var c := Stored(cfg, s);
    if c.Some? && c.value.workItemId == id then EffectiveLimit(cfg, c.value) else 0
  }

  /** Every dispatch has a record, and no item has more dispatches than it started with or its cycle allows. */
  ghost predicate Within(cfg: Config, start: Store, s: Store) {
    forall id :: ItemWithin(cfg, start, s, id)
  }

  predicate ItemWithin(cfg: Config, start: Store, s: Store, id: string) {
    && CountOf(s.dispatched, id) <= CountOf(ItemIds(s.records), id)
    && CountOf(s.dispatched, id) <= Max(CountOf(start.dispatched, id), LimitFor(cfg, s, id))
  }

  /** What the execution scanner carries towards a dispatch is still true of the store: it has counted every dispatch,
      and the limit it goes by is no higher than the stored one. */
  predicate Carries(cfg: Config, s: Store, pc: Pc) {
    match pc
    case Counting(_, c) => c.cycleId == cfg.cycleId
    case SavingRefresh(_, c) =>
      c.cycleId == cfg.cycleId && CountOf(s.dispatched, c.workItemId) <= c.executionAttempts
    case Dispatching(item, c) =>
      CountOf(s.dispatched, item.id) < EffectiveLimit(cfg, c) <= LimitFor(cfg, s, item.id)
    case _ => true
  }

  ghost predicate Inv(cfg: Config, start: Store, s: System) {
    Within(cfg, start, s.store) && Carries(cfg, s.store, s.executor)
  }

  /** A step that does not dispatch and only lets cycles follow keeps what everyone relies on. */
  ghost predicate Quiet(cfg: Config, s: Store, s': Store) {
    && s'.dispatched == s.dispatched
    && GoesOn(s.cycles, s'.cycles, cfg.cycleId)
    && forall id :: CountOf(ItemIds(s.records), id) <= CountOf(ItemIds(s'.records), id)
  }

  lemma {:induction false} QuietKeepsInv(cfg: Config, start: Store, s: Store, s': Store, pc: Pc)
    requires Within(cfg, start, s) && Carries(cfg, s, pc) && Quiet(cfg, s, s')
    ensures Within(cfg, start, s') && Carries(cfg, s', pc)
  {
    forall id ensures ItemWithin(cfg, start, s', id) { assert ItemWithin(cfg, start, s, id); }
  }

  /** The cycle that a step at pc would save. */
  function Proposed(cfg: Config, pc: Pc, luck: Luck): Option<Cycle> {
    match pc
    case SavingNew(item) => Some(NewCycle(cfg, item.id, luck.now))
    case SavingRecovery(_, c) => Some(c)
    case SavingRemediation(_, c) => Some(c)
    case SavingRefresh(_, c) => Some(c)
    case _ => None
  }

  /** A step writes the cycles only by saving what it proposes, the records and dispatches only by a dispatch. */
  lemma {:induction false} AdvanceChanges(cfg: Config, s: Store, pc: Pc, dispatches: bool, luck: Luck)
    ensures
      var s' := Advance(cfg, s, pc, dispatches, luck).0;
      && (s'.cycles == s.cycles
          || (Proposed(cfg, pc, luck).Some? && Save(s.cycles, Proposed(cfg, pc, luck).value) == Ok(s'.cycles)))
      && ((s'.records == s.records && s'.dispatched == s.dispatched)
          || (pc.Dispatching? && s'.cycles == s.cycles && s'.dispatched == s.dispatched + [pc.item.id]
              && |s'.records| == |s.records| + 1 && s'.records[..|s.records|] == s.records
              && s'.records[|s.records|].workItemId == pc.item.id))
  {
  }

  lemma {:induction false} AdvanceGoesOn(cfg: Config, s: Store, pc: Pc, dispatches: bool, luck: Luck, id: string)
    ensures GoesOn(s.cycles, Advance(cfg, s, pc, dispatches, luck).0.cycles, id)
  {
    AdvanceChanges(cfg, s, pc, dispatches, luck);
    if Advance(cfg, s, pc, dispatches, luck).0.cycles != s.cycles {
      SaveFollows(s.cycles, Proposed(cfg, pc, luck).value, id);
    }
  }

  lemma {:induction false} AdvanceIsQuiet(cfg: Config, s: Store, pc: Pc, dispatches: bool, luck: Luck)
    requires !pc.Dispatching? || Advance(cfg, s, pc, dispatches, luck).0.dispatched == s.dispatched
    ensures Quiet(cfg, s, Advance(cfg, s, pc, dispatches, luck).0)
  {
    AdvanceChanges(cfg, s, pc, dispatches, luck);
    AdvanceGoesOn(cfg, s, pc, dispatches, luck, cfg.cycleId);
  }

  lemma {:induction false} RefreshCarries(cfg: Config, s: Store, item: Item, c: Cycle, luck: Luck)
    requires Carries(cfg, s, SavingRefresh(item, c))
    ensures
      var (s', pc') := Advance(cfg, s, SavingRefresh(item, c), true, luck);
      Carries(cfg, s', pc')
  {
    if Save(s.cycles, c).Ok? { SaveFollows(s.cycles, c, cfg.cycleId); }
  }

  /** What a step carries on is true of the store it leaves behind. */
  lemma {:induction false} AdvanceCarries(cfg: Config, start: Store, s: Store, pc: Pc, luck: Luck)
    requires Within(cfg, start, s) && Carries(cfg, s, pc)
    ensures
      var (s', pc') := Advance(cfg, s, pc, true, luck);
      Carries(cfg, s', pc')
  {
    if pc.Counting? {
      assert ItemWithin(cfg, start, s, pc.cycle.workItemId);
    } else if pc.SavingRefresh? {
      RefreshCarries(cfg, s, pc.item, pc.cycle, luck);
    }
  }

  lemma {:induction false} DispatchKeepsWithin(cfg: Config, start: Store, s: Store, s': Store, id: string)
    requires Within(cfg, start, s) && s'.cycles == s.cycles && s'.dispatched == s.dispatched + [id]
    requires |s'.records| == |s.records| + 1 && s'.records[..|s.records|] == s.records
    requires s'.records[|s.records|].workItemId == id
    requires CountOf(s.dispatched, id) < LimitFor(cfg, s, id)
    ensures Within(cfg, start, s')
  {
    forall other ensures ItemWithin(cfg, start, s', other) {
      assert ItemWithin(cfg, start, s, other);
      CountOneMore(s.dispatched, id, other);
      RecordOneMore(s.records, s'.records[|s.records|], other);
      assert s'.records == s.records + [s'.records[|s.records|]];
    }
  }

  /** The executor's step: where it comes to dispatch, its own counts allow it. */
  lemma {:induction false} ExecutorKeepsInv(cfg: Config, start: Store, s: Store, pc: Pc, luck: Luck)
    requires Within(cfg, start, s) && Carries(cfg, s, pc)
    ensures
      var (s', pc') := Advance(cfg, s, pc, true, luck);
      Within(cfg, start, s') && Carries(cfg, s', pc')
  {
    var s' := Advance(cfg, s, pc, true, luck).0;
    AdvanceChanges(cfg, s, pc, true, luck);
    AdvanceCarries(cfg, start, s, pc, luck);
    if s'.dispatched == s.dispatched {
      AdvanceIsQuiet(cfg, s, pc, true, luck);
      QuietKeepsInv(cfg, start, s, s', Idle);
    } else {
      DispatchKeepsWithin(cfg, start, s, s', pc.item.id);
    }
  }

  lemma {:induction false} VerifierNeverDispatches(cfg: Config, s: Store, pc: Pc, luck: Luck)
    ensures !Advance(cfg, s, pc, false, luck).1.Dispatching?
  {
  }

  lemma {:induction false} StepKeepsInv(cfg: Config, start: Store, s: System, s': System)
    requires Inv(cfg, start, s) && Step(cfg, s, s') && !s.verifier.Dispatching?
    ensures Inv(cfg, start, s') && !s'.verifier.Dispatching?
  {
    if luck :| ExecutorStep(cfg, s, s', luck) {
      ExecutorKeepsInv(cfg, start, s.store, s.executor, luck);
    } else if luck :| VerifierStep(cfg, s, s', luck) {
      AdvanceIsQuiet(cfg, s.store, s.verifier, false, luck);
      VerifierNeverDispatches(cfg, s.store, s.verifier, luck);
      QuietKeepsInv(cfg, start, s.store, s'.store, s.executor);
    } else if Elsewhere(s.store, s'.store) && s'.executor == s.executor && s'.verifier == s.verifier {
      QuietKeepsInv(cfg, start, s.store, s'.store, s.executor);
    }
  }

  lemma {:induction false} HistoryKeepsInv(cfg: Config, trace: seq<System>, n: nat)
    requires History(cfg, trace) && n < |trace|
    ensures Inv(cfg, trace[0].store, trace[n]) && !trace[n].verifier.Dispatching?
    decreases n
  {
    if n == 0 {
      forall id ensures ItemWithin(cfg, trace[0].store, trace[0].store, id) { }
    } else {
      HistoryKeepsInv(cfg, trace, n - 1);
      assert StepAt(cfg, trace, n - 1);
      StepKeepsInv(cfg, trace[0].store, trace[n-1], trace[n]);
    }
  }

  // ------------------------------------------------------------ main results

  /** In every interleaving, the executions dispatched for the cycle's item never exceed the scope's limit and one
      more per stored grant (unless they already did when the history began), and no other item gets any. */
  lemma {:induction false} DispatchesStayWithinBudget(cfg: Config, trace: seq<System>, n: nat, id: string)
    requires History(cfg, trace) && n < |trace|
    ensures
      var c := Stored(cfg, trace[n].store);
      var before, now := CountOf(trace[0].store.dispatched, id), CountOf(trace[n].store.dispatched, id);
      && (c.Some? && c.value.workItemId == id ==>
            now <= Max(before, cfg.maxExecutionAttempts + c.value.recoveryCount + c.value.remediationCount))
      && (c.None? || c.value.workItemId != id ==> now <= before)
  {
    HistoryKeepsInv(cfg, trace, n);
    assert ItemWithin(cfg, trace[0].store, trace[n].store, id);
  }

  lemma {:induction false} StepGoesOn(cfg: Config, s: System, s': System, id: string)
    requires Step(cfg, s, s')
    ensures GoesOn(s.store.cycles, s'.store.cycles, id)
  {
    if luck :| ExecutorStep(cfg, s, s', luck) {
      AdvanceGoesOn(cfg, s.store, s.executor, true, luck, id);
    } else if luck :| VerifierStep(cfg, s, s', luck) {
      AdvanceGoesOn(cfg, s.store, s.verifier, false, luck, id);
    }
  }

  lemma {:induction false} NextGoesOn(cfg: Config, trace: seq<System>, i: nat, id: string)
    requires History(cfg, trace) && i + 1 < |trace|
    ensures GoesOn(trace[i].store.cycles, trace[i+1].store.cycles, id)
  {
    assert StepAt(cfg, trace, i);
    StepGoesOn(cfg, trace[i], trace[i+1], id);
  }

  /** Over every history a stored cycle keeps its identity, its grants never go down, and the date of a consumed grant
      never changes: each grant goes from 0 to 1 at most once, and no stale save undoes it. */
  lemma {:induction false} GrantsAreWriteOnce(cfg: Config, trace: seq<System>, m: nat, n: nat, id: string)
    requires History(cfg, trace) && m <= n < |trace|
    ensures GoesOn(trace[m].store.cycles, trace[n].store.cycles, id)
    decreases n
  {
    if m < n {
      GrantsAreWriteOnce(cfg, trace, m, n - 1, id);
      NextGoesOn(cfg, trace, n - 1, id);
      GoesOnStill(trace[m].store.cycles, trace[n-1].store.cycles, trace[n].store.cycles, id);
    }
  }

  // -------------------------------------------------------- grants and requests

  /** A grant that a cycle has was there at the start or has been requested; a remediation comes after a recovery. */
  predicate Justified(cfg: Config, start: Store, c: Cycle) {
    var was := Stored(cfg, start);
    && c.cycleId == cfg.cycleId
    && (c.recoveryCount >= 1 ==> (was.Some? && was.value.recoveryCount >= 1) || cfg.recoveryId == Some(cfg.cycleId))
    && (c.remediationCount >= 1 ==>
          (was.Some? && was.value.remediationCount >= 1) || (RemediationRequested(cfg) && c.recoveryCount >= 1))
  }

  predicate AllJustified(cfg: Config, start: Store, s: Store) {
    Stored(cfg, s).Some? ==> Justified(cfg, start, Stored(cfg, s).value)
  }

  /** A scanner carries only justified cycles, and it is on the way to a recovery only when one was requested. */
  predicate CarriesJustified(cfg: Config, start: Store, pc: Pc) {
    match pc
    case Recovering(_, c) => Justified(cfg, start, c) && cfg.recoveryId == Some(cfg.cycleId)
    case SavingRecovery(_, c) => Justified(cfg, start, c)
    case RetryingRecovery(_, c) => Justified(cfg, start, c)
    case Remediating(_, c) => Justified(cfg, start, c) && RemediationRequested(cfg)
    case SavingRemediation(_, c) => Justified(cfg, start, c)
    case Counting(_, c) => Justified(cfg, start, c)
    case SavingRefresh(_, c) => Justified(cfg, start, c)
    case _ => true
  }

  lemma {:induction false} LookUpCarriesJustified(cfg: Config, start: Store, s: Store, item: Option<Item>, now: int)
    requires AllJustified(cfg, start, s)
    ensures CarriesJustified(cfg, start, LookUp(cfg, s, item, now))
  {
  }

  lemma {:induction false} GrantsJustified(cfg: Config, start: Store, item: Item, c: Cycle, now: int)
    requires Justified(cfg, start, c)
    ensures cfg.recoveryId == Some(cfg.cycleId) ==> Justified(cfg, start, Recovered(cfg, item, c, now))
    ensures RemediationRequested(cfg) && c.recoveryCount == 1 ==> Justified(cfg, start, Remediated(cfg, item, c, now))
    ensures CarriesJustified(cfg, start, AfterRecovery(cfg, item, c))
  {
  }

  lemma {:induction false} AdvanceCarriesJustified(
    cfg: Config, start: Store, s: Store, pc: Pc, dispatches: bool, luck: Luck)
    requires AllJustified(cfg, start, s) && CarriesJustified(cfg, start, pc)
    ensures CarriesJustified(cfg, start, Advance(cfg, s, pc, dispatches, luck).1)
  {
    match pc {
      case Looked(found) => LookUpCarriesJustified(cfg, start, s, found, luck.now);
      case Recovering(item, c) => GrantsJustified(cfg, start, item, c, luck.now);
      case RetryingRecovery(item, c) => GrantsJustified(cfg, start, item, c, luck.now);
      case Remediating(item, c) => GrantsJustified(cfg, start, item, c, luck.now);
      case _ =>
    }
  }

  lemma {:induction false} AdvanceKeepsJustified(
    cfg: Config, start: Store, s: Store, pc: Pc, dispatches: bool, luck: Luck)
    requires AllJustified(cfg, start, s) && CarriesJustified(cfg, start, pc)
    ensures AllJustified(cfg, start, Advance(cfg, s, pc, dispatches, luck).0)
  {
    AdvanceChanges(cfg, s, pc, dispatches, luck);
    if Advance(cfg, s, pc, dispatches, luck).0.cycles != s.cycles {
      SaveFollows(s.cycles, Proposed(cfg, pc, luck).value, cfg.cycleId);
    }
  }

  lemma {:induction false} StepKeepsJustified(cfg: Config, start: Store, s: System, s': System)
    requires Step(cfg, s, s') && AllJustified(cfg, start, s.store)
    requires CarriesJustified(cfg, start, s.executor) && CarriesJustified(cfg, start, s.verifier)
    ensures AllJustified(cfg, start, s'.store)
    ensures CarriesJustified(cfg, start, s'.executor) && CarriesJustified(cfg, start, s'.verifier)
  {
    if luck :| ExecutorStep(cfg, s, s', luck) {
      AdvanceCarriesJustified(cfg, start, s.store, s.executor, true, luck);
      AdvanceKeepsJustified(cfg, start, s.store, s.executor, true, luck);
    } else if luck :| VerifierStep(cfg, s, s', luck) {
      AdvanceCarriesJustified(cfg, start, s.store, s.verifier, false, luck);
      AdvanceKeepsJustified(cfg, start, s.store, s.verifier, false, luck);
    }
  }

  /** Over every history a grant appears only on request: a recovery when the configured request names the cycle, a
      remediation when one names an execution of the cycle and the recovery has been granted before. */
  lemma {:induction false} GrantsWereRequested(cfg: Config, trace: seq<System>, n: nat)
    requires History(cfg, trace) && n < |trace|
    ensures AllJustified(cfg, trace[0].store, trace[n].store)
    ensures CarriesJustified(cfg, trace[0].store, trace[n].executor)
    ensures CarriesJustified(cfg, trace[0].store, trace[n].verifier)
    decreases n
  {
    if n > 0 {
      GrantsWereRequested(cfg, trace, n - 1);
      assert StepAt(cfg, trace, n - 1);
      StepKeepsJustified(cfg, trace[0].store, trace[n-1], trace[n]);
    }
  }

  // --------------------------------------------------- a changed scope dispatches

  /** A whole undisturbed scan, from idle to the decision. */
  function Scan(cfg: Config, s: Store, luck: Luck): (Store, Pc) {
    var (s1, p1) := Advance(cfg, s, Idle, true, luck);
    var (s2, p2) := Advance(cfg, s1, p1, true, luck);
    var (s3, p3) := Advance(cfg, s2, p2, true, luck);
    var (s4, p4) := Advance(cfg, s3, p3, true, luck);
    Advance(cfg, s4, p4, true, luck)
  }

  /** An active cycle whose scope has been changed is refused as retargeted, but that answer is not consulted: a scan
      comes to dispatch it exactly when it would have without the change, by the limit of the new scope. */
  lemma {:induction false} RetargetedCycleDispatches(cfg: Config, s: Store, luck: Luck, item: Item, c: Cycle)
    requires cfg.enabled && ScopedItem(s) == Some(item) && Stored(cfg, s) == Some(c) && c.workItemId == item.id
    requires !FingerprintMatches(cfg, c.scopeFingerprint)
    ensures Scan(cfg, s, luck).1.Dispatching? <==>
              && c.status.ARMED? && item.labelled && (item.exec.workState.Ready? || item.exec.workState.Retrying?)
              && CountOf(ItemIds(s.records), item.id) < cfg.maxExecutionAttempts + c.recoveryCount + c.remediationCount
              && luck.written && ValidCycle(Reconciled(c, item, s.records, s.checks, luck.now))
  {
    var (s1, p1) := Advance(cfg, s, Idle, true, luck);
    var (s2, p2) := Advance(cfg, s1, p1, true, luck);
    assert s2 == s && p2 == Refreshing(item);
    var (s4, p4) := Advance(cfg, s, Counting(item, c), true, luck);
    assert p4 == SavingRefresh(item, Reconciled(c, item, s.records, s.checks, luck.now));
    StaleSaveIsRefused(s.cycles, c, p4.cycle);
  }

  /** For instance: armed under scope "a", then configured with scope "b". */
  lemma {:induction false} RetargetExample(cfg: Config, item: Item, luck: Luck)
    requires cfg == Config(true, "cycle", "b", None, 1, 0, true, None, None) && luck.written
    requires item.id == "item" && item.labelled && item.exec.workState.Ready?
    ensures
      var armed := NewCycle(cfg.(fingerprint := "a"), "item", 0);
      Scan(cfg, Store([armed], [item], [], [], []), luck).1.Dispatching?
  {
    var armed := NewCycle(cfg.(fingerprint := "a"), "item", 0);
    RetargetedCycleDispatches(cfg, Store([armed], [item], [], [], []), luck, item, armed);
  }
}
