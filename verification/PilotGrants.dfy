/** What the steps of the pilot's scanners do: when a grant is given, what it changes, and when an item is
    dispatched. */
module PilotGrants {
  import opened Common
  import opened Acceptance
  import opened WorkStateMachine
  import opened Execution
  import opened PilotControl
  import opened PilotBudget

  // ----------------------------------------------------------- what is granted

  /** The item is labelled and defined, its criteria are well-formed, the scope has not expired, and worker, workspace
      and profile are available. */
  predicate Startable(cfg: Config, item: Item, now: int) {
    item.labelled && item.definitionReady && Parse(item.criteria).Ok? && now < cfg.expiresAt && cfg.ready
  }

  /** The last record of an item. */
  predicate IsLatest(records: seq<Record>, itemId: string, k: nat) {
    k < |records| && records[k].workItemId == itemId
    && forall i :: k < i < |records| ==> records[i].workItemId != itemId
  }

  lemma {:induction false} LatestIsLast(records: seq<Record>, itemId: string) returns (k: nat)
    ensures var r := LatestOf(records, itemId);
            if r.Some? then IsLatest(records, itemId, k) && r.value == records[k]
            else forall i :: 0 <= i < |records| ==> records[i].workItemId != itemId
  {
    k := 0;
    if |records| > 0 {
      var n := |records| - 1;
      if records[n].workItemId == itemId { k := n; } else { k := LatestIsLast(records[..n], itemId); }
    }
  }

  predicate NoText(s: Option<string>) { s.None? || s == Some("") }

  /** A failure before the agent had started, that may be tried again. */
  predicate EarlyFailure(item: Item, r: Record) {
    && r.status.FailedRun? && NoText(r.baseHead) && NoText(r.candidateBranch) && NoText(r.candidateHead)
    && (r.retryable == Some(true)
        || (item.exec.transitionReason.Accepted? && item.exec.transitionReason.event.RetryableFailure?))
  }

  lemma {:induction false} LatestFailsEarly(item: Item, records: seq<Record>)
    ensures (exists k :: 0 <= k < |records| && IsLatest(records, item.id, k) && EarlyFailure(item, records[k])) <==>
            LatestOf(records, item.id).Some? && EarlyFailure(item, LatestOf(records, item.id).value)
  {
    var k := LatestIsLast(records, item.id);
    if LatestOf(records, item.id).Some? {
      forall j | 0 <= j < |records| && IsLatest(records, item.id, j) ensures j == k { assert j <= k && k <= j; }
    }
  }

  /** When exactly a recovery is granted. */
  lemma {:induction false} RecoveryEligibleExactly(cfg: Config, item: Item, c: Cycle, records: seq<Record>, now: int)
    ensures RecoveryEligible(cfg, item, c, records, now) <==>
              && cfg.enabled && (cfg.recoveryId.None? || cfg.recoveryId.value == cfg.cycleId)
              && c.scopeFingerprint == cfg.fingerprint && c.workItemId == item.id
              && c.recoveryCount == 0 && c.recoveryConsumedAt.None?
              && c.status.FAILED? && item.exec.workState.Failed? && Startable(cfg, item, now)
              && exists k :: 0 <= k < |records| && IsLatest(records, item.id, k) && EarlyFailure(item, records[k])
  {
    LatestFailsEarly(item, records);
  }

  /** The record that a remediation request must name: the last of the item, failed or timed out. */
  predicate RequestNames(cfg: Config, r: Record) {
    && (r.status.FailedRun? || r.status.TimedOut?)
    && cfg.remediationId == Some(cfg.cycleId + ":" + r.executionId)
  }

  lemma {:induction false} NamedLatest(cfg: Config, records: seq<Record>, itemId: string)
    ensures (exists k :: 0 <= k < |records| && IsLatest(records, itemId, k) && RequestNames(cfg, records[k])) <==>
            LatestOf(records, itemId).Some? && RequestNames(cfg, LatestOf(records, itemId).value)
  {
    var k := LatestIsLast(records, itemId);
    if LatestOf(records, itemId).Some? {
      forall j | 0 <= j < |records| && IsLatest(records, itemId, j) ensures j == k { assert j <= k && k <= j; }
    }
  }

  /** When exactly a remediation is granted. */
  lemma {:induction false} RemediationEligibleExactly(cfg: Config, item: Item, c: Cycle, records: seq<Record>, now: int)
    ensures RemediationEligible(cfg, item, c, records, now) <==>
              && cfg.enabled && (c.scopeFingerprint == cfg.fingerprint || cfg.compatible == Some(c.scopeFingerprint))
              && c.workItemId == item.id && c.recoveryCount == 1
              && c.remediationCount == 0 && c.remediationConsumedAt.None?
              && c.status.FAILED? && item.exec.workState.Failed? && Startable(cfg, item, now)
              && exists k :: 0 <= k < |records| && IsLatest(records, item.id, k) && RequestNames(cfg, records[k])
  {
    NamedLatest(cfg, records, item.id);
  }

  /** A cycle with one more grant: armed again, with the request and its date, and why it had failed. */
  predicate GrantsRecovery(cfg: Config, item: Item, c: Cycle, v: Cycle, now: int) {
    && v.recoveryCount == c.recoveryCount + 1 && v.recoveryConsumedAt == Some(now)
    && v.recoveryRequestId == cfg.recoveryId && v.previousFailureReason == Some(item.exec.transitionReason)
    && v.note.RecoveryConsumed? && v.remediationCount == c.remediationCount
    && v.remediationConsumedAt == c.remediationConsumedAt && v.remediationRequestId == c.remediationRequestId
    && v.previousRemediationFailureReason == c.previousRemediationFailureReason && Rearmed(c, v, now)
  }

  predicate GrantsRemediation(cfg: Config, item: Item, c: Cycle, v: Cycle, now: int) {
    && v.remediationCount == c.remediationCount + 1 && v.remediationConsumedAt == Some(now)
    && v.remediationRequestId == cfg.remediationId
    && v.previousRemediationFailureReason == Some(item.exec.transitionReason)
    && v.note.RemediationConsumed? && v.recoveryCount == c.recoveryCount
    && v.recoveryConsumedAt == c.recoveryConsumedAt && v.recoveryRequestId == c.recoveryRequestId
    && v.previousFailureReason == c.previousFailureReason && Rearmed(c, v, now)
  }

  predicate Rearmed(c: Cycle, v: Cycle, now: int) {
    && v.status.ARMED? && v.updatedAt == now && v.startedAt == c.startedAt && v.cycleId == c.cycleId
    && v.scopeFingerprint == c.scopeFingerprint && v.workItemId == c.workItemId && SameWork(c, v)
  }

  predicate SameWork(c: Cycle, v: Cycle) {
    && v.baseHead == c.baseHead && v.candidateBranch == c.candidateBranch && v.candidateHead == c.candidateHead
    && v.executionAttempts == c.executionAttempts && v.verificationRuns == c.verificationRuns
  }

  /** Only the execution fields of the first item with this id have changed, by this event. */
  predicate Transits(s: Store, s': Store, id: string, event: Event, item: Item) {
    && s'.cycles == s.cycles && s'.records == s.records && s'.checks == s.checks && s'.dispatched == s.dispatched
    && |s'.items| == |s.items|
    && exists i :: 0 <= i < |s.items| && TransitsAt(s, s', i, id, event, item)
  }

  predicate TransitsAt(s: Store, s': Store, i: nat, id: string, event: Event, item: Item) {
    && i < |s.items| == |s'.items| && s.items[i].id == id && (forall k :: 0 <= k < i ==> s.items[k].id != id)
    && (forall k :: 0 <= k < |s.items| && k != i ==> s'.items[k] == s.items[k])
    && Transition(s.items[i].exec, event).Ok?
    && s'.items[i] == item && item.id == id && item.labelled == s.items[i].labelled
    && item.definitionReady == s.items[i].definitionReady && item.criteria == s.items[i].criteria
    && item.exec == Transition(s.items[i].exec, event).value
  }

  lemma {:induction false} TransitIs(s: Store, id: string, event: Event)
    ensures TransitItem(s, id, event).Ok? ==>
              Transits(s, TransitItem(s, id, event).value.0, id, event, TransitItem(s, id, event).value.1)
    ensures TransitItem(s, id, event).Ok? <==>
              exists i :: 0 <= i < |s.items| && s.items[i].id == id && (forall k :: 0 <= k < i ==> s.items[k].id != id)
                          && Transition(s.items[i].exec, event).Ok?
  {
    var i := ItemIndex(s.items, id);
    if TransitItem(s, id, event).Ok? {
      assert TransitsAt(s, TransitItem(s, id, event).value.0, i, id, event, TransitItem(s, id, event).value.1);
    }
  }

  // --------------------------------------------------------- a scan that grants

  /** A whole scan that nothing disturbs, up to where the cycle is to be brought up to date. */
  function Steps(cfg: Config, s: Store, pc: Pc, dispatches: bool, luck: Luck, n: nat): (Store, Pc)
    decreases n
  {
    if n == 0 then (s, pc)
    else
      var (s', pc') := Advance(cfg, s, pc, dispatches, luck);
      Steps(cfg, s', pc', dispatches, luck, n - 1)
  }

  /** The cycle is the one of the configured scope and of its item. */
  predicate InScope(cfg: Config, s: Store, item: Item, c: Cycle) {
    && cfg.enabled && s.items == [item] && Stored(cfg, s) == Some(c) && c.workItemId == item.id
    && (c.scopeFingerprint == cfg.fingerprint || cfg.compatible == Some(c.scopeFingerprint))
  }

  /** One step more, from (s, p) by way of (m, q). */
  lemma {:induction false} StepMore(
    cfg: Config, s: Store, p: Pc, m: Store, q: Pc, dispatches: bool, luck: Luck, n: nat)
    requires Advance(cfg, s, p, dispatches, luck) == (m, q)
    ensures Steps(cfg, s, p, dispatches, luck, n + 1) == Steps(cfg, m, q, dispatches, luck, n)
  {
  }

  /** The state after the item has moved by an event. */
  function Moved(s: Store, item: Item, event: Event): Store
    requires Transition(item.exec, event).Ok?
  {
    s.(items := [item.(exec := Transition(item.exec, event).value)])
  }

  lemma {:induction false} OneItemMoves(s: Store, item: Item, event: Event)
    requires s.items == [item] && Transition(item.exec, event).Ok?
    ensures TransitItem(s, item.id, event) == Ok((Moved(s, item, event), Moved(s, item, event).items[0]))
  {
    assert ItemIndex(s.items, item.id) == 0;
    assert s.items[0 := item.(exec := Transition(item.exec, event).value)] == Moved(s, item, event).items;
  }

  /** A valid cycle that goes on from the stored one is saved in its place. */
  lemma {:induction false} SavesInPlace(cfg: Config, s: Store, c: Cycle, v: Cycle)
    requires Stored(cfg, s) == Some(c) && v.cycleId == cfg.cycleId && ValidCycle(v) && Follows(c, v)
    ensures Saved(s, v, true).Ok? && Stored(cfg, Saved(s, v, true).value) == Some(v)
    ensures Saved(s, v, true).value.items == s.items && Saved(s, v, true).value.records == s.records
    ensures Saved(s, v, true).value.dispatched == s.dispatched && Saved(s, v, true).value.checks == s.checks
  {
    StaleSaveIsRefused(s.cycles, c, v);
    SaveFollows(s.cycles, v, cfg.cycleId);
  }

  /** An undisturbed scan with a requested and eligible recovery saves exactly one grant, and then sends
      RETRY_STARTED: its item is RETRYING. */
  lemma {:induction false} RecoveryIsGranted(
    cfg: Config, s: Store, item: Item, c: Cycle, dispatches: bool, luck: Luck)
    requires InScope(cfg, s, item, c) && cfg.recoveryId == Some(cfg.cycleId) && luck.written
    requires RecoveryEligible(cfg, item, c, s.records, luck.now) && ValidCycle(c) && IdText(cfg.cycleId)
    ensures
      var (s', pc') := Steps(cfg, s, Idle, dispatches, luck, 5);
      && Stored(cfg, s').Some? && GrantsRecovery(cfg, item, c, Stored(cfg, s').value, luck.now)
      && |s'.items| == 1 && s'.items[0] == item.(exec := s'.items[0].exec) && s'.items[0].exec.workState.Retrying?
      && s'.records == s.records && s'.dispatched == s.dispatched && s'.checks == s.checks
      && (pc'.Refreshing? || pc'.Remediating?) && pc'.item == s'.items[0]
  {
    var v := Recovered(cfg, item, c, luck.now);
    SavesInPlace(cfg, s, c, v);
    var s1 := Saved(s, v, true).value;
    Retries(s1, item);
    var s2 := Moved(s1, item, RetryStarted);
    ScanBegins(cfg, s, item, dispatches, luck);
    LooksForRecovery(cfg, s, item, c, dispatches, luck);
    GrantsOne(cfg, s, item, c, dispatches, luck);
    SavesGrant(cfg, s, item, v, dispatches, luck);
    SendsRetry(cfg, s1, item, v, dispatches, luck);
    StepMore(cfg, s, Idle, s, Looked(Some(item)), dispatches, luck, 4);
    StepMore(cfg, s, Looked(Some(item)), s, Recovering(item, c), dispatches, luck, 3);
    StepMore(cfg, s, Recovering(item, c), s, SavingRecovery(item, v), dispatches, luck, 2);
    StepMore(cfg, s, SavingRecovery(item, v), s1, RetryingRecovery(item, v), dispatches, luck, 1);
    StepMore(cfg, s1, RetryingRecovery(item, v), s2, AfterRecovery(cfg, s2.items[0], v), dispatches, luck, 0);
  }

  lemma {:induction false} Retries(s: Store, item: Item)
    requires s.items == [item] && item.exec.workState.Failed?
    ensures Transition(item.exec, RetryStarted).Ok?
    ensures Transition(item.exec, RetryStarted).value.workState.Retrying?
    ensures TransitItem(s, item.id, RetryStarted) ==
            Ok((Moved(s, item, RetryStarted), Moved(s, item, RetryStarted).items[0]))
  {
    DecisionsAreAllowed(item.exec, RetryStarted);
    OneItemMoves(s, item, RetryStarted);
  }

  lemma {:induction false} ScanBegins(cfg: Config, s: Store, item: Item, dispatches: bool, luck: Luck)
    requires cfg.enabled && s.items == [item]
    ensures Advance(cfg, s, Idle, dispatches, luck) == (s, Looked(Some(item)))
  {
  }

  lemma {:induction false} LooksForRecovery(
    cfg: Config, s: Store, item: Item, c: Cycle, dispatches: bool, luck: Luck)
    requires InScope(cfg, s, item, c) && cfg.recoveryId == Some(cfg.cycleId)
    ensures Advance(cfg, s, Looked(Some(item)), dispatches, luck) == (s, Recovering(item, c))
  {
  }

  lemma {:induction false} GrantsOne(cfg: Config, s: Store, item: Item, c: Cycle, dispatches: bool, luck: Luck)
    requires RecoveryEligible(cfg, item, c, s.records, luck.now)
    ensures Advance(cfg, s, Recovering(item, c), dispatches, luck) ==
            (s, SavingRecovery(item, Recovered(cfg, item, c, luck.now)))
  {
  }

  lemma {:induction false} SavesGrant(cfg: Config, s: Store, item: Item, v: Cycle, dispatches: bool, luck: Luck)
    requires luck.written && Saved(s, v, true).Ok?
    ensures Advance(cfg, s, SavingRecovery(item, v), dispatches, luck) ==
            (Saved(s, v, true).value, RetryingRecovery(item, v))
    ensures Advance(cfg, s, SavingRemediation(item, v), dispatches, luck) ==
            (Saved(s, v, true).value, RetryingRemediation(item))
  {
  }

  lemma {:induction false} SendsRetry(cfg: Config, s: Store, item: Item, v: Cycle, dispatches: bool, luck: Luck)
    requires Transition(item.exec, RetryStarted).Ok?
    requires TransitItem(s, item.id, RetryStarted) ==
             Ok((Moved(s, item, RetryStarted), Moved(s, item, RetryStarted).items[0]))
    ensures Advance(cfg, s, RetryingRecovery(item, v), dispatches, luck) ==
            (Moved(s, item, RetryStarted), AfterRecovery(cfg, Moved(s, item, RetryStarted).items[0], v))
    ensures Advance(cfg, s, RetryingRemediation(item), dispatches, luck) ==
            (Moved(s, item, RetryStarted), Refreshing(Moved(s, item, RetryStarted).items[0]))
  {
  }

  /** Likewise with a requested and eligible remediation. */
  lemma {:induction false} RemediationIsGranted(
    cfg: Config, s: Store, item: Item, c: Cycle, dispatches: bool, luck: Luck)
    requires InScope(cfg, s, item, c) && cfg.recoveryId != Some(cfg.cycleId) && luck.written
    requires RemediationEligible(cfg, item, c, s.records, luck.now) && ValidCycle(c)
    requires cfg.remediationId.Some? && PairText(cfg.remediationId.value)
    ensures
      var (s', pc') := Steps(cfg, s, Idle, dispatches, luck, 5);
      && Stored(cfg, s').Some? && GrantsRemediation(cfg, item, c, Stored(cfg, s').value, luck.now)
      && |s'.items| == 1 && s'.items[0] == item.(exec := s'.items[0].exec) && s'.items[0].exec.workState.Retrying?
      && s'.records == s.records && s'.dispatched == s.dispatched && s'.checks == s.checks
      && pc' == Refreshing(s'.items[0])
  {
    var v := Remediated(cfg, item, c, luck.now);
    assert RemediationRequested(cfg);
    SavesInPlace(cfg, s, c, v);
    var s1 := Saved(s, v, true).value;
    Retries(s1, item);
    var s2 := Moved(s1, item, RetryStarted);
    ScanBegins(cfg, s, item, dispatches, luck);
    LooksForRemediation(cfg, s, item, c, dispatches, luck);
    GrantsAnother(cfg, s, item, c, dispatches, luck);
    SavesGrant(cfg, s, item, v, dispatches, luck);
    SendsRetry(cfg, s1, item, v, dispatches, luck);
    StepMore(cfg, s, Idle, s, Looked(Some(item)), dispatches, luck, 4);
    StepMore(cfg, s, Looked(Some(item)), s, Remediating(item, c), dispatches, luck, 3);
    StepMore(cfg, s, Remediating(item, c), s, SavingRemediation(item, v), dispatches, luck, 2);
    StepMore(cfg, s, SavingRemediation(item, v), s1, RetryingRemediation(item), dispatches, luck, 1);
    StepMore(cfg, s1, RetryingRemediation(item), s2, Refreshing(s2.items[0]), dispatches, luck, 0);
  }

  lemma {:induction false} LooksForRemediation(
    cfg: Config, s: Store, item: Item, c: Cycle, dispatches: bool, luck: Luck)
    requires InScope(cfg, s, item, c) && cfg.recoveryId != Some(cfg.cycleId) && RemediationRequested(cfg)
    ensures Advance(cfg, s, Looked(Some(item)), dispatches, luck) == (s, Remediating(item, c))
  {
  }

  lemma {:induction false} GrantsAnother(cfg: Config, s: Store, item: Item, c: Cycle, dispatches: bool, luck: Luck)
    requires RemediationEligible(cfg, item, c, s.records, luck.now)
    ensures Advance(cfg, s, Remediating(item, c), dispatches, luck) ==
            (s, SavingRemediation(item, Remediated(cfg, item, c, luck.now)))
  {
    EligibleIsOpen(cfg, item, c, s.records, luck.now);
    OpenIsGranted(cfg, s, item, c, dispatches, luck, RemediationEligible(cfg, item, c, s.records, luck.now));
  }

  lemma {:induction false} EligibleIsOpen(cfg: Config, item: Item, c: Cycle, records: seq<Record>, now: int)
    requires RemediationEligible(cfg, item, c, records, now)
    ensures c.remediationConsumedAt.None?
  {
  }

  lemma {:induction false} OpenIsGranted(
    cfg: Config, s: Store, item: Item, c: Cycle, dispatches: bool, luck: Luck, eligible: bool)
    requires c.remediationConsumedAt.None? && eligible == RemediationEligible(cfg, item, c, s.records, luck.now)
    ensures Advance(cfg, s, Remediating(item, c), dispatches, luck) ==
            (s, if eligible then SavingRemediation(item, Remediated(cfg, item, c, luck.now)) else Refreshing(item))
  {
  }

  /** A scan that asks for a grant it may not have saves none: the cycles stay as they are. */
  lemma {:induction false} NothingElseIsGranted(cfg: Config, s: Store, pc: Pc, dispatches: bool, luck: Luck)
    requires pc.Recovering? || pc.Remediating?
    ensures
      var (s', pc') := Advance(cfg, s, pc, dispatches, luck);
      && s'.cycles == s.cycles && s'.records == s.records && s'.dispatched == s.dispatched
      && (pc'.SavingRecovery? ==>
            && pc.Recovering? && s' == s && RecoveryEligible(cfg, pc.item, pc.cycle, s.records, luck.now)
            && pc'.item == pc.item && GrantsRecovery(cfg, pc.item, pc.cycle, pc'.cycle, luck.now))
      && (pc'.SavingRemediation? ==>
            && pc.Remediating? && s' == s && RemediationEligible(cfg, pc.item, pc.cycle, s.records, luck.now)
            && pc'.item == pc.item && GrantsRemediation(cfg, pc.item, pc.cycle, pc'.cycle, luck.now))
      && (s'.items != s.items ==>
            && pc.item.exec.workState.Failed? && TransitItem(s, pc.item.id, RetryStarted).Ok?
            && s' == TransitItem(s, pc.item.id, RetryStarted).value.0)
  {
  }

  /** A new, armed cycle of the scope and its item. */
  predicate Begun(cfg: Config, item: Item, v: Cycle, now: int) {
    && v.cycleId == cfg.cycleId && v.scopeFingerprint == cfg.fingerprint && v.workItemId == item.id
    && v.status.ARMED? && v.startedAt == v.updatedAt == now && v.note.GatePassed?
    && v.executionAttempts == v.verificationRuns == v.recoveryCount == v.remediationCount == 0
    && v.baseHead.None? && v.candidateBranch.None? && v.candidateHead.None? && v.recoveryRequestId.None?
    && v.recoveryConsumedAt.None? && v.remediationRequestId.None? && v.remediationConsumedAt.None?
    && v.previousFailureReason.None? && v.previousRemediationFailureReason.None?
  }

  /** The first scan of a scope: with a startable item whose definition is open it completes the definition and saves
      a new, armed cycle. */
  lemma {:induction false} CycleIsBegun(cfg: Config, s: Store, item: Item, dispatches: bool, luck: Luck)
    requires cfg.enabled && s.items == [item] && Stored(cfg, s) == None && luck.written
    requires Startable(cfg, item, luck.now) && item.exec.workState.Defined?
    requires cfg.cycleId != "" && cfg.fingerprint != "" && item.id != ""
    ensures
      var (s', pc') := Steps(cfg, s, Idle, dispatches, luck, 4);
      && Stored(cfg, s').Some?
      && Begun(cfg, item, Stored(cfg, s').value, luck.now)
      && |s'.items| == 1 && s'.items[0] == item.(exec := s'.items[0].exec) && s'.items[0].exec.workState.Ready?
      && s'.items[0].exec.ballHolder.CODEX?
      && s'.records == s.records && s'.dispatched == s.dispatched && pc' == Refreshing(s'.items[0])
  {
    DecisionsAreAllowed(item.exec, DefinitionCompleted(Holder.CODEX));
    OneItemMoves(s, item, DefinitionCompleted(Holder.CODEX));
    var s1 := Moved(s, item, DefinitionCompleted(Holder.CODEX));
    var v := NewCycle(cfg, item.id, luck.now);
    SaveFollows(s1.cycles, v, cfg.cycleId);
    var s2 := Saved(s1, v, true).value;
    ScanBegins(cfg, s, item, dispatches, luck);
    BeginsCycle(cfg, s, s1, item, dispatches, luck);
    StepMore(cfg, s, Idle, s, Looked(Some(item)), dispatches, luck, 3);
    StepMore(cfg, s, Looked(Some(item)), s, Defining(item), dispatches, luck, 2);
    StepMore(cfg, s, Defining(item), s1, SavingNew(s1.items[0]), dispatches, luck, 1);
    StepMore(cfg, s1, SavingNew(s1.items[0]), s2, Refreshing(s1.items[0]), dispatches, luck, 0);
  }

  lemma {:induction false} BeginsCycle(
    cfg: Config, s: Store, s1: Store, item: Item, dispatches: bool, luck: Luck)
    requires cfg.enabled && Stored(cfg, s) == None && luck.written && |s1.items| == 1
    requires Startable(cfg, item, luck.now) && item.exec.workState.Defined?
    requires TransitItem(s, item.id, DefinitionCompleted(Holder.CODEX)) == Ok((s1, s1.items[0]))
    requires Saved(s1, NewCycle(cfg, s1.items[0].id, luck.now), true).Ok?
    ensures Advance(cfg, s, Looked(Some(item)), dispatches, luck) == (s, Defining(item))
    ensures Advance(cfg, s, Defining(item), dispatches, luck) == (s1, SavingNew(s1.items[0]))
    ensures Advance(cfg, s1, SavingNew(s1.items[0]), dispatches, luck) ==
            (Saved(s1, NewCycle(cfg, s1.items[0].id, luck.now), true).value, Refreshing(s1.items[0]))
  {
  }

  // ------------------------------------------------------ refresh and dispatch

  /** The records of an item, by position. */
  function Those(ids: seq<string>, id: string): set<nat> { set k: nat | k < |ids| && ids[k] == id }

  lemma {:induction false} CountIsSize(ids: seq<string>, id: string)
    ensures CountOf(ids, id) == |Those(ids, id)|
    decreases |ids|
  {
    if |ids| == 0 {
      assert Those(ids, id) == {};
    } else {
      CountIsSize(ids[..|ids|-1], id);
      OneMoreOf(ids, id);
    }
  }

  lemma {:induction false} OneMoreOf(ids: seq<string>, id: string)
    requires |ids| > 0
    ensures |Those(ids, id)| == |Those(ids[..|ids|-1], id)| + if ids[|ids|-1] == id then 1 else 0
  {
    var n := |ids| - 1;
    assert Those(ids, id) == Those(ids[..n], id) + if ids[n] == id then {n} else {};
  }

  /** The last successful record of an item. */
  predicate IsLastSuccess(records: seq<Record>, itemId: string, k: nat) {
    && k < |records| && records[k].workItemId == itemId && records[k].status.Succeeded?
    && forall i :: k < i < |records| ==> !(records[i].workItemId == itemId && records[i].status.Succeeded?)
  }

  lemma {:induction false} SuccessIsLast(records: seq<Record>, itemId: string) returns (k: nat)
    ensures var r := LatestSuccess(records, itemId);
            if r.Some? then IsLastSuccess(records, itemId, k) && r.value == records[k]
            else forall i :: 0 <= i < |records| ==> !(records[i].workItemId == itemId && records[i].status.Succeeded?)
  {
    k := 0;
    if |records| > 0 {
      var n := |records| - 1;
      if records[n].workItemId == itemId && records[n].status.Succeeded? { k := n; }
      else { k := SuccessIsLast(records[..n], itemId); }
    }
  }

  predicate TakesHead(v: Option<string>, recorded: Option<string>, was: Option<string>) {
    if recorded.Some? then v == recorded else v == was
  }

  /** A refreshed cycle: its status follows the item where that says something, its counts are those of the logs, and
      its heads those of the last success; its identity and its grants stay. */
  predicate Refreshed(c: Cycle, v: Cycle, item: Item, s: Store, now: int) {
    var state := item.exec.workState;
    && (v.status == if state.WaitingHuman? then WAITING_HUMAN else if state.Verifying? then VERIFYING
                    else if state.Running? then EXECUTING else if state.Failed? then FAILED else c.status)
    && v.executionAttempts == |Those(ItemIds(s.records), c.workItemId)|
    && v.verificationRuns == |Those(s.checks, c.workItemId)|
    && v.updatedAt == now && v.note == ItemSays(item.exec.transitionReason)
    && v.cycleId == c.cycleId && v.scopeFingerprint == c.scopeFingerprint && v.workItemId == c.workItemId
    && v.startedAt == c.startedAt && v.recoveryRequestId == c.recoveryRequestId
    && v.recoveryConsumedAt == c.recoveryConsumedAt && v.recoveryCount == c.recoveryCount
    && v.previousFailureReason == c.previousFailureReason && v.remediationRequestId == c.remediationRequestId
    && v.remediationConsumedAt == c.remediationConsumedAt && v.remediationCount == c.remediationCount
    && v.previousRemediationFailureReason == c.previousRemediationFailureReason
    && (forall k :: 0 <= k < |s.records| && IsLastSuccess(s.records, c.workItemId, k) ==>
          && TakesHead(v.baseHead, s.records[k].baseHead, c.baseHead)
          && TakesHead(v.candidateBranch, s.records[k].candidateBranch, c.candidateBranch)
          && TakesHead(v.candidateHead, s.records[k].candidateHead, c.candidateHead))
    && ((forall k :: 0 <= k < |s.records| ==> !IsLastSuccess(s.records, c.workItemId, k)) ==>
          v.baseHead == c.baseHead && v.candidateBranch == c.candidateBranch && v.candidateHead == c.candidateHead)
  }

  lemma {:induction false} RefreshIsExact(
    cfg: Config, s: Store, item: Item, c: Cycle, dispatches: bool, luck: Luck) returns (v: Cycle)
    ensures Advance(cfg, s, Counting(item, c), dispatches, luck) == (s, SavingRefresh(item, v))
    ensures Refreshed(c, v, item, s, luck.now)
  {
    v := Reconciled(c, item, s.records, s.checks, luck.now);
    CountIsSize(ItemIds(s.records), c.workItemId);
    CountIsSize(s.checks, c.workItemId);
    var k := SuccessIsLast(s.records, c.workItemId);
    forall i: nat | i < |s.records| && IsLastSuccess(s.records, c.workItemId, i)
      ensures LatestSuccess(s.records, c.workItemId) == Some(s.records[i])
    {
      assert i <= k && k <= i;
    }
    if LatestSuccess(s.records, c.workItemId).Some? { assert IsLastSuccess(s.records, c.workItemId, k); }
  }

  /** After a refresh has been saved the execution scanner goes on to a dispatch if and only if the cycle is ARMED
      with executions left and its labelled item is READY or RETRYING; the verification scanner never does. */
  lemma {:induction false} DispatchIsDecidedExactly(
    cfg: Config, s: Store, item: Item, c: Cycle, dispatches: bool, luck: Luck)
    requires Saved(s, c, luck.written).Ok?
    ensures
      var (s', pc') := Advance(cfg, s, SavingRefresh(item, c), dispatches, luck);
      && (pc'.Dispatching? <==>
            && dispatches && cfg.enabled && c.status.ARMED?
            && c.executionAttempts < cfg.maxExecutionAttempts + c.recoveryCount + c.remediationCount
            && item.id == c.workItemId && item.labelled
            && (item.exec.workState.Ready? || item.exec.workState.Retrying?))
      && (pc'.Dispatching? ==> pc' == Dispatching(item, c)) && (!pc'.Dispatching? ==> pc' == Idle)
      && s' == Saved(s, c, luck.written).value
  {
  }

  /** A dispatch that the gate lets in makes its item RUNNING and adds one open record for it; otherwise nothing
      changes. */
  lemma {:induction false} DispatchIsExact(
    cfg: Config, s: Store, item: Item, c: Cycle, dispatches: bool, luck: Luck)
    ensures
      var (s', pc') := Advance(cfg, s, Dispatching(item, c), dispatches, luck);
      var started := TransitItem(s, item.id, ExecutionStarted);
      && (started.Err? || luck.accepted.None? ==> s' == s && pc' == Idle)
      && (started.Ok? && luck.accepted.Some? ==>
            && pc' == Executing(luck.accepted.value) && s'.items == started.value.0.items && s'.cycles == s.cycles
            && s'.checks == s.checks && s'.dispatched == s.dispatched + [item.id]
            && |s'.records| == |s.records| + 1 && s'.records[..|s.records|] == s.records
            && var r := s'.records[|s.records|];
               && r.executionId == luck.accepted.value && r.workItemId == item.id && r.status.InProgress?
               && r.requestedAt == r.startedAt == luck.now && r.candidateHead.None?
               && r.attempt == 1 + |Those(ItemIds(s.records), item.id)|)
  {
    CountIsSize(ItemIds(s.records), item.id);
  }

  // ------------------------------------------------------- the other decisions

  /** A request that has been consumed is not granted again; but as long as it is configured, each scan that finds its
      item FAILED sends RETRY_STARTED, and scanning stops for good where the item does not accept it. */
  lemma {:induction false} ConsumedRequestsRetry(
    cfg: Config, s: Store, item: Item, c: Cycle, dispatches: bool, luck: Luck)
    ensures
      var (s', pc') := Advance(cfg, s, Recovering(item, c), dispatches, luck);
      var retry := TransitItem(s, item.id, RetryStarted);
      c.recoveryConsumedAt.Some? && c.recoveryRequestId == cfg.recoveryId ==>
        if !item.exec.workState.Failed? then s' == s && pc' == AfterRecovery(cfg, item, c)
        else if retry.Err? then s' == s && pc' == Stopped
        else s' == retry.value.0 && pc' == AfterRecovery(cfg, retry.value.1, c)
    ensures
      var (s', pc') := Advance(cfg, s, Remediating(item, c), dispatches, luck);
      var retry := TransitItem(s, item.id, RetryStarted);
      c.remediationConsumedAt.Some? && c.remediationRequestId == cfg.remediationId ==>
        if !item.exec.workState.Failed? then s' == s && pc' == Refreshing(item)
        else if retry.Err? then s' == s && pc' == Stopped
        else s' == retry.value.0 && pc' == Refreshing(retry.value.1)
  {
  }

  /** What a scan does with the stored cycle and the item of its scope. */
  lemma {:induction false} LookUpIsExact(cfg: Config, s: Store, found: Option<Item>, dispatches: bool, luck: Luck)
    ensures
      var (s', pc') := Advance(cfg, s, Looked(found), dispatches, luck);
      var c := Stored(cfg, s);
      var matched := c.Some? && found.Some? && c.value.workItemId == found.value.id
                     && (c.value.scopeFingerprint == cfg.fingerprint
                         || cfg.compatible == Some(c.value.scopeFingerprint));
      && s' == s
      && (pc'.Recovering? <==> matched && cfg.recoveryId == Some(cfg.cycleId))
      && (pc'.Remediating? <==> matched && cfg.recoveryId != Some(cfg.cycleId) && RemediationRequested(cfg))
      && (pc'.Defining? <==>
            c.None? && found.Some? && Startable(cfg, found.value, luck.now) && found.value.exec.workState.Defined?)
      && (pc'.Recovering? || pc'.Remediating? ==> Some(pc'.item) == found && Some(pc'.cycle) == c)
      && (pc'.Defining? ==> Some(pc'.item) == found)
      && (!pc'.Recovering? && !pc'.Remediating? && !pc'.Defining? ==>
            pc' == if found.Some? then Refreshing(found.value) else Idle)
  {
  }

  /** A dispatched execution is waited for as long as its record is open. */
  lemma {:induction false} ExecutionIsAwaited(cfg: Config, s: Store, id: string, dispatches: bool, luck: Luck, k: nat)
    requires k < |s.records| && s.records[k].executionId == id
    requires forall i :: 0 <= i < k ==> s.records[i].executionId != id
    ensures Advance(cfg, s, Executing(id), dispatches, luck) ==
            (s, if s.records[k].status.InProgress? then Executing(id) else Idle)
  {
    assert IndexOfRecord(s.records, id) == k;
  }

  predicate PlainChar(c: char) { 'a' <= c <= 'z' || 'A' <= c <= 'Z' || '0' <= c <= '9' || c in {'.', '_', '-'} }

  predicate PlainText(s: string) { s != "" && |s| < 201 && forall i :: 0 <= i < |s| ==> PlainChar(s[i]) }

  /** Two plain texts around a colon. */
  predicate PlainPair(s: string) {
    exists i :: 1 <= i < |s| - 1 && s[i] == ':' && PlainText(s[..i]) && PlainText(s[i+1..])
  }

  predicate ShortText(s: Option<string>, limit: nat) { s.None? || |s.value| < limit }

  lemma {:induction false} PlainIsId(s: string)
    ensures IdText(s) <==> PlainText(s)
    ensures PairText(s) <==> PlainPair(s)
  {
    if i :| 0 <= i < |s| && s[i] == ':' && IdText(s[..i]) && IdText(s[i+1..]) {
      assert PlainText(s[..i]) && PlainText(s[i+1..]);
    }
    if i :| 1 <= i < |s| - 1 && s[i] == ':' && PlainText(s[..i]) && PlainText(s[i+1..]) {
      assert IdText(s[..i]) && IdText(s[i+1..]);
    }
  }

  /** Which cycles the store accepts at all. */
  lemma {:induction false} CycleCheckIsExact(c: Cycle)
    ensures ValidCycle(c) <==>
              && "" !in {c.cycleId, c.scopeFingerprint, c.workItemId}
              && c.executionAttempts >= 0 && c.verificationRuns >= 0
              && ShortText(c.baseHead, 65) && ShortText(c.candidateHead, 65) && ShortText(c.candidateBranch, 201)
              && c.recoveryCount in {0, 1} && c.remediationCount in {0, 1}
              && (c.recoveryRequestId.None? || PlainText(c.recoveryRequestId.value))
              && (c.remediationRequestId.None? || PlainPair(c.remediationRequestId.value))
  {
    if c.recoveryRequestId.Some? { PlainIsId(c.recoveryRequestId.value); }
    if c.remediationRequestId.Some? { PlainIsId(c.remediationRequestId.value); }
  }
}
