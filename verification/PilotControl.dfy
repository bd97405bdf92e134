/** The pilot: its stored cycle with one-shot grants, the readiness service, and the two scanners that share them. */
module PilotControl {
  import opened Common
  import opened Acceptance
  import opened WorkStateMachine
  import opened Execution

  datatype CycleStatus = ARMED | EXECUTING | VERIFYING | VERIFIED | WAITING_HUMAN | FAILED | EXPIRED | CANCELLED

  datatype Note = GatePassed | RecoveryConsumed | RemediationConsumed | ItemSays(reason: Reason)

  datatype Cycle = Cycle(
    cycleId: string, scopeFingerprint: string, workItemId: string, status: CycleStatus,
    baseHead: Option<string>, candidateBranch: Option<string>, candidateHead: Option<string>,
    executionAttempts: int, verificationRuns: int, startedAt: int, updatedAt: int, note: Note,
    recoveryRequestId: Option<string>, recoveryConsumedAt: Option<int>, recoveryCount: int,
    previousFailureReason: Option<Reason>,
    remediationRequestId: Option<string>, remediationConsumedAt: Option<int>, remediationCount: int,
    previousRemediationFailureReason: Option<Reason>)

  /** The configured scope and requests; `ready` says that worker, workspace and profile are available. */
  datatype Config = Config(
    enabled: bool, cycleId: string, fingerprint: string, compatible: Option<string>, maxExecutionAttempts: nat,
    expiresAt: int, ready: bool, recoveryId: Option<string>, remediationId: Option<string>)

  /** An item of the pilot's scope; whether it has the required labels is given. */
  datatype Item = Item(id: string, labelled: bool, definitionReady: bool, criteria: seq<string>, exec: Exec)

  // ------------------------------------------------------------ stored cycles

  predicate IdText(s: string) { 1 <= |s| <= 200 && forall i :: 0 <= i < |s| ==> CheckChar(s[i]) }

  predicate PairText(s: string) { exists i :: 0 <= i < |s| && s[i] == ':' && IdText(s[..i]) && IdText(s[i+1..]) }

  predicate AtMost(s: Option<string>, length: nat) { s.Some? ==> |s.value| <= length }

  predicate ValidCycle(c: Cycle) {
    && c.cycleId != "" && c.scopeFingerprint != "" && c.workItemId != ""
    && c.executionAttempts >= 0 && c.verificationRuns >= 0
    && AtMost(c.baseHead, 64) && AtMost(c.candidateHead, 64) && AtMost(c.candidateBranch, 200)
    && 0 <= c.recoveryCount <= 1 && 0 <= c.remediationCount <= 1
    && (c.recoveryRequestId.Some? ==> IdText(c.recoveryRequestId.value))
    && (c.remediationRequestId.Some? ==> PairText(c.remediationRequestId.value))
  }

  /** The first cycle with an id, or |cycles|. */
  function CycleIndex(cycles: seq<Cycle>, id: string): (i: nat)
    ensures i <= |cycles|
    ensures i < |cycles| ==> cycles[i].cycleId == id
    ensures forall k :: 0 <= k < i ==> cycles[k].cycleId != id
  {
    FirstIndex(cycles, (x: Cycle) => x.cycleId == id)
  }

  function FindCycle(cycles: seq<Cycle>, id: string): (c: Option<Cycle>)
    ensures c.Some? ==> c.value in cycles && c.value.cycleId == id
  {
    var i := CycleIndex(cycles, id);
    if i < |cycles| then Some(cycles[i]) else None
  }

  /** A save would take a grant back or give its consumption another date. */
  predicate UndoesGrant(was: Cycle, c: Cycle) {
    || was.recoveryCount > c.recoveryCount
    || (was.recoveryConsumedAt.Some? && was.recoveryConsumedAt != c.recoveryConsumedAt)
    || was.remediationCount > c.remediationCount
    || (was.remediationConsumedAt.Some? && was.remediationConsumedAt != c.remediationConsumedAt)
  }

  function Save(cycles: seq<Cycle>, c: Cycle): Result<seq<Cycle>> {
    var i := CycleIndex(cycles, c.cycleId);
    if !ValidCycle(c) then Err("invalid pilot cycle")
    else if i == |cycles| then Ok(cycles + [c])
    else if cycles[i].scopeFingerprint != c.scopeFingerprint || cycles[i].workItemId != c.workItemId then
      Err("pilot cycle retarget rejected")
    else if UndoesGrant(cycles[i], c) then Err("pilot recovery/remediation history mutation rejected")
    else Ok(cycles[i := c])
  }

  class DurablePilotCycleRepository {
    var cycles: seq<Cycle>

    constructor ()
      ensures cycles == []
    {
      cycles := [];
    }

    /** Saves a cycle, all or nothing. */
    method SavePilotCycle(c: Cycle, written: bool) returns (ok: bool)
      modifies this
      ensures ok == (written && Save(old(cycles), c).Ok?)
      ensures cycles == if ok then Save(old(cycles), c).value else old(cycles)
    {
      if !ValidCycle(c) { return false; }
      var next := cycles;
      var i := CycleIndex(next, c.cycleId);
      if i < |next| {
        var was := next[i];
        if was.scopeFingerprint != c.scopeFingerprint || was.workItemId != c.workItemId { return false; }
        if UndoesGrant(was, c) { return false; }
        next := next[i := c];
      } else {
        next := next + [c];
      }
      if written { cycles := next; }
      return written;
    }
  }

  // ------------------------------------------------------- readiness and budget

  predicate ReadyToStart(cfg: Config, item: Item, now: int) {
    item.labelled && item.definitionReady && Parse(item.criteria).Ok? && cfg.expiresAt > now && cfg.ready
  }

  predicate FingerprintMatches(cfg: Config, actual: string) {
    actual == cfg.fingerprint || Some(actual) == cfg.compatible
  }

  function LatestOf(records: seq<Record>, itemId: string): Option<Record> {
    if |records| == 0 then None
    else if records[|records|-1].workItemId == itemId then Some(records[|records|-1])
    else LatestOf(records[..|records|-1], itemId)
  }

  function LatestSuccess(records: seq<Record>, itemId: string): Option<Record> {
    if |records| == 0 then None
    else if records[|records|-1].workItemId == itemId && records[|records|-1].status.Succeeded? then
      Some(records[|records|-1])
    else LatestSuccess(records[..|records|-1], itemId)
  }

  /** A recovery is granted once, for a retryable failure before the agent had started. */
  predicate RecoveryEligible(cfg: Config, item: Item, c: Cycle, records: seq<Record>, now: int) {
    var latest := LatestOf(records, item.id);
    && cfg.enabled && (cfg.recoveryId.None? || cfg.recoveryId == Some(cfg.cycleId))
    && c.scopeFingerprint == cfg.fingerprint && c.workItemId == item.id
    && c.recoveryConsumedAt.None? && c.recoveryCount == 0
    && c.status.FAILED? && item.exec.workState.Failed? && ReadyToStart(cfg, item, now)
    && latest.Some? && latest.value.status.FailedRun?
    && !NonEmpty(latest.value.baseHead) && !NonEmpty(latest.value.candidateBranch)
    && !NonEmpty(latest.value.candidateHead)
    && (latest.value.retryable == Some(true)
        || (item.exec.transitionReason.Accepted? && item.exec.transitionReason.event.RetryableFailure?))
  }

  /** A remediation is granted once, after the recovery, for exactly the execution that the request names. */
  predicate RemediationEligible(cfg: Config, item: Item, c: Cycle, records: seq<Record>, now: int) {
    var latest := LatestOf(records, item.id);
    && cfg.enabled && FingerprintMatches(cfg, c.scopeFingerprint) && c.workItemId == item.id
    && c.status.FAILED? && item.exec.workState.Failed? && ReadyToStart(cfg, item, now)
    && c.recoveryCount == 1 && c.remediationConsumedAt.None? && c.remediationCount == 0
    && latest.Some? && (latest.value.status.FailedRun? || latest.value.status.TimedOut?)
    && cfg.remediationId == Some(cfg.cycleId + ":" + latest.value.executionId)
  }

  predicate RemediationRequested(cfg: Config) {
    cfg.remediationId.Some? && cfg.cycleId + ":" <= cfg.remediationId.value
  }

  /** How many entries of a list are an id. */
  function CountOf(ids: seq<string>, id: string): nat {
    if |ids| == 0 then 0 else CountOf(ids[..|ids|-1], id) + if ids[|ids|-1] == id then 1 else 0
  }

  function ItemIds(records: seq<Record>): (ids: seq<string>)
    ensures |ids| == |records| && forall i :: 0 <= i < |ids| ==> ids[i] == records[i].workItemId
  {
    seq(|records|, i requires 0 <= i < |records| => records[i].workItemId)
  }

  function NewCycle(cfg: Config, itemId: string, now: int): Cycle {
    Cycle(cfg.cycleId, cfg.fingerprint, itemId, ARMED, None, None, None, 0, 0, now, now, GatePassed,
          None, None, 0, None, None, None, 0, None)
  }

  function Recovered(cfg: Config, item: Item, c: Cycle, now: int): Cycle {
    c.(status := ARMED, recoveryRequestId := cfg.recoveryId, recoveryConsumedAt := Some(now),
       recoveryCount := c.recoveryCount + 1,
       previousFailureReason := Some(item.exec.transitionReason), updatedAt := now, note := RecoveryConsumed)
  }

  function Remediated(cfg: Config, item: Item, c: Cycle, now: int): Cycle {
    c.(status := ARMED, remediationRequestId := cfg.remediationId, remediationConsumedAt := Some(now),
       remediationCount := c.remediationCount + 1, previousRemediationFailureReason := Some(item.exec.transitionReason),
       updatedAt := now, note := RemediationConsumed)
  }

  function StatusFor(state: WorkState, was: CycleStatus): CycleStatus {
    match state
    case WaitingHuman => WAITING_HUMAN
    case Verifying => VERIFYING
    case Running => EXECUTING
    case Failed => FAILED
    case _ => was
  }

  /** A cycle brought up to date with its item and the logs. */
  function Reconciled(c: Cycle, item: Item, records: seq<Record>, checks: seq<string>, now: int): Cycle {
    var success := LatestSuccess(records, c.workItemId);
    c.(status := StatusFor(item.exec.workState, c.status),
       executionAttempts := CountOf(ItemIds(records), c.workItemId), verificationRuns := CountOf(checks, c.workItemId),
       baseHead := if success.Some? then OrElse(success.value.baseHead, c.baseHead) else c.baseHead,
       candidateBranch :=
         if success.Some? then OrElse(success.value.candidateBranch, c.candidateBranch) else c.candidateBranch,
       candidateHead := if success.Some? then OrElse(success.value.candidateHead, c.candidateHead) else c.candidateHead,
       updatedAt := now, note := ItemSays(item.exec.transitionReason))
  }

  /** How many executions a cycle may have: its scope's limit and one more per grant. */
  function EffectiveLimit(cfg: Config, c: Cycle): int {
    cfg.maxExecutionAttempts + c.recoveryCount + c.remediationCount
  }

  predicate Candidate(cfg: Config, item: Item, c: Cycle) {
    && cfg.enabled && c.status.ARMED? && c.executionAttempts < EffectiveLimit(cfg, c)
    && item.id == c.workItemId && item.labelled && (item.exec.workState.Ready? || item.exec.workState.Retrying?)
  }

  // -------------------------------------------------------------- the scanners

  /** Everything the scanners share: the cycles, the items that match the scope, the execution records, the items of
      the verification records, and the items that the execution scanner has dispatched, in order. */
  datatype Store = Store(
    cycles: seq<Cycle>, items: seq<Item>, records: seq<Record>, checks: seq<string>, dispatched: seq<string>)

  /** Where a scanner waits; each access to a repository is one step, and the values read before go along. */
  datatype Pc =
    | Idle
    | Looked(found: Option<Item>)
    | Defining(item: Item) | SavingNew(item: Item)
    | Recovering(item: Item, cycle: Cycle) | SavingRecovery(item: Item, cycle: Cycle)
    | RetryingRecovery(item: Item, cycle: Cycle)
    | Remediating(item: Item, cycle: Cycle) | SavingRemediation(item: Item, cycle: Cycle)
    | RetryingRemediation(item: Item)
    | Refreshing(item: Item) | Counting(item: Item, cycle: Cycle) | SavingRefresh(item: Item, cycle: Cycle)
    | Dispatching(item: Item, cycle: Cycle) | Executing(executionId: string)
    | Stopped

  /** What a step cannot know: the time, whether a write succeeds, and the id of an execution that the gate lets
      in. */
  datatype Luck = Luck(now: int, written: bool, accepted: Option<string>)

  /** The one item of the scope, if exactly one matches it. */
  function ScopedItem(s: Store): Option<Item> { if |s.items| == 1 then Some(s.items[0]) else None }

  /** The first item with an id, or |items|. */
  function ItemIndex(items: seq<Item>, id: string): (i: nat)
    ensures i <= |items|
    ensures i < |items| ==> items[i].id == id
    ensures forall k :: 0 <= k < i ==> items[k].id != id
  {
    FirstIndex(items, (x: Item) => x.id == id)
  }

  /** The stored item after an event, and the store with it. */
  function TransitItem(s: Store, id: string, event: Event): Result<(Store, Item)> {
    var i := ItemIndex(s.items, id);
    if i == |s.items| then Err("work item not found")
    else
      var exec := Transition(s.items[i].exec, event);
      if exec.Err? then Err(exec.error)
      else
        var item := s.items[i].(exec := exec.value);
        Ok((s.(items := s.items[i := item]), item))
  }

  function Saved(s: Store, c: Cycle, written: bool): Result<Store> {
    var next := Save(s.cycles, c);
    if next.Err? || !written then Err("not saved") else Ok(s.(cycles := next.value))
  }

  function RefreshOf(item: Option<Item>): Pc { if item.Some? then Refreshing(item.value) else Idle }

  function AfterRecovery(cfg: Config, item: Item, c: Cycle): Pc {
    if RemediationRequested(cfg) then Remediating(item, c) else Refreshing(item)
  }

  function NewRecord(id: string, itemId: string, attempt: nat, now: int): Record {
    Record(id, itemId, attempt, "", now, now, None, InProgress, "", [], None, None, None, None, None)
  }

  /** Looking up the cycle. The answer `ready` of this step is not consulted: whatever it is, the cycle is refreshed
      and may be dispatched. */
  function LookUp(cfg: Config, s: Store, item: Option<Item>, now: int): Pc {
    var c := FindCycle(s.cycles, cfg.cycleId);
    if c.Some? then
      if !FingerprintMatches(cfg, c.value.scopeFingerprint) || item.None? || c.value.workItemId != item.value.id then
        RefreshOf(item)
      else if cfg.recoveryId == Some(cfg.cycleId) then Recovering(item.value, c.value)
      else AfterRecovery(cfg, item.value, c.value)
    else if item.None? || !ReadyToStart(cfg, item.value, now) || !item.value.exec.workState.Defined? then
      RefreshOf(item)
    else Defining(item.value)
  }

  /** One step of a scanner. An exception ends its scanning for good. */
  function Advance(cfg: Config, s: Store, pc: Pc, dispatches: bool, luck: Luck): (Store, Pc) {
    match pc
    case Idle => (s, if cfg.enabled then Looked(ScopedItem(s)) else Idle)
    case Looked(found) => (s, LookUp(cfg, s, found, luck.now))
    case Defining(item) =>
      (match TransitItem(s, item.id, DefinitionCompleted(Holder.CODEX))
       case Ok(next) => (next.0, SavingNew(next.1))
       case Err(_) => (s, Stopped))
    case SavingNew(item) =>
      (match Saved(s, NewCycle(cfg, item.id, luck.now), luck.written)
       case Ok(next) => (next, Refreshing(item))
       case Err(_) => (s, Stopped))
    case Recovering(item, c) =>
      if c.recoveryRequestId == cfg.recoveryId && c.recoveryConsumedAt.Some? then
        if item.exec.workState.Failed? then
          (match TransitItem(s, item.id, RetryStarted)
           case Ok(next) => (next.0, AfterRecovery(cfg, next.1, c))
           case Err(_) => (s, Stopped))
        else (s, AfterRecovery(cfg, item, c))
      else if RecoveryEligible(cfg, item, c, s.records, luck.now) then
        (s, SavingRecovery(item, Recovered(cfg, item, c, luck.now)))
      else (s, AfterRecovery(cfg, item, c))
    case SavingRecovery(item, c) =>
      (match Saved(s, c, luck.written)
       case Ok(next) => (next, RetryingRecovery(item, c))
       case Err(_) => (s, Stopped))
    case RetryingRecovery(item, c) =>
      (match TransitItem(s, item.id, RetryStarted)
       case Ok(next) => (next.0, AfterRecovery(cfg, next.1, c))
       case Err(_) => (s, Stopped))
    case Remediating(item, c) =>
      if c.remediationRequestId == cfg.remediationId && c.remediationConsumedAt.Some? then
        if item.exec.workState.Failed? then
          (match TransitItem(s, item.id, RetryStarted)
           case Ok(next) => (next.0, Refreshing(next.1))
           case Err(_) => (s, Stopped))
        else (s, Refreshing(item))
      else if RemediationEligible(cfg, item, c, s.records, luck.now) then
        (s, SavingRemediation(item, Remediated(cfg, item, c, luck.now)))
      else (s, Refreshing(item))
    case SavingRemediation(item, c) =>
      (match Saved(s, c, luck.written)
       case Ok(next) => (next, RetryingRemediation(item))
       case Err(_) => (s, Stopped))
    case RetryingRemediation(item) =>
      (match TransitItem(s, item.id, RetryStarted)
       case Ok(next) => (next.0, Refreshing(next.1))
       case Err(_) => (s, Stopped))
    case Refreshing(item) =>
      var c := FindCycle(s.cycles, cfg.cycleId);
      (s, if c.Some? then Counting(item, c.value) else Idle)
    case Counting(item, c) => (s, SavingRefresh(item, Reconciled(c, item, s.records, s.checks, luck.now)))
    case SavingRefresh(item, c) =>
      (match Saved(s, c, luck.written)
       case Ok(next) => (next, if dispatches && Candidate(cfg, item, c) then Dispatching(item, c) else Idle)
       case Err(_) => (s, Stopped))
    case Dispatching(item, _) =>
      (match TransitItem(s, item.id, ExecutionStarted)
       case Ok(next) =>
         if luck.accepted.None? then (s, Idle)
         else
           var attempt := CountOf(ItemIds(s.records), item.id) + 1;
           (next.0.(records := s.records + [NewRecord(luck.accepted.value, item.id, attempt, luck.now)],
                    dispatched := s.dispatched + [item.id]),
            Executing(luck.accepted.value))
       case Err(_) => (s, Idle))
    case Executing(id) =>
      var k := IndexOfRecord(s.records, id);
      (s, if k < |s.records| && s.records[k].status.InProgress? then pc else Idle)
    case Stopped => (s, Stopped)
  }
}
