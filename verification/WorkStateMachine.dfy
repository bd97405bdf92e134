/** The work item state machine: which event moves an item where, and who holds the ball afterwards. */
module WorkStateMachine {
  import opened Common

  datatype WorkState =
    | Idea | Defined | Ready | Running | Verifying | WaitingHuman | WaitingWorker | Blocked | Failed
    | Retrying | Done | Unknown

  datatype Holder = LCC | CHATGPT | CODEX | HUMAN | EXTERNAL | NOBODY | UNCLEAR

  datatype ActionKind =
    | Define | Execute | Verify | Retry | WaitHuman | WaitWorker | ResolveBlocker | Investigate | NoAction
    | UnknownAction

  datatype NextAction = NextAction(
    kind: ActionKind, summary: string, ballHolder: Holder, aiExecutable: bool, requiredCapabilities: seq<string>)

  datatype Event =
    | DefinitionStarted
    | DefinitionCompleted(executor: Holder)
    | ExecutionStarted
    | ExecutionCompleted(human: bool)
    | VerificationPassed | VerificationFailed
    | HumanRequired(summary: string) | HumanCompleted(executor: Holder)
    | WorkerUnavailable(monitor: Holder) | WorkerAvailable(executor: Holder)
    | RetryableFailure | TerminalFailure | RetryStarted
    | BlockerSet(owner: Holder, text: string) | BlockerCleared(executor: Holder)
    | Reopened(executor: Holder)

  /** Why an item is where it is: `<event> accepted from <state>`, or where it came from. */
  datatype Reason = Discovered | Accepted(event: Event, from: WorkState)

  /** The fields of a work item that execution owns; synchronisation never overwrites them. */
  datatype Exec = Exec(
    workState: WorkState, ballHolder: Holder, nextAction: NextAction, blocker: Option<string>,
    evidence: seq<string>, transitionReason: Reason)

  function Allowed(s: WorkState): set<WorkState> {
    match s
    case Idea => {Defined}
    case Defined => {Ready, Blocked}
    case Ready => {Running, WaitingHuman, WaitingWorker, Blocked}
    case Running => {Verifying, Failed, WaitingHuman, WaitingWorker, Blocked}
    case Verifying => {Done, Running, WaitingHuman, Failed, Blocked}
    case Failed => {Retrying, WaitingHuman, Blocked}
    case Retrying => {Running, Failed, Blocked}
    case WaitingHuman => {Ready, Blocked}
    case WaitingWorker => {Ready, Blocked}
    case Blocked => {Ready}
    case Done => {Ready}
    case Unknown => {}
  }

  /** A decision keeps the evidence and rewrites every other execution field. */
  function Decided(e: Exec, event: Event, to: WorkState, kind: ActionKind, summary: string, holder: Holder,
                   aiExecutable: bool, capabilities: seq<string>, blocker: Option<string>): Exec {
    Exec(to, holder, NextAction(kind, summary, holder, aiExecutable, capabilities), blocker, e.evidence,
         Accepted(event, e.workState))
  }

  function ReadyFor(e: Exec, event: Event, executor: Holder): Exec {
    Decided(e, event, Ready, Execute, "Execute the defined work", executor, true, ["CODE_EDIT"], None)
  }

  /** The decision for an event, or None where the event is not accepted from the item's state. */
  function Decide(e: Exec, event: Event): Option<Exec> {
    var s := e.workState;
    match event
    case DefinitionStarted =>
      if s.Idea? then
        Some(Decided(e, event, Defined, Define, "Complete the work definition", HUMAN, false, [], None))
      else None
    case DefinitionCompleted(executor) => if s.Defined? then Some(ReadyFor(e, event, executor)) else None
    case ExecutionStarted =>
      if s.Ready? || s.Retrying? then
        Some(Decided(e, event, Running, Execute, "Continue execution", e.ballHolder, true, ["CODE_EDIT"], None))
      else None
    case ExecutionCompleted(human) =>
      if !s.Running? then None
      else if human then
        Some(Decided(e, event, Verifying, WaitHuman, "Complete human acceptance", HUMAN, false, [], None))
      else Some(Decided(e, event, Verifying, Verify, "Run automated verification", LCC, true, ["TEST"], None))
    case VerificationPassed =>
      if s.Verifying? then
        Some(Decided(e, event, Done, NoAction, "No further action", NOBODY, false, [], None))
      else None
    case VerificationFailed =>
      if s.Verifying? then
        Some(Decided(e, event, Running, Execute, "Fix verification failures", CODEX, true, ["CODE_EDIT"], None))
      else None
    case HumanRequired(summary) =>
      if s.Ready? || s.Running? || s.Verifying? || s.Failed?
      then Some(Decided(e, event, WaitingHuman, WaitHuman, summary, HUMAN, false, [], None)) else None
    case HumanCompleted(executor) => if s.WaitingHuman? then Some(ReadyFor(e, event, executor)) else None
    case WorkerUnavailable(monitor) =>
      if s.Ready? || s.Running?
      then Some(Decided(e, event, WaitingWorker, WaitWorker, "Wait for worker availability", monitor,
                        monitor.LCC?, ["WORKER_MONITOR"], None)) else None
    case WorkerAvailable(executor) => if s.WaitingWorker? then Some(ReadyFor(e, event, executor)) else None
    case RetryableFailure => Failing(e, event)
    case TerminalFailure => Failing(e, event)
    case RetryStarted =>
      if s.Failed? then
        Some(Decided(e, event, Retrying, Retry, "Retry failed work", LCC, true, ["CODE_EDIT"], None))
      else None
    case BlockerSet(owner, text) =>
      if s.Defined? || s.Ready? || s.Running? || s.Verifying? || s.Failed? || s.Retrying? || s.WaitingHuman?
         || s.WaitingWorker?
      then Some(Decided(e, event, Blocked, ResolveBlocker, text, owner, false, [], Some(text))) else None
    case BlockerCleared(executor) => if s.Blocked? then Some(ReadyFor(e, event, executor)) else None
    case Reopened(executor) => if s.Done? then Some(ReadyFor(e, event, executor)) else None
  }

  function Failing(e: Exec, event: Event): Option<Exec> {
    if e.workState.Running? || e.workState.Verifying? || e.workState.Retrying?
    then Some(Decided(e, event, Failed, Investigate, "Investigate execution failure", LCC, true, ["DIAGNOSTICS"], None))
    else None
  }

  /** The guarded transition: the decision, checked once more against the table. */
  function Transition(e: Exec, event: Event): Result<Exec> {
    var decided := Decide(e, event);
    if decided.None? || decided.value.workState !in Allowed(e.workState) then Err("invalid work transition")
    else Ok(decided.value)
  }

  /** The fields a newly discovered item starts with. */
  const INITIAL := Exec(Defined, HUMAN,
                        NextAction(Define, "Complete the definition and Coding Ready Gate", HUMAN, false, []),
                        None, [], Discovered)

  /** The item's new state, what is to be done next, and who holds the ball, all three as named. */
  predicate Becomes(v: Exec, to: WorkState, kind: ActionKind, summary: string, holder: Holder, ai: bool,
                    capabilities: seq<string>, blocker: Option<string>)
  {
    && v.workState == to && v.ballHolder == holder && v.blocker == blocker
    && v.nextAction.kind == kind && v.nextAction.summary == summary && v.nextAction.ballHolder == holder
    && v.nextAction.aiExecutable == ai && v.nextAction.requiredCapabilities == capabilities
  }

  /** One line of the table: the states that accept an event, and what it makes of the item. */
  predicate Line(e: Exec, event: Event, from: set<WorkState>, to: WorkState, kind: ActionKind, summary: string,
                 holder: Holder, ai: bool, capabilities: seq<string>, blocker: Option<string>)
  {
    && (Transition(e, event).Ok? <==> e.workState in from)
    && (Transition(e, event).Ok? ==>
          Becomes(Transition(e, event).value, to, kind, summary, holder, ai, capabilities, blocker))
  }

  predicate ReadyLine(e: Exec, event: Event, from: set<WorkState>, executor: Holder) {
    Line(e, event, from, Ready, Execute, "Execute the defined work", executor, true, ["CODE_EDIT"], None)
  }

  /** The whole machine as a table. An accepted event keeps the evidence and is recorded as the reason. */
  lemma TransitionTable(e: Exec, event: Event)
    ensures
      match event
      case DefinitionStarted =>
        Line(e, event, {Idea}, Defined, Define, "Complete the work definition", HUMAN, false, [], None)
      case DefinitionCompleted(executor) => ReadyLine(e, event, {Defined}, executor)
      case ExecutionStarted =>
        Line(e, event, {Ready, Retrying}, Running, Execute, "Continue execution", e.ballHolder, true, ["CODE_EDIT"],
             None)
      case ExecutionCompleted(human) =>
        if human then
          Line(e, event, {Running}, Verifying, WaitHuman, "Complete human acceptance", HUMAN, false, [], None)
        else Line(e, event, {Running}, Verifying, Verify, "Run automated verification", LCC, true, ["TEST"], None)
      case VerificationPassed =>
        Line(e, event, {Verifying}, Done, NoAction, "No further action", NOBODY, false, [], None)
      case VerificationFailed =>
        Line(e, event, {Verifying}, Running, Execute, "Fix verification failures", CODEX, true, ["CODE_EDIT"], None)
      case HumanRequired(summary) =>
        Line(e, event, {Ready, Running, Verifying, Failed}, WaitingHuman, WaitHuman, summary, HUMAN, false, [], None)
      case HumanCompleted(executor) => ReadyLine(e, event, {WaitingHuman}, executor)
      case WorkerUnavailable(monitor) =>
        Line(e, event, {Ready, Running}, WaitingWorker, WaitWorker, "Wait for worker availability", monitor,
             monitor.LCC?, ["WORKER_MONITOR"], None)
      case WorkerAvailable(executor) => ReadyLine(e, event, {WaitingWorker}, executor)
      case RetryStarted =>
        Line(e, event, {Failed}, Retrying, Retry, "Retry failed work", LCC, true, ["CODE_EDIT"], None)
      case BlockerSet(owner, text) =>
        Line(e, event, {Defined, Ready, Running, Verifying, Failed, Retrying, WaitingHuman, WaitingWorker}, Blocked,
             ResolveBlocker, text, owner, false, [], Some(text))
      case BlockerCleared(executor) => ReadyLine(e, event, {Blocked}, executor)
      case Reopened(executor) => ReadyLine(e, event, {Done}, executor)
      case _ =>
        Line(e, event, {Running, Verifying, Retrying}, Failed, Investigate, "Investigate execution failure", LCC, true,
             ["DIAGNOSTICS"], None)
    ensures Transition(e, event).Ok? ==>
              Transition(e, event).value.evidence == e.evidence
              && Transition(e, event).value.transitionReason == Accepted(event, e.workState)
  {
    DecisionsAreAllowed(e, event);
  }

  /** The switch and the table agree: no accepted event is ever rejected by the second check, evidence is kept,
      and the next action always names the holder of the ball. */
  lemma DecisionsAreAllowed(e: Exec, event: Event)
    ensures Transition(e, event).Ok? <==> Decide(e, event).Some?
    ensures Transition(e, event).Ok? ==>
              var v := Transition(e, event).value;
              v.workState in Allowed(e.workState) && v.evidence == e.evidence && v.nextAction.ballHolder == v.ballHolder
    ensures Transition(e, event).Ok? && Transition(e, event).value.workState.Done? ==> event.VerificationPassed?
    ensures Transition(e, event).Ok? && Transition(e, event).value.blocker.Some? ==>
              Transition(e, event).value.workState.Blocked?
  {
    match event {
      case RetryableFailure => assert Decide(e, event) == Failing(e, event);
      case TerminalFailure => assert Decide(e, event) == Failing(e, event);
      case _ =>
    }
  }
}
