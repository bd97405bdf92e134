/** The controller's side of a remote execution: a polling loop over a clock, against a worker that may say
    anything. */
module RemoteExecution {
  import opened Common

  datatype RemoteStatus = RemoteStatus(
    status: string, startedAt: Option<int>, finishedAt: Option<int>, summary: string, evidence: seq<string>,
    finalAgentMessage: Option<string>, baseHead: Option<string>, candidateBranch: Option<string>,
    candidateHead: Option<string>)

  datatype ExecutionStatus = SUCCEEDED | CANCELLED | TIMED_OUT | WORKER_LOST | FAILED

  datatype ExecutionResult = ExecutionResult(
    executionId: string, status: ExecutionStatus, startedAt: int, finishedAt: int, summary: string,
    evidence: seq<string>, retryable: bool, finalAgentMessage: Option<string>,
    baseHead: Option<string>, candidateBranch: Option<string>, candidateHead: Option<string>)

  datatype Request = Submit | Status | Cancel

  /** What comes back: an error or a refused request, a 404, or a record. */
  datatype Reply = Threw | Absent | Got(record: RemoteStatus)

  /** A reply and the time it took. */
  datatype Answer = Answer(reply: Reply, took: int)

  /** One request, when it was sent, and its reply. */
  datatype Exchange = Exchange(request: Request, sentAt: int, reply: Reply)

  datatype Policy = Policy(pollIntervalMs: int, controllerTimeoutMs: int, terminalGraceMs: int)

  predicate Terminal(record: RemoteStatus) { record.status != "QUEUED" && record.status != "RUNNING" }

  function MapStatus(status: string): ExecutionStatus {
    if status == "SUCCEEDED" then SUCCEEDED
    else if status == "CANCELLED" then CANCELLED
    else if status == "TIMED_OUT" then TIMED_OUT
    else if status == "LOST" then WORKER_LOST
    else FAILED
  }

  function Or(time: Option<int>, now: int): int { if time.Some? then time.value else now }

  /** An empty text is left out. */
  function Filled(text: Option<string>): Option<string> { if NonEmpty(text) then text else None }

  function ToResult(id: string, record: RemoteStatus, now: int): ExecutionResult {
    ExecutionResult(id, MapStatus(record.status), Or(record.startedAt, now), Or(record.finishedAt, now), record.summary,
                    record.evidence, record.status in ["FAILED", "TIMED_OUT", "LOST"],
                    Filled(record.finalAgentMessage), Filled(record.baseHead), Filled(record.candidateBranch),
                    Filled(record.candidateHead))
  }

  /** The result the controller makes up when the worker never reported an end. */
  function LocalTimeout(id: string, startedAt: Option<int>, now: int): ExecutionResult {
    ExecutionResult(id, TIMED_OUT, Or(startedAt, now), now,
                    "Remote execution exceeded Controller deadline after execution-scoped cancel",
                    ["controller.timeout=bounded", "controller.cancel=execution-scoped",
                     "controller.finalStatus=active"],
                    true, None, None, None, None)
  }

  /** A reported result is retryable exactly when it is a timeout, a lost worker or a failure the worker named;
      a status the controller does not know is a failure that is not retried. */
  lemma RetryableExactly(id: string, record: RemoteStatus, now: int)
    ensures
      var r := ToResult(id, record, now);
      && (r.retryable <==> r.status.TIMED_OUT? || r.status.WORKER_LOST? || record.status == "FAILED")
      && (r.status.FAILED? && !r.retryable <==>
            record.status !in {"SUCCEEDED", "CANCELLED", "TIMED_OUT", "LOST", "FAILED"})
      && (r.status.SUCCEEDED? <==> record.status == "SUCCEEDED")
  {
  }

  /** What is reported is what results: the status by its name, every text and head as it is unless it is empty, and
      the controller's time only where the worker gave none. */
  lemma ResultIsExact(id: string, record: RemoteStatus, now: int)
    ensures
      var r := ToResult(id, record, now);
      && (r.status.SUCCEEDED? <==> record.status == "SUCCEEDED")
      && (r.status.CANCELLED? <==> record.status == "CANCELLED")
      && (r.status.TIMED_OUT? <==> record.status == "TIMED_OUT")
      && (r.status.WORKER_LOST? <==> record.status == "LOST")
      && r.executionId == id && r.summary == record.summary && r.evidence == record.evidence
      && (record.startedAt.Some? ==> record.startedAt == Some(r.startedAt))
      && (record.startedAt.None? ==> r.startedAt == now)
      && (record.finishedAt.Some? ==> record.finishedAt == Some(r.finishedAt))
      && (record.finishedAt.None? ==> r.finishedAt == now)
      && Copies(r.finalAgentMessage, record.finalAgentMessage) && Copies(r.baseHead, record.baseHead)
      && Copies(r.candidateBranch, record.candidateBranch) && Copies(r.candidateHead, record.candidateHead)
  {
  }

  predicate Copies(v: Option<string>, reported: Option<string>) {
    if reported.None? || reported.value == "" then v.None? else v == reported
  }

  /** A timeout that the controller makes up says so, is retryable, and names no head. */
  lemma LocalTimeoutIsExact(id: string, startedAt: Option<int>, now: int)
    ensures
      var r := LocalTimeout(id, startedAt, now);
      && r.executionId == id && r.status.TIMED_OUT? && r.retryable && r.finishedAt == now
      && r.startedAt == (if startedAt.Some? then startedAt.value else now)
      && r.summary == "Remote execution exceeded Controller deadline after execution-scoped cancel"
      && r.evidence == ["controller.timeout=bounded", "controller.cancel=execution-scoped",
                        "controller.finalStatus=active"]
      && r.finalAgentMessage.None? && r.baseHead.None? && r.candidateBranch.None? && r.candidateHead.None?
  {
  }

  // ------------------------------------------------------- what a dialogue is

  /** The worker says that the execution is still going on. */
  predicate StillActive(x: Exchange) { x.reply.Got? && !Terminal(x.reply.record) }

  /** After this answer the controller goes on asking. */
  predicate Continues(x: Exchange) {
    match x.request
    case Submit => x.reply.Got?
    case Status => StillActive(x)
    case Cancel => StillActive(x) || x.reply.Absent?
  }

  /** The rules a dialogue follows, stated over all its exchanges at once: it starts with the submission, every answer
      but the last lets the controller go on, and a cancel comes only right after a status that was asked for at or
      after the deadline. Before a cancel, a status asked for after the deadline is never asked for again. */
  predicate Disciplined(calls: seq<Exchange>, deadline: int) {
    && |calls| >= 1 && calls[0].request.Submit?
    && (forall i :: 0 <= i < |calls| - 1 ==> Continues(calls[i]))
    && (forall i :: 1 <= i < |calls| ==> calls[i].request.Status? || LateCancel(calls, deadline, i))
    && (forall i :: 1 <= i < |calls| - 1 && calls[i].request.Status? && calls[i].sentAt >= deadline ==>
          calls[i+1].request.Cancel?)
  }

  predicate LateCancel(calls: seq<Exchange>, deadline: int, i: int)
    requires 0 <= i < |calls|
  {
    && calls[i].request.Cancel? && i >= 2 && i >= |calls| - 2
    && calls[i-1].request.Status? && StillActive(calls[i-1]) && calls[i-1].sentAt >= deadline
  }

  /** The waits between exchanges: the poll interval, cut off at the deadline, between two statuses of the loop and
      before the boundary one; the grace between the cancel and the final one. */
  predicate Paced(calls: seq<Exchange>, deadline: int, polling: Policy) {
    forall i :: 1 <= i < |calls| - 1 ==> calls[i+1].sentAt >= NextAt(calls[i], calls[i+1], deadline, polling)
  }

  /** The earliest time at which y may follow x. */
  function NextAt(x: Exchange, y: Exchange, deadline: int, polling: Policy): int {
    if x.request.Cancel? then x.sentAt + polling.terminalGraceMs
    else if y.request.Cancel? then x.sentAt
    else Min(x.sentAt + polling.pollIntervalMs, deadline)
  }

  /** What the last exchange of a dialogue decides. */
  function Verdict(id: string, calls: seq<Exchange>, now: int): Result<ExecutionResult>
    requires |calls| >= 1
  {
    var last := calls[|calls|-1];
    if last.reply.Threw? then Err("transport error")
    else if last.request.Submit? then Err("worker rejected execution")
    else if last.reply.Got? && Terminal(last.reply.record) then Ok(ToResult(id, last.reply.record, now))
    else if |calls| >= 3 && calls[|calls|-2].request.Cancel? && calls[|calls|-3].reply.Got? then
      Ok(LocalTimeout(id, calls[|calls|-3].reply.record.startedAt, now))
    else Err("worker execution not found")
  }

  /** The worker reported an end in one of the exchanges. */
  predicate Ended(calls: seq<Exchange>) {
    exists i :: 1 <= i < |calls| && calls[i].reply.Got? && Terminal(calls[i].reply.record)
  }

  predicate MadeLocally(calls: seq<Exchange>) {
    && |calls| >= 4 && calls[|calls|-2].request.Cancel? && !calls[|calls|-1].reply.Threw?
    && !(calls[|calls|-1].reply.Got? && Terminal(calls[|calls|-1].reply.record))
  }

  // ------------------------------------------------------------ main results

  /** A dialogue cancels at most once, and only after the worker said, at or after the deadline, that it was still
      going on. */
  lemma {:induction false} AtMostOneCancel(calls: seq<Exchange>, deadline: int, i: nat, k: nat)
    requires Disciplined(calls, deadline) && i < |calls| && k < |calls|
    requires calls[i].request.Cancel? && calls[k].request.Cancel?
    ensures i == k && i >= 2 && StillActive(calls[i-1]) && calls[i-1].sentAt >= deadline
  {
  }

  /** The controller makes a timeout up only if no status, no cancel and no final answer reported an end; whenever the
      worker did report one, in any exchange, the result is that report. */
  lemma {:induction false} LocalTimeoutMeansNoEnd(id: string, calls: seq<Exchange>, deadline: int, now: int)
    requires Disciplined(calls, deadline)
    ensures MadeLocally(calls) ==>
              !Ended(calls) && Verdict(id, calls, now).Ok? && Verdict(id, calls, now).value.status.TIMED_OUT?
    ensures Ended(calls) <==> Verdict(id, calls, now).Ok? && !MadeLocally(calls)
    ensures Ended(calls) ==>
              calls[|calls|-1].reply.Got?
              && Verdict(id, calls, now) == Ok(ToResult(id, calls[|calls|-1].reply.record, now))
  {
    var n := |calls|;
    forall i | 1 <= i < n - 1 ensures !(calls[i].reply.Got? && Terminal(calls[i].reply.record)) {
      assert Continues(calls[i]);
    }
    if n >= 3 && calls[n-2].request.Cancel? { assert LateCancel(calls, deadline, n - 2); }
    if n >= 2 { assert calls[n-1].request.Status? || LateCancel(calls, deadline, n - 1); }
  }

  /** The controller asks on exactly while the worker says QUEUED or RUNNING: every status that is followed by another
      exchange said so, and a dialogue that ends with the worker's report ends with another word. */
  lemma {:induction false} AsksWhileActive(id: string, calls: seq<Exchange>, deadline: int, now: int, i: nat)
    requires Disciplined(calls, deadline) && 1 <= i < |calls|
    ensures i < |calls| - 1 && calls[i].request.Status? ==>
              calls[i].reply.Got? && calls[i].reply.record.status in {"QUEUED", "RUNNING"}
    ensures Verdict(id, calls, now).Ok? && !MadeLocally(calls) ==>
              calls[|calls|-1].reply.Got? && calls[|calls|-1].reply.record.status !in {"QUEUED", "RUNNING"}
    ensures Verdict(id, calls, now).Err? ==>
              !(calls[|calls|-1].reply.Got? && calls[|calls|-1].reply.record.status !in {"QUEUED", "RUNNING"})
  {
    if i < |calls| - 1 { assert Continues(calls[i]); }
    LocalTimeoutMeansNoEnd(id, calls, deadline, now);
    assert calls[|calls|-1].request.Status? || LateCancel(calls, deadline, |calls| - 1);
  }

  // ------------------------------------------------------------ the executor

  /** The exchanges while the loop runs: the submission, then only statuses asked for before the deadline. */
  predicate Polling(calls: seq<Exchange>, deadline: int) {
    && |calls| >= 1 && calls[0].request.Submit? && calls[0].reply.Got?
    && forall i :: 1 <= i < |calls| ==> calls[i].request.Status? && calls[i].sentAt < deadline && StillActive(calls[i])
  }

  lemma {:induction false} PacedOneMore(calls: seq<Exchange>, x: Exchange, deadline: int, polling: Policy)
    requires Paced(calls, deadline, polling)
    requires |calls| > 1 ==> x.sentAt >= NextAt(calls[|calls|-1], x, deadline, polling)
    ensures Paced(calls + [x], deadline, polling)
  {
    var all := calls + [x];
    forall i | 1 <= i < |all| - 1 ensures all[i+1].sentAt >= NextAt(all[i], all[i+1], deadline, polling) {
      if i + 1 < |calls| { assert all[i] == calls[i] && all[i+1] == calls[i+1]; }
    }
  }

  /** The ways a dialogue ends: in or right after the loop, at the cancel, or after the grace. */
  lemma {:induction false} EndsAtStatus(calls: seq<Exchange>, x: Exchange, deadline: int, id: string, now: int)
    requires Polling(calls, deadline) && x.request.Status?
    ensures Disciplined(calls + [x], deadline)
    ensures x.reply.Threw? ==> Verdict(id, calls + [x], now) == Err("transport error")
    ensures x.reply.Absent? ==> Verdict(id, calls + [x], now) == Err("worker execution not found")
    ensures x.reply.Got? && Terminal(x.reply.record) ==>
              Verdict(id, calls + [x], now) == Ok(ToResult(id, x.reply.record, now))
  {
  }

  lemma {:induction false} EndsAtCancel(
    calls: seq<Exchange>, boundary: Exchange, cancel: Exchange, deadline: int, id: string, now: int)
    requires Polling(calls, deadline) && boundary.request.Status? && boundary.sentAt >= deadline
    requires StillActive(boundary)
    requires cancel.request.Cancel?
    ensures Disciplined(calls + [boundary, cancel], deadline)
    ensures cancel.reply.Threw? ==> Verdict(id, calls + [boundary, cancel], now) == Err("transport error")
    ensures cancel.reply.Got? && Terminal(cancel.reply.record) ==>
              Verdict(id, calls + [boundary, cancel], now) == Ok(ToResult(id, cancel.reply.record, now))
  {
  }

  lemma {:induction false} EndsAfterGrace(
    calls: seq<Exchange>, boundary: Exchange, cancel: Exchange, final: Exchange, deadline: int, id: string, now: int)
    requires Polling(calls, deadline) && boundary.request.Status? && boundary.sentAt >= deadline
    requires StillActive(boundary)
    requires cancel.request.Cancel? && Continues(cancel) && final.request.Status?
    ensures Disciplined(calls + [boundary, cancel, final], deadline)
    ensures Verdict(id, calls + [boundary, cancel, final], now) ==
              if final.reply.Threw? then Err("transport error")
              else if final.reply.Got? && Terminal(final.reply.record) then Ok(ToResult(id, final.reply.record, now))
              else Ok(LocalTimeout(id, boundary.reply.record.startedAt, now))
  {
    var all := calls + [boundary, cancel, final];
    assert LateCancel(all, deadline, |all| - 2);
  }

  class RemoteCodexExecutor {
    /** The answer to the n-th request: the worker may say anything. */
    const worker: nat -> Answer
    const polling: Policy
    /** The longest that a request takes: its timeout, or 0 where only sleeping moves the clock. */
    const longest: nat
    var clock: int
    var log: seq<Exchange>

    constructor (worker: nat -> Answer, polling: Policy, longest: nat, clock: int)
      requires polling.pollIntervalMs > 0 && polling.controllerTimeoutMs >= 0 && polling.terminalGraceMs >= 0
      requires forall n: nat :: 0 <= worker(n).took <= longest
      ensures Valid() && this.longest == longest && this.clock == clock && log == []
    {
      this.worker, this.polling, this.longest, this.clock, this.log := worker, polling, longest, clock, [];
    }

    ghost predicate Valid() {
      && polling.pollIntervalMs > 0 && polling.controllerTimeoutMs >= 0 && polling.terminalGraceMs >= 0
      && forall n: nat :: 0 <= worker(n).took <= longest
    }

    method Send(request: Request) returns (x: Exchange)
      requires Valid()
      modifies this
      ensures x == Exchange(request, old(clock), worker(|old(log)|).reply)
      ensures log == old(log) + [x] && clock == old(clock) + worker(|old(log)|).took
    {
      var answer := worker(|log|);
      x := Exchange(request, clock, answer.reply);
      log, clock := log + [x], clock + answer.took;
    }

    method Sleep(milliseconds: int)
      requires milliseconds >= 0
      modifies this`clock
      ensures clock == old(clock) + milliseconds
    {
      clock := clock + milliseconds;
    }

    /** Cancels an execution that is still active at the deadline, waits, and asks a last time. */
    method Abandon(id: string, limit: int, boundary: Exchange, ghost before: nat, ghost asked: seq<Exchange>)
      returns (r: Result<ExecutionResult>)
      requires Valid() && before < |log| && log[before..] == asked + [boundary] && Polling(asked, limit)
      requires boundary.request.Status? && limit <= boundary.sentAt <= clock && StillActive(boundary)
      requires Paced(asked + [boundary], limit, polling)
      modifies this
      ensures |log| > |old(log)| && log[..|old(log)|] == old(log)
      ensures Disciplined(log[before..], limit) && Paced(log[before..], limit, polling)
      ensures r == Verdict(id, log[before..], clock)
      ensures clock <= old(clock) + polling.terminalGraceMs + 2 * longest
    {
      var cancelled := Send(Cancel);
      assert log[before..] == asked + [boundary, cancelled];
      EndsAtCancel(asked, boundary, cancelled, limit, id, clock);
      assert asked + [boundary, cancelled] == (asked + [boundary]) + [cancelled];
      PacedOneMore(asked + [boundary], cancelled, limit, polling);
      if cancelled.reply.Threw? { return Err("transport error"); }
      if cancelled.reply.Got? && Terminal(cancelled.reply.record) {
        return Ok(ToResult(id, cancelled.reply.record, clock));
      }
      Sleep(polling.terminalGraceMs);
      var final := Send(Status);
      assert log[before..] == asked + [boundary, cancelled, final];
      EndsAfterGrace(asked, boundary, cancelled, final, limit, id, clock);
      assert asked + [boundary, cancelled, final] == (asked + [boundary, cancelled]) + [final];
      PacedOneMore(asked + [boundary, cancelled], final, limit, polling);
      if final.reply.Threw? { return Err("transport error"); }
      if final.reply.Got? && Terminal(final.reply.record) { return Ok(ToResult(id, final.reply.record, clock)); }
      return Ok(LocalTimeout(id, boundary.reply.record.startedAt, clock));
    }

    /** The part after the loop: one more status, the cancel, the grace and the last status. */
    method Conclude(id: string, limit: int, ghost before: nat) returns (r: Result<ExecutionResult>)
      requires Valid() && before < |log| && Polling(log[before..], limit) && clock >= limit
      requires Paced(log[before..], limit, polling)
      requires |log| - before > 1 ==> clock >= Min(log[|log|-1].sentAt + polling.pollIntervalMs, limit)
      modifies this
      ensures |log| > |old(log)| && log[..|old(log)|] == old(log)
      ensures Disciplined(log[before..], limit) && Paced(log[before..], limit, polling)
      ensures r == Verdict(id, log[before..], clock)
      ensures clock <= old(clock) + polling.terminalGraceMs + 3 * longest
    {
      ghost var asked := log[before..];
      var boundary := Send(Status);
      assert log[before..] == asked + [boundary];
      EndsAtStatus(asked, boundary, limit, id, clock);
      PacedOneMore(asked, boundary, limit, polling);
      if boundary.reply.Threw? { return Err("transport error"); }
      if boundary.reply.Absent? { return Err("worker execution not found"); }
      if Terminal(boundary.reply.record) { return Ok(ToResult(id, boundary.reply.record, clock)); }
      r := Abandon(id, limit, boundary, before, asked);
    }

    /** Submits, polls until the deadline, asks once more, cancels, waits, and asks a last time. It ends within the
        controller's timeout and grace, plus the five requests that can run past them; exactly within timeout and
        grace when requests take no time. */
    method Execute(id: string) returns (r: Result<ExecutionResult>, ghost deadline: int)
      requires Valid()
      modifies this
      ensures |log| > |old(log)| && log[..|old(log)|] == old(log)
      ensures deadline <= old(clock) + longest + polling.controllerTimeoutMs
      ensures Disciplined(log[|old(log)|..], deadline) && Paced(log[|old(log)|..], deadline, polling)
      ensures r == Verdict(id, log[|old(log)|..], clock)
      ensures clock <= old(clock) + polling.controllerTimeoutMs + polling.terminalGraceMs + 5 * longest
    {
      ghost var before := |log|;
      var submit := Send(Submit);
      deadline := clock + polling.controllerTimeoutMs;
      if !submit.reply.Got? {
        return Err(if submit.reply.Threw? then "transport error" else "worker rejected execution"), deadline;
      }
      var limit := clock + polling.controllerTimeoutMs;
      while clock < limit
        invariant |log| > before && log[..before] == old(log)
        invariant Polling(log[before..], limit)
        invariant clock <= limit + longest
        invariant Paced(log[before..], limit, polling)
        invariant |log| - before > 1 ==> clock >= Min(log[|log|-1].sentAt + polling.pollIntervalMs, limit)
        decreases limit - clock
      {
        ghost var asked := log[before..];
        var record := Send(Status);
        assert log[before..] == asked + [record];
        EndsAtStatus(asked, record, limit, id, clock);
        PacedOneMore(asked, record, limit, polling);
        if record.reply.Threw? { return Err("transport error"), limit; }
        if record.reply.Absent? { return Err("worker execution not found"), limit; }
        if Terminal(record.reply.record) { return Ok(ToResult(id, record.reply.record, clock)), limit; }
        Sleep(Min(polling.pollIntervalMs, Max(0, limit - clock)));
      }
      r := Conclude(id, limit, before);
      return r, limit;
    }
  }
}
