/**
 * What one run event does to the snapshot a client renders (packages/core/src/event-reducer.ts,
 * packages/core/src/run-state.ts). A JSON value is its text.
 */
module EventReducer {
  import opened ByteStreams
  import opened EventFold

  type Json = string

  datatype RunStatus = Queued | Running | WaitingApproval | Completed | Failed | Cancelled

  function Transitions(from: RunStatus): set<RunStatus> {
    match from
    case Queued => {Running, Failed, Cancelled}
    case Running => {WaitingApproval, Completed, Failed, Cancelled}
    case WaitingApproval => {Running, Failed, Cancelled}
    case _ => {}
  }

  predicate Terminal(status: RunStatus) {
    Transitions(status) == {}
  }

  datatype ApprovalStatus = Pending | Approved | Denied | TimedOut

  /** How a gate is settled; never `Pending` again. */
  type Decision = s: ApprovalStatus | s != Pending witness Approved

  datatype Approval = Approval(status: ApprovalStatus, expiresAt: string, reason: Option<string>)

  datatype CallStatus = Requested | CallCompleted | CallFailed

  datatype ToolCall = ToolCall(callId: string, tool: string, arguments: Json, status: CallStatus,
                               result: Option<Json>, error: Option<string>, durationMs: Option<nat>, approval: Option<Approval>)

  datatype RunSnapshot = RunSnapshot(runId: string, status: RunStatus, toolCalls: seq<ToolCall>,
                                     failure: Option<(string, Option<string>)>, cancelReason: Option<string>)

  datatype Role = Assistant | User

  datatype MessageSnapshot = MessageSnapshot(id: string, runId: string, role: Role, text: string, complete: bool)

  /** The part of a thread snapshot events change. */
  datatype View = View(runs: seq<RunSnapshot>, messages: seq<MessageSnapshot>)

  datatype Body =
    | RunStarted
    | TokenDelta(messageId: string, delta: string)
    | ToolRequested(callId: string, tool: string, arguments: Json)
    | ApprovalRequested(callId: string, expiresAt: string)
    | ApprovalResolved(callId: string, decision: Decision, reason: Option<string>)
    | ToolCompleted(callId: string, result: Json, durationMs: Option<nat>)
    | ToolFailed(callId: string, error: string, durationMs: Option<nat>)
    | RunCompleted(closes: Option<string>)
    | RunFailed(message: string, code: Option<string>)
    | RunCancelled(why: Option<string>)
    | RunSteered(steerId: string, text: string)

  datatype Payload = Payload(threadId: string, runId: string, body: Body)

  type RunEvent = Event<Payload>

  datatype CallConflict = DuplicateCall | AlreadyResolved | AwaitingApproval | DeniedCall
  datatype GateConflict = DuplicateGate | UnknownGate | GateResolved
  datatype MessageConflict = NotAssistant | AlreadyExists

  datatype RunEventError =
    | Malformed
    | ThreadMismatch(expected: string, received: string)
    | IllegalTransition(from: RunStatus, to: RunStatus)
    | UnknownToolCall(callId: string)
    | ToolCallConflict(callId: string, callReason: CallConflict)
    | ApprovalConflict(callId: string, gateReason: GateConflict)
    | MessageConflicted(messageId: string, messageReason: MessageConflict)

  type Reduced = Result<View, RunEventError>

  // ---- lookups and replacements ----

  function FindRun(runs: seq<RunSnapshot>, runId: string): (found: Option<RunSnapshot>)
    ensures found.Some? ==> found.value.runId == runId && found.value in runs
    ensures found.None? ==> forall r :: r in runs ==> r.runId != runId
  {
    if runs == [] then None else if runs[0].runId == runId then Some(runs[0]) else FindRun(runs[1..], runId)
  }

  function FindMessage(messages: seq<MessageSnapshot>, runId: string, id: string): (found: Option<MessageSnapshot>)
    ensures found.Some? ==> found.value.runId == runId && found.value.id == id && found.value in messages
    ensures found.None? ==> forall m :: m in messages ==> m.runId != runId || m.id != id
  {
    if messages == [] then None
    else if messages[0].runId == runId && messages[0].id == id then Some(messages[0])
    else FindMessage(messages[1..], runId, id)
  }

  function FindCall(calls: seq<ToolCall>, callId: string): (found: Option<ToolCall>)
    ensures found.Some? ==> found.value.callId == callId && found.value in calls
    ensures found.None? ==> forall c :: c in calls ==> c.callId != callId
  {
    if calls == [] then None else if calls[0].callId == callId then Some(calls[0]) else FindCall(calls[1..], callId)
  }

  function WithRun(view: View, run: RunSnapshot): View {
    view.(runs := if FindRun(view.runs, run.runId).Some?
                  then seq(|view.runs|, i requires 0 <= i < |view.runs| => if view.runs[i].runId == run.runId then run else view.runs[i])
                  else view.runs + [run])
  }

  function WithMessage(view: View, m: MessageSnapshot): View {
    view.(messages := if FindMessage(view.messages, m.runId, m.id).Some?
                      then seq(|view.messages|, i requires 0 <= i < |view.messages| =>
                               if view.messages[i].runId == m.runId && view.messages[i].id == m.id then m else view.messages[i])
                      else view.messages + [m])
  }

  function WithCall(calls: seq<ToolCall>, call: ToolCall): (r: seq<ToolCall>)
    ensures |r| == |calls|
    ensures forall i :: 0 <= i < |r| ==> r[i] == if calls[i].callId == call.callId then call else calls[i]
  {
    seq(|calls|, i requires 0 <= i < |calls| => if calls[i].callId == call.callId then call else calls[i])
  }

  /** The run an event names, or the fresh one it starts. */
  function RunOrNew(view: View, runId: string): (run: RunSnapshot)
    ensures run.runId == runId
  {
    match FindRun(view.runs, runId)
    case Some(run) => run
    case None => RunSnapshot(runId, Queued, [], None, None)
  }

  predicate GatePending(call: ToolCall) {
    call.approval.Some? && call.approval.value.status == Pending
  }

  predicate HasPendingApproval(run: RunSnapshot) {
    exists i :: 0 <= i < |run.toolCalls| && GatePending(run.toolCalls[i])
  }

  // ---- the reducer ----

  /** The run brought to `running`, or left gated; None when its status forbids it. */
  function AsRunning(view: View, runId: string): (r: Option<RunSnapshot>)
    ensures r.Some? ==> r.value.runId == runId
  {
    var run := RunOrNew(view, runId);
    if run.status == Running then Some(run)
    else if run.status == WaitingApproval && HasPendingApproval(run) then Some(run)
    else if Running in Transitions(run.status) then Some(run.(status := Running))
    else None
  }

  function AsTerminal(view: View, runId: string, status: RunStatus): (r: Option<RunSnapshot>)
    ensures r.Some? ==> r.value.runId == runId && r.value.status == status
  {
    var run := RunOrNew(view, runId);
    if status in Transitions(run.status) then Some(run.(status := status)) else None
  }

  function Illegal(view: View, runId: string, to: RunStatus): Reduced {
    Failure(IllegalTransition(RunOrNew(view, runId).status, to))
  }

  /** Closes a finished run's assistant messages, creating the one it names if need be. */
  function CompleteMessages(view: View, runId: string, closes: Option<string>): Reduced {
    var found := if closes.Some? then FindMessage(view.messages, runId, closes.value) else None;
    if found.Some? && found.value.role != Assistant then Failure(MessageConflicted(closes.value, NotAssistant))
    else
      var current := if closes.Some? && found.None?
                     then WithMessage(view, MessageSnapshot(closes.value, runId, Assistant, "", true)) else view;
      Success(current.(messages := seq(|current.messages|, i requires 0 <= i < |current.messages| =>
        var m := current.messages[i]; if m.runId == runId && m.role == Assistant then m.(complete := true) else m)))
  }

  function ReduceTokenDelta(view: View, runId: string, messageId: string, delta: string): Reduced {
    match AsRunning(view, runId)
    case None => Illegal(view, runId, Running)
    case Some(run) =>
      match FindMessage(view.messages, runId, messageId)
      case None => Success(WithMessage(WithRun(view, run), MessageSnapshot(messageId, runId, Assistant, delta, false)))
      case Some(m) =>
        if m.role != Assistant then Failure(MessageConflicted(messageId, NotAssistant))
        else Success(WithMessage(WithRun(view, run), m.(text := m.text + delta)))
  }

  function ReduceToolRequested(view: View, runId: string, callId: string, tool: string, arguments: Json): Reduced {
    match AsRunning(view, runId)
    case None => Illegal(view, runId, Running)
    case Some(run) =>
      if FindCall(run.toolCalls, callId).Some? then Failure(ToolCallConflict(callId, DuplicateCall))
      else Success(WithRun(view, run.(toolCalls := run.toolCalls + [ToolCall(callId, tool, arguments, Requested, None, None, None, None)])))
  }

  function ReduceApprovalRequested(view: View, runId: string, callId: string, expiresAt: string): Reduced {
    match AsRunning(view, runId)
    case None => Illegal(view, runId, Running)
    case Some(run) =>
      match FindCall(run.toolCalls, callId)
      case None => Failure(UnknownToolCall(callId))
      case Some(call) =>
        if call.approval.Some? then Failure(ApprovalConflict(callId, DuplicateGate))
        else
          var gated := call.(approval := Some(Approval(Pending, expiresAt, None)));
          Success(WithRun(view, run.(toolCalls := WithCall(run.toolCalls, gated), status := WaitingApproval)))
  }

  function ReduceApprovalResolved(view: View, runId: string, callId: string, decision: Decision, reason: Option<string>): Reduced {
    var run := RunOrNew(view, runId);
    match FindCall(run.toolCalls, callId)
    case None => Failure(UnknownToolCall(callId))
    case Some(call) =>
      if call.approval.None? then Failure(ApprovalConflict(callId, UnknownGate))
      else if call.approval.value.status != Pending then Failure(ApprovalConflict(callId, GateResolved))
      else
        var approval := Approval(decision, call.approval.value.expiresAt, if reason.Some? then reason else call.approval.value.reason);
        var resolved := run.(toolCalls := WithCall(run.toolCalls, call.(approval := Some(approval))));
        Success(WithRun(view, if resolved.status == WaitingApproval && !HasPendingApproval(resolved) then resolved.(status := Running) else resolved))
  }

  /** `tool.completed` (a result) or `tool.failed` (an error). */
  function ReduceToolResolution(view: View, runId: string, callId: string, outcome: Result<Json, string>, durationMs: Option<nat>): Reduced {
    var run := RunOrNew(view, runId);
    match FindCall(run.toolCalls, callId)
    case None => Failure(UnknownToolCall(callId))
    case Some(call) =>
      if call.status != Requested then Failure(ToolCallConflict(callId, AlreadyResolved))
      else if GatePending(call) then Failure(ToolCallConflict(callId, AwaitingApproval))
      else if outcome.Success? && call.approval.Some? && (call.approval.value.status == Denied || call.approval.value.status == TimedOut) then
        Failure(ToolCallConflict(callId, DeniedCall))
      else
        var settled := match outcome
                       case Success(result) => call.(status := CallCompleted, result := Some(result), durationMs := durationMs)
                       case Failure(error) => call.(status := CallFailed, error := Some(error), durationMs := durationMs);
        Success(WithRun(view, run.(toolCalls := WithCall(run.toolCalls, settled))))
  }

  function ReduceSteered(view: View, runId: string, messageId: string, text: string): Reduced {
    match AsRunning(view, runId)
    case None => Illegal(view, runId, Running)
    case Some(run) =>
      if FindMessage(view.messages, runId, messageId).Some? then Failure(MessageConflicted(messageId, AlreadyExists))
      else Success(WithMessage(WithRun(view, run), MessageSnapshot(messageId, runId, User, text, true)))
  }

  function ReduceEnd(view: View, runId: string, status: RunStatus, edit: RunSnapshot -> RunSnapshot, closes: Option<string>): Reduced {
    match AsTerminal(view, runId, status)
    case None => Illegal(view, runId, status)
    case Some(run) => CompleteMessages(WithRun(view, edit(run)), runId, closes)
  }

  /** `applyEvent`. */
  function ApplyEvent(view: View, e: RunEvent): Reduced {
    var runId := e.payload.runId;
    match e.payload.body
    case RunStarted =>
      var run := RunOrNew(view, runId);
      if Running in Transitions(run.status) then Success(WithRun(view, run.(status := Running))) else Illegal(view, runId, Running)
    case TokenDelta(messageId, delta) => ReduceTokenDelta(view, runId, messageId, delta)
    case ToolRequested(callId, tool, arguments) => ReduceToolRequested(view, runId, callId, tool, arguments)
    case ApprovalRequested(callId, expiresAt) => ReduceApprovalRequested(view, runId, callId, expiresAt)
    case ApprovalResolved(callId, decision, reason) => ReduceApprovalResolved(view, runId, callId, decision, reason)
    case ToolCompleted(callId, result, durationMs) => ReduceToolResolution(view, runId, callId, Success(result), durationMs)
    case ToolFailed(callId, error, durationMs) => ReduceToolResolution(view, runId, callId, Failure(error), durationMs)
    case RunCompleted(closes) => ReduceEnd(view, runId, Completed, (run: RunSnapshot) => run, closes)
    case RunFailed(message, code) => ReduceEnd(view, runId, RunStatus.Failed, (run: RunSnapshot) => run.(failure := Some((message, code))), None)
    case RunCancelled(why) => ReduceEnd(view, runId, Cancelled, (run: RunSnapshot) => if why.Some? then run.(cancelReason := why) else run, None)
    case RunSteered(messageId, text) => ReduceSteered(view, runId, messageId, text)
  }

  // ---- the snapshot with its cursor ----

  datatype Wire = Parsed(event: RunEvent) | Unparseable

  const MAX_SAFE_INTEGER: nat := 0x1F_FFFF_FFFF_FFFF

  /** `optionalString`: absent, or not empty. */
  predicate Named(text: Option<string>) {
    text.Some? ==> text.value != ""
  }

  /** `optionalNonNegativeInteger`. */
  predicate Exact(n: Option<nat>) {
    n.Some? ==> n.value <= MAX_SAFE_INTEGER
  }

  /** The bodies `parseRunEvent` lets through; `isInstant` is its verdict on a timestamp. */
  predicate ParsesBody(isInstant: string -> bool, body: Body) {
    match body
    case RunStarted => true
    case TokenDelta(messageId, _) => messageId != ""
    case ToolRequested(callId, tool, _) => callId != "" && tool != ""
    case ApprovalRequested(callId, expiresAt) => callId != "" && isInstant(expiresAt)
    case ApprovalResolved(callId, _, reason) => callId != "" && Named(reason)
    case ToolCompleted(callId, _, durationMs) => callId != "" && Exact(durationMs)
    case ToolFailed(callId, _, durationMs) => callId != "" && Exact(durationMs)
    case RunCompleted(closes) => Named(closes)
    case RunFailed(_, code) => Named(code)
    case RunCancelled(why) => Named(why)
    case RunSteered(steerId, _) => steerId != ""
  }

  predicate Parses(isInstant: string -> bool, e: RunEvent) {
    1 <= e.seqNo <= MAX_SAFE_INTEGER && e.payload.threadId != "" && e.payload.runId != "" && ParsesBody(isInstant, e.payload.body)
  }

  /** An event as `parseRunEvent` reads it back. */
  function WireOf(isInstant: string -> bool, e: RunEvent): Wire {
    if Parses(isInstant, e) then Parsed(e) else Unparseable
  }

  datatype ThreadSnapshot = ThreadSnapshot(threadId: string, cursor: Cursor<View, Payload>)

  const EMPTY: View := View([], [])

  function CreateThreadSnapshot(threadId: string, lastSeq: nat): ThreadSnapshot {
    ThreadSnapshot(threadId, Cursor(EMPTY, lastSeq, []))
  }

  /** `reduceRunEvent`. */
  function ReduceRunEvent(snapshot: ThreadSnapshot, value: Wire): Result<ThreadSnapshot, RunEventError> {
    match value
    case Unparseable => Failure(Malformed)
    case Parsed(e) =>
      if e.payload.threadId != snapshot.threadId then Failure(ThreadMismatch(snapshot.threadId, e.payload.threadId))
      else
        match Receive(ApplyEvent, snapshot.cursor, e)
        case Failure(error) => Failure(error)
        case Success(cursor) => Success(snapshot.(cursor := cursor))
  }

  function ReduceRunEvents(snapshot: ThreadSnapshot, values: seq<Wire>): Result<ThreadSnapshot, RunEventError>
    decreases |values|
  {
    if values == [] then Success(snapshot)
    else
      match ReduceRunEvent(snapshot, values[0])
      case Failure(error) => Failure(error)
      case Success(next) => ReduceRunEvents(next, values[1..])
  }

  ghost predicate OfThread(threadId: string, values: seq<Wire>) {
    forall i :: 0 <= i < |values| ==> values[i].Parsed? && values[i].event.payload.threadId == threadId
  }

  function Events(values: seq<Wire>): (es: seq<RunEvent>)
    requires forall i :: 0 <= i < |values| ==> values[i].Parsed?
    ensures |es| == |values| && forall i :: 0 <= i < |es| ==> es[i] == values[i].event
  {
    seq(|values|, i requires 0 <= i < |values| => values[i].event)
  }

  /** The snapshot at the cursor a fold reached, or its failure. */
  function MovedTo(snapshot: ThreadSnapshot, r: Result<Cursor<View, Payload>, RunEventError>): Result<ThreadSnapshot, RunEventError> {
    match r
    case Failure(error) => Failure(error)
    case Success(c) => Success(snapshot.(cursor := c))
  }

  lemma {:induction false} ReduceIsReceive(snapshot: ThreadSnapshot, values: seq<Wire>)
    requires OfThread(snapshot.threadId, values)
    ensures ReduceRunEvents(snapshot, values) == MovedTo(snapshot, ReceiveAll(ApplyEvent, snapshot.cursor, Events(values)))
    decreases |values|
  {
    if values != [] {
      assert Events(values)[1..] == Events(values[1..]);
      var next := ReduceRunEvent(snapshot, values[0]);
      if next.Success? {
        ReduceIsReceive(next.value, values[1..]);
      }
    }
  }

  /** What a client at `lastSeq` holds once events have been applied one after another. */
  function Replayed(threadId: string, view: View, lastSeq: nat, es: seq<RunEvent>): Result<ThreadSnapshot, RunEventError> {
    match Replay(ApplyEvent, view, es)
    case Failure(error) => Failure(error)
    case Success(v) => Success(ThreadSnapshot(threadId, Cursor(v, lastSeq + |es|, [])))
  }

  /** The next events of its thread, in order, are simply applied. */
  lemma NextIsReplay(threadId: string, view: View, lastSeq: nat, values: seq<Wire>)
    requires OfThread(threadId, values) && forall i :: 0 <= i < |values| ==> values[i].event.seqNo == lastSeq + 1 + i
    ensures ReduceRunEvents(ThreadSnapshot(threadId, Cursor(view, lastSeq, [])), values) == Replayed(threadId, view, lastSeq, Events(values))
  {
    ReduceIsReceive(ThreadSnapshot(threadId, Cursor(view, lastSeq, [])), values);
    MovedIsReplayed(threadId, view, lastSeq, Events(values));
  }

  lemma MovedIsReplayed(threadId: string, view: View, lastSeq: nat, es: seq<RunEvent>)
    requires forall i :: 0 <= i < |es| ==> es[i].seqNo == lastSeq + 1 + i
    ensures var c := Cursor(view, lastSeq, []); MovedTo(ThreadSnapshot(threadId, c), ReceiveAll(ApplyEvent, c, es)) == Replayed(threadId, view, lastSeq, es)
  {
    InOrder(ApplyEvent, view, lastSeq, es);
  }

  /** "The same event list always produces the same snapshot, whatever order it arrives in and
      however many times an event is replayed": errors included. */
  lemma SameEventsSameSnapshot(snapshot: ThreadSnapshot, values: seq<Wire>, others: seq<Wire>)
    requires WellFormed(snapshot.cursor) && OfThread(snapshot.threadId, values) && OfThread(snapshot.threadId, others)
    requires Consistent(snapshot.cursor.pending + Events(values) + Events(others))
    requires forall v :: v in values <==> v in others
    ensures ReduceRunEvents(snapshot, values) == ReduceRunEvents(snapshot, others)
  {
    ReduceIsReceive(snapshot, values);
    ReduceIsReceive(snapshot, others);
    var es, fs := Events(values), Events(others);
    forall e
      ensures e in es <==> e in fs
    {
      if e in es {
        var i :| 0 <= i < |es| && es[i] == e;
        assert values[i] in others;
        var j :| 0 <= j < |others| && others[j] == values[i];
        assert fs[j] == e;
      }
      if e in fs {
        var i :| 0 <= i < |fs| && fs[i] == e;
        assert others[i] in values;
        var j :| 0 <= j < |values| && values[j] == others[i];
        assert es[j] == e;
      }
    }
    ArrivalOrderIrrelevant(ApplyEvent, snapshot.cursor, es, fs);
  }
}
