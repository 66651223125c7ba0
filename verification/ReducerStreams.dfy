/**
 * Whole streams of run events: the gate barrier, terminal statuses, and the text of messages
 * (packages/core/src/event-reducer.ts:484-523, 254-293, 342-369).
 */
module ReducerStreams {
  import opened ByteStreams
  import opened EventFold
  import opened EventReducer
  import opened ReducerLaws

  // ---- the gate is a barrier ----

  /** A gate that is open holds its call, and a denied or timed-out call never reports success. */
  predicate CallBarrier(call: ToolCall) {
    && (GatePending(call) ==> call.status == Requested)
    && (call.status == CallCompleted && call.approval.Some? ==> call.approval.value.status == Approved)
  }

  ghost predicate RunBarrier(run: RunSnapshot) {
    forall i :: 0 <= i < |run.toolCalls| ==> CallBarrier(run.toolCalls[i])
  }

  ghost predicate BarrierHolds(view: View) {
    forall i :: 0 <= i < |view.runs| ==> RunBarrier(view.runs[i])
  }

  /** A gate requested for a call that has already settled. */
  predicate GatesSettledCall(view: View, e: RunEvent) {
    e.payload.body.ApprovalRequested? &&
    var call := FindCall(RunOrNew(view, e.payload.runId).toolCalls, e.payload.body.callId);
    call.Some? && call.value.status != Requested
  }

  lemma BarrierOfRun(view: View, runId: string)
    requires BarrierHolds(view)
    ensures RunBarrier(RunOrNew(view, runId))
  {
  }

  lemma StoreBarrier(view: View, run: RunSnapshot)
    requires Good(view) && BarrierHolds(view)
    ensures BarrierHolds(WithRun(view, run)) <==> RunBarrier(run)
  {
    WithRunStores(view, run);
    var after := WithRun(view, run);
    var k :| 0 <= k < |after.runs| && after.runs[k] == run;
    assert forall i :: 0 <= i < |after.runs| ==> after.runs[i] == run || after.runs[i] in view.runs;
  }

  lemma CallsBarrier(run: RunSnapshot, call: ToolCall)
    requires DistinctCalls(run.toolCalls) && RunBarrier(run) && FindCall(run.toolCalls, call.callId).Some?
    ensures RunBarrier(run.(toolCalls := WithCall(run.toolCalls, call))) <==> CallBarrier(call)
  {
  }

  lemma GateBarrier(view: View, e: RunEvent)
    requires Good(view) && BarrierHolds(view) && ApplyEvent(view, e).Success?
    requires var b := e.payload.body; b.ApprovalRequested? || b.ApprovalResolved? || b.ToolCompleted? || b.ToolFailed?
    ensures BarrierHolds(ApplyEvent(view, e).value) <==> !GatesSettledCall(view, e)
  {
    var runId := e.payload.runId;
    var before := RunOrNew(view, runId);
    RunOrNewGood(view, runId);
    BarrierOfRun(view, runId);
    var run := if e.payload.body.ApprovalRequested? then AsRunning(view, runId).value else before;
    var call := FindCall(run.toolCalls, e.payload.body.callId).value;
    assert CallBarrier(call);
    var changed := match e.payload.body
      case ApprovalRequested(_, expiresAt) => call.(approval := Some(Approval(Pending, expiresAt, None)))
      case ApprovalResolved(_, decision, reason) =>
        call.(approval := Some(Approval(decision, call.approval.value.expiresAt, if reason.Some? then reason else call.approval.value.reason)))
      case ToolCompleted(_, result, durationMs) => call.(status := CallCompleted, result := Some(result), durationMs := durationMs)
      case ToolFailed(_, error, durationMs) => call.(status := CallFailed, error := Some(error), durationMs := durationMs)
      case _ => call;
    CallsBarrier(run, changed);
    var resolved := run.(toolCalls := WithCall(run.toolCalls, changed));
    var stored := if e.payload.body.ApprovalRequested? then resolved.(status := WaitingApproval)
                  else if e.payload.body.ApprovalResolved? && resolved.status == WaitingApproval && !HasPendingApproval(resolved) then resolved.(status := Running)
                  else resolved;
    assert RunBarrier(stored) <==> RunBarrier(resolved);
    assert ApplyEvent(view, e).value == WithRun(view, stored);
    StoreBarrier(view, stored);
  }

  /** A view whose runs are another's has its barrier. */
  lemma SameRunsBarrier(a: View, b: View)
    requires a.runs == b.runs
    ensures BarrierHolds(a) <==> BarrierHolds(b)
  {
  }

  /** "A call cannot resolve while its approval is pending, and a denied or timed-out call
      cannot report success": every accepted event keeps it except, exactly, a gate requested
      for a call that has already settled, which nothing refuses. */
  lemma BarrierExactly(view: View, e: RunEvent)
    requires Good(view) && BarrierHolds(view) && ApplyEvent(view, e).Success?
    ensures BarrierHolds(ApplyEvent(view, e).value) <==> !GatesSettledCall(view, e)
  {
    var runId := e.payload.runId;
    var before := RunOrNew(view, runId);
    RunOrNewGood(view, runId);
    BarrierOfRun(view, runId);
    var after := ApplyEvent(view, e).value;
    match e.payload.body
    case RunStarted =>
      StoreBarrier(view, before.(status := Running));
    case TokenDelta(messageId, delta) =>
      StoreBarrier(view, AsRunning(view, runId).value);
      SameRunsBarrier(after, WithRun(view, AsRunning(view, runId).value));
    case ToolRequested(callId, tool, arguments) =>
      var run := AsRunning(view, runId).value;
      StoreBarrier(view, run.(toolCalls := run.toolCalls + [ToolCall(callId, tool, arguments, Requested, None, None, None, None)]));
    case RunCompleted(closes) => EndBarrier(view, runId, Completed, (run: RunSnapshot) => run, closes);
    case RunFailed(message, code) => EndBarrier(view, runId, RunStatus.Failed, (run: RunSnapshot) => run.(failure := Some((message, code))), None);
    case RunCancelled(why) => EndBarrier(view, runId, Cancelled, (run: RunSnapshot) => if why.Some? then run.(cancelReason := why) else run, None);
    case RunSteered(steerId, text) =>
      StoreBarrier(view, AsRunning(view, runId).value);
      SameRunsBarrier(after, WithRun(view, AsRunning(view, runId).value));
    case _ => GateBarrier(view, e);
  }

  lemma EndBarrier(view: View, runId: string, status: RunStatus, edit: RunSnapshot -> RunSnapshot, closes: Option<string>)
    requires Good(view) && BarrierHolds(view) && ReduceEnd(view, runId, status, edit, closes).Success?
    requires forall r :: edit(r).runId == r.runId && edit(r).toolCalls == r.toolCalls
    ensures BarrierHolds(ReduceEnd(view, runId, status, edit, closes).value)
  {
  }

  // ---- whole streams ----

  function Fold(view: View, es: seq<RunEvent>): Reduced {
    Replay(ApplyEvent, view, es)
  }

  /** No event of the stream restarts a waiting run or gates a settled call. */
  ghost predicate Orderly(view: View, es: seq<RunEvent>)
    decreases |es|
  {
    es != [] ==>
      var init, last := es[..|es| - 1], es[|es| - 1];
      && Orderly(view, init)
      && (Fold(view, init).Success? ==> !Restarts(Fold(view, init).value, last) && !GatesSettledCall(Fold(view, init).value, last))
  }

  /** Over any orderly stream: identities stay unique, a gate is pending exactly while its run
      waits, no gated call resolves early, and a terminal run never changes status again. */
  lemma {:induction false} StreamKeeps(view: View, es: seq<RunEvent>, runId: string)
    requires Good(view) && BarrierHolds(view) && Orderly(view, es) && Fold(view, es).Success?
    ensures Good(Fold(view, es).value) && BarrierHolds(Fold(view, es).value)
    ensures Terminal(RunOrNew(view, runId).status) ==> RunOrNew(Fold(view, es).value, runId).status == RunOrNew(view, runId).status
    decreases |es|
  {
    if es != [] {
      var init, last := es[..|es| - 1], es[|es| - 1];
      StreamKeeps(view, init, runId);
      var before := Fold(view, init).value;
      ApplyKeeps(before, last);
      BarrierExactly(before, last);
      assert StatusMoves(before, Fold(view, es).value, runId);
    }
  }

  /** From nothing, every orderly stream. */
  lemma EveryStream(es: seq<RunEvent>)
    requires Orderly(EMPTY, es) && Fold(EMPTY, es).Success?
    ensures Good(Fold(EMPTY, es).value) && BarrierHolds(Fold(EMPTY, es).value)
  {
    StreamKeeps(EMPTY, es, "");
  }

  function E(body: Body): RunEvent {
    Event(1, Payload("thread", "run", body))
  }

  const CALL := ToolCall("c", "t", "{}", Requested, None, None, None, None)

  /** A view of one run with one call. */
  function OneCall(status: RunStatus, call: ToolCall): View {
    View([RunSnapshot("run", status, [call], None, None)], [])
  }

  const STARTED := View([RunSnapshot("run", Running, [], None, None)], [])

  lemma CallIsRequested()
    ensures ApplyEvent(EMPTY, E(RunStarted)) == Success(STARTED)
    ensures ApplyEvent(STARTED, E(ToolRequested("c", "t", "{}"))) == Success(OneCall(Running, CALL))
  {
    var run := STARTED.runs[0];
    assert [] + [run] == [run] && [] + [CALL] == [CALL];
    assert WithRun(STARTED, run.(toolCalls := [CALL])).runs == OneCall(Running, CALL).runs;
  }

  lemma OneCallChanges(status: RunStatus, call: ToolCall, later: ToolCall, newStatus: RunStatus)
    requires call.callId == later.callId == "c"
    ensures WithCall([call], later) == [later]
    ensures WithRun(OneCall(status, call), OneCall(newStatus, later).runs[0]) == OneCall(newStatus, later)
  {
  }

  lemma GateAnswered(done: ToolCall, gated: ToolCall, denied: ToolCall)
    requires done.callId == "c" && done.approval.None?
    requires gated == done.(approval := Some(Approval(Pending, "later", None))) && denied == done.(approval := Some(Approval(Denied, "later", None)))
    ensures ApplyEvent(OneCall(WaitingApproval, gated), E(ApprovalResolved("c", Denied, None))) == Success(OneCall(Running, denied))
  {
    OneCallChanges(WaitingApproval, gated, denied, Running);
    var run := OneCall(WaitingApproval, denied).runs[0];
    assert !HasPendingApproval(run);
  }

  /** Without order: a settled call gated late and denied reads as a denied success. */
  lemma DeniedSuccessIsReachable()
    ensures Fold(EMPTY, [E(RunStarted), E(ToolRequested("c", "t", "{}")), E(ToolCompleted("c", "ok", None)), E(ApprovalRequested("c", "later")), E(ApprovalResolved("c", Denied, None))])
            == Success(OneCall(Running, CALL.(status := CallCompleted, result := Some("ok"), approval := Some(Approval(Denied, "later", None)))))
  {
    var done := CALL.(status := CallCompleted, result := Some("ok"));
    var gated := done.(approval := Some(Approval(Pending, "later", None)));
    var denied := done.(approval := Some(Approval(Denied, "later", None)));
    CallIsRequested();
    OneCallChanges(Running, CALL, done, Running);
    assert ApplyEvent(OneCall(Running, CALL), E(ToolCompleted("c", "ok", None))) == Success(OneCall(Running, done));
    OneCallChanges(Running, done, gated, WaitingApproval);
    GateAnswered(done, gated, denied);
    Run5(EMPTY, STARTED, OneCall(Running, CALL), OneCall(Running, done), OneCall(WaitingApproval, gated), OneCall(Running, denied),
         E(RunStarted), E(ToolRequested("c", "t", "{}")), E(ToolCompleted("c", "ok", None)), E(ApprovalRequested("c", "later")), E(ApprovalResolved("c", Denied, None)));
  }

  /** Without order: a run restarted under an open gate completes with the gate still open. */
  lemma CompletedUnderOpenGateIsReachable()
    ensures Fold(EMPTY, [E(RunStarted), E(ToolRequested("c", "t", "{}")), E(ApprovalRequested("c", "later")), E(RunStarted), E(RunCompleted(None))])
            == Success(OneCall(Completed, CALL.(approval := Some(Approval(Pending, "later", None)))))
  {
    var gated := CALL.(approval := Some(Approval(Pending, "later", None)));
    CallIsRequested();
    OneCallChanges(Running, CALL, gated, WaitingApproval);
    OneCallChanges(WaitingApproval, gated, gated, Running);
    OneCallChanges(Running, gated, gated, Completed);
    assert ApplyEvent(OneCall(Running, gated), E(RunCompleted(None))).value.messages == [];
    Run5(EMPTY, STARTED, OneCall(Running, CALL), OneCall(WaitingApproval, gated), OneCall(Running, gated), OneCall(Completed, gated),
         E(RunStarted), E(ToolRequested("c", "t", "{}")), E(ApprovalRequested("c", "later")), E(RunStarted), E(RunCompleted(None)));
  }

  lemma FoldSnoc(v0: View, es: seq<RunEvent>, e: RunEvent, v: View, w: View)
    requires Fold(v0, es) == Success(v) && ApplyEvent(v, e) == Success(w)
    ensures Fold(v0, es + [e]) == Success(w)
  {
  }

  lemma Run5(v0: View, v1: View, v2: View, v3: View, v4: View, v5: View, a: RunEvent, b: RunEvent, c: RunEvent, d: RunEvent, e: RunEvent)
    requires ApplyEvent(v0, a) == Success(v1) && ApplyEvent(v1, b) == Success(v2) && ApplyEvent(v2, c) == Success(v3)
    requires ApplyEvent(v3, d) == Success(v4) && ApplyEvent(v4, e) == Success(v5)
    ensures Fold(v0, [a, b, c, d, e]) == Success(v5)
  {
    FoldSnoc(v0, [], a, v0, v1);
    FoldSnoc(v0, [] + [a], b, v1, v2);
    FoldSnoc(v0, [] + [a] + [b], c, v2, v3);
    FoldSnoc(v0, [] + [a] + [b] + [c], d, v3, v4);
    FoldSnoc(v0, [] + [a] + [b] + [c] + [d], e, v4, v5);
    assert [] + [a] + [b] + [c] + [d] + [e] == [a, b, c, d, e];
  }

  // ---- the text of a message is its deltas ----

  /** The deltas a stream carries for one message, joined in stream order. */
  function Deltas(es: seq<RunEvent>, runId: string, id: string): string {
    if es == [] then ""
    else
      var init, last := es[..|es| - 1], es[|es| - 1];
      Deltas(init, runId, id) +
      (if last.payload.runId == runId && last.payload.body.TokenDelta? && last.payload.body.messageId == id then last.payload.body.delta else "")
  }

  /** What one accepted event does to the text of every message. */
  lemma TextStep(view: View, e: RunEvent, runId: string, id: string)
    requires DistinctMessages(view.messages) && ApplyEvent(view, e).Success?
    ensures DistinctMessages(ApplyEvent(view, e).value.messages)
    ensures var before, after := Text(view, runId, id), Text(ApplyEvent(view, e).value, runId, id);
            var named := e.payload.runId == runId;
            match e.payload.body
            case TokenDelta(messageId, delta) =>
              if named && messageId == id then after == Some((Assistant, (if before.Some? then before.value.1 else "") + delta)) && (before.Some? ==> before.value.0 == Assistant)
              else after == before
            case RunSteered(steerId, text) => if named && steerId == id then before.None? && after == Some((User, text)) else after == before
            case RunCompleted(closes) => after == if named && closes == Some(id) && before.None? then Some((Assistant, "")) else before
            case _ => after == before
  {
    var r := e.payload.runId;
    match e.payload.body
    case TokenDelta(messageId, delta) =>
      var found := FindMessage(view.messages, r, messageId);
      assert "" + delta == delta;
      WithMessageStores(WithRun(view, AsRunning(view, r).value),
        if found.Some? then found.value.(text := found.value.text + delta) else MessageSnapshot(messageId, r, Assistant, delta, false));
    case RunSteered(steerId, text) =>
      WithMessageStores(WithRun(view, AsRunning(view, r).value), MessageSnapshot(steerId, r, User, text, true));
    case RunCompleted(closes) =>
      CompleteMessagesKeeps(WithRun(view, AsTerminal(view, r, Completed).value), r, closes);
    case RunFailed(message, code) =>
      CompleteMessagesKeeps(WithRun(view, AsTerminal(view, r, RunStatus.Failed).value.(failure := Some((message, code)))), r, None);
    case RunCancelled(why) =>
      var run := AsTerminal(view, r, Cancelled).value;
      CompleteMessagesKeeps(WithRun(view, if why.Some? then run.(cancelReason := why) else run), r, None);
    case _ =>
  }

  /** In any accepted stream an assistant message's text is exactly its deltas, in order, and
      no other message has any. */
  lemma {:induction false} TextIsDeltas(es: seq<RunEvent>, runId: string, id: string)
    requires Fold(EMPTY, es).Success?
    ensures var view := Fold(EMPTY, es).value;
            && DistinctMessages(view.messages)
            && match Text(view, runId, id) {
                 case Some((Assistant, text)) => text == Deltas(es, runId, id)
                 case _ => Deltas(es, runId, id) == ""
               }
    decreases |es|
  {
    if es != [] {
      var init, last := es[..|es| - 1], es[|es| - 1];
      TextIsDeltas(init, runId, id);
      TextStep(Fold(EMPTY, init).value, last, runId, id);
    }
  }
}
