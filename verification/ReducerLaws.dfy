/**
 * What every stream of accepted run events keeps: identities stay unique, a run's status moves
 * only along the transition table, a gate is open exactly while a run waits, and a message's
 * text is its deltas in order (packages/core/src/event-reducer.ts, packages/core/src/run-state.ts).
 */
module ReducerLaws {
  import opened ByteStreams
  import opened EventFold
  import opened EventReducer

  ghost predicate DistinctRuns(runs: seq<RunSnapshot>) {
    forall i, j :: 0 <= i < j < |runs| ==> runs[i].runId != runs[j].runId
  }

  ghost predicate DistinctMessages(messages: seq<MessageSnapshot>) {
    forall i, j :: 0 <= i < j < |messages| ==> messages[i].runId != messages[j].runId || messages[i].id != messages[j].id
  }

  ghost predicate DistinctCalls(calls: seq<ToolCall>) {
    forall i, j :: 0 <= i < j < |calls| ==> calls[i].callId != calls[j].callId
  }

  /** One run's own invariant: a gate is pending while it waits, and only then or after it
      ended early. */
  ghost predicate RunGood(run: RunSnapshot) {
    && DistinctCalls(run.toolCalls)
    && (run.status == WaitingApproval ==> HasPendingApproval(run))
    && (run.status == Queued || run.status == Running || run.status == Completed ==> !HasPendingApproval(run))
    && (run.status == Queued ==> run.toolCalls == [])
  }

  ghost predicate Good(view: View) {
    && DistinctRuns(view.runs)
    && DistinctMessages(view.messages)
    && forall i :: 0 <= i < |view.runs| ==> RunGood(view.runs[i])
  }

  lemma RunLookup(view: View, i: nat)
    requires DistinctRuns(view.runs) && i < |view.runs|
    ensures FindRun(view.runs, view.runs[i].runId) == Some(view.runs[i])
  {
  }

  lemma RunOrNewGood(view: View, runId: string)
    requires Good(view)
    ensures RunGood(RunOrNew(view, runId))
  {
  }

  /** Storing a run changes that run and no other. */
  lemma WithRunStores(view: View, run: RunSnapshot)
    requires Good(view)
    ensures Good(WithRun(view, run)) <==> RunGood(run)
    ensures WithRun(view, run).messages == view.messages && run in WithRun(view, run).runs
    ensures RunOrNew(WithRun(view, run), run.runId) == run
    ensures forall id :: id != run.runId ==> RunOrNew(WithRun(view, run), id) == RunOrNew(view, id)
  {
    var after := WithRun(view, run);
    var found := FindRun(view.runs, run.runId);
    if found.None? {
      assert after.runs[|view.runs|] == run;
      RunLookup(after, |view.runs|);
    } else {
      var k :| 0 <= k < |view.runs| && view.runs[k] == found.value;
      assert after.runs[k] == run;
      RunLookup(after, k);
    }
    forall id | id != run.runId
      ensures RunOrNew(after, id) == RunOrNew(view, id)
    {
      OtherRunKept(view, run, id);
    }
  }

  lemma OtherRunKept(view: View, run: RunSnapshot, id: string)
    requires DistinctRuns(view.runs) && DistinctRuns(WithRun(view, run).runs) && id != run.runId
    ensures RunOrNew(WithRun(view, run), id) == RunOrNew(view, id)
  {
    var after := WithRun(view, run);
    var found := FindRun(view.runs, id);
    if found.Some? {
      var k :| 0 <= k < |view.runs| && view.runs[k] == found.value;
      assert after.runs[k] == found.value;
      RunLookup(after, k);
    } else {
      assert forall k :: 0 <= k < |view.runs| ==> view.runs[k] in view.runs;
      assert forall k :: 0 <= k < |after.runs| ==> after.runs[k].runId != id;
    }
  }

  lemma MessageLookup(messages: seq<MessageSnapshot>, i: nat)
    requires DistinctMessages(messages) && i < |messages|
    ensures FindMessage(messages, messages[i].runId, messages[i].id) == Some(messages[i])
  {
  }

  /** Storing a message changes that message and no other. */
  lemma WithMessageStores(view: View, m: MessageSnapshot)
    requires DistinctMessages(view.messages)
    ensures DistinctMessages(WithMessage(view, m).messages) && WithMessage(view, m).runs == view.runs
    ensures FindMessage(WithMessage(view, m).messages, m.runId, m.id) == Some(m)
    ensures forall r, id :: r != m.runId || id != m.id ==> FindMessage(WithMessage(view, m).messages, r, id) == FindMessage(view.messages, r, id)
  {
    var after := WithMessage(view, m);
    var found := FindMessage(view.messages, m.runId, m.id);
    if found.None? {
      assert forall k :: 0 <= k < |view.messages| ==> view.messages[k] in view.messages;
      assert after.messages[|view.messages|] == m;
      MessageLookup(after.messages, |view.messages|);
    } else {
      var k :| 0 <= k < |view.messages| && view.messages[k] == found.value;
      assert after.messages[k] == m;
      MessageLookup(after.messages, k);
    }
    forall r, id | r != m.runId || id != m.id
      ensures FindMessage(after.messages, r, id) == FindMessage(view.messages, r, id)
    {
      OtherMessageKept(view, m, r, id);
    }
  }

  lemma OtherMessageKept(view: View, m: MessageSnapshot, r: string, id: string)
    requires DistinctMessages(view.messages) && DistinctMessages(WithMessage(view, m).messages) && (r != m.runId || id != m.id)
    ensures FindMessage(WithMessage(view, m).messages, r, id) == FindMessage(view.messages, r, id)
  {
    var after := WithMessage(view, m).messages;
    var found := FindMessage(view.messages, r, id);
    if found.Some? {
      var k :| 0 <= k < |view.messages| && view.messages[k] == found.value;
      assert after[k] == found.value;
      MessageLookup(after, k);
    } else {
      assert forall k :: 0 <= k < |view.messages| ==> view.messages[k] in view.messages;
      assert forall k :: 0 <= k < |after| ==> after[k].runId != r || after[k].id != id;
    }
  }

  // ---- what one event does to the run it names ----

  /** Closing a run's messages leaves runs, identities, roles and texts alone. */
  lemma CompleteMessagesKeeps(view: View, runId: string, closes: Option<string>)
    requires DistinctMessages(view.messages) && CompleteMessages(view, runId, closes).Success?
    ensures var after := CompleteMessages(view, runId, closes).value;
            && after.runs == view.runs && DistinctMessages(after.messages)
            && forall r, id :: Text(after, r, id) ==
                 (if Text(view, r, id).None? && r == runId && closes == Some(id) then Some((Assistant, "")) else Text(view, r, id))
  {
    var after := CompleteMessages(view, runId, closes).value;
    var current := view;
    if closes.Some? && FindMessage(view.messages, runId, closes.value).None? {
      var created := MessageSnapshot(closes.value, runId, Assistant, "", true);
      current := WithMessage(view, created);
      WithMessageStores(view, created);
    }
    assert |after.messages| == |current.messages|;
    assert forall i :: 0 <= i < |after.messages| ==> after.messages[i].(complete := true) == current.messages[i].(complete := true);
    forall r, id
      ensures Text(after, r, id) == Text(current, r, id)
    {
      SameTexts(after.messages, current.messages, r, id);
    }
  }

  /** The role and text a message shows. */
  function Text(view: View, runId: string, id: string): Option<(Role, string)> {
    match FindMessage(view.messages, runId, id)
    case None => None
    case Some(m) => Some((m.role, m.text))
  }

  lemma {:induction false} SameTexts(a: seq<MessageSnapshot>, b: seq<MessageSnapshot>, r: string, id: string)
    requires |a| == |b|
    requires forall i :: 0 <= i < |a| ==> a[i].(complete := true) == b[i].(complete := true)
    ensures FindMessage(a, r, id).Some? <==> FindMessage(b, r, id).Some?
    ensures FindMessage(a, r, id).Some? ==> FindMessage(a, r, id).value.role == FindMessage(b, r, id).value.role && FindMessage(a, r, id).value.text == FindMessage(b, r, id).value.text
  {
    if a != [] {
      SameTexts(a[1..], b[1..], r, id);
    }
  }

  lemma AsRunningGood(view: View, runId: string)
    requires Good(view) && AsRunning(view, runId).Some?
    ensures var before, run := RunOrNew(view, runId), AsRunning(view, runId).value;
            && RunGood(run) && run.toolCalls == before.toolCalls
            && (run.status == before.status || run.status in Transitions(before.status))
            && (run.status == Running || run.status == WaitingApproval)
            && (before.status == Queued || run.status == before.status)
  {
  }

  /** A second `run.started` for a run that is waiting: the table lets it reopen the run. */
  predicate Restarts(view: View, e: RunEvent) {
    e.payload.body.RunStarted? && RunOrNew(view, e.payload.runId).status == WaitingApproval
  }

  /** The run of an accepted event stays good, and its status stays or takes one legal step. */
  lemma RunStep(view: View, run: RunSnapshot, after: RunSnapshot)
    requires Good(view) && RunOrNew(view, after.runId) == run && RunGood(after)
    requires after.status == run.status || after.status in Transitions(run.status)
    ensures Good(WithRun(view, after)) && WithRun(view, after).messages == view.messages
    ensures RunOrNew(WithRun(view, after), after.runId) == after
    ensures forall id :: StatusMoves(view, WithRun(view, after), id)
  {
    WithRunStores(view, after);
  }

  /** What a reader sees of a run's status moves along the table, or not at all. */
  ghost predicate StatusMoves(view: View, after: View, id: string) {
    var s, t := RunOrNew(view, id).status, RunOrNew(after, id).status;
    s == t || t in Transitions(s)
  }

  ghost predicate KeepsAll(view: View, after: View) {
    Good(after) && forall id :: StatusMoves(view, after, id)
  }

  lemma GatedRun(run: RunSnapshot, callId: string, expiresAt: string)
    requires RunGood(run) && (run.status == Running || run.status == WaitingApproval) && FindCall(run.toolCalls, callId).Some?
    ensures var gated := FindCall(run.toolCalls, callId).value.(approval := Some(Approval(Pending, expiresAt, None)));
            RunGood(run.(toolCalls := WithCall(run.toolCalls, gated), status := WaitingApproval))
  {
  }

  lemma ResolvedRun(run: RunSnapshot, call: ToolCall)
    requires RunGood(run) && FindCall(run.toolCalls, call.callId).Some? && !GatePending(call)
    ensures var resolved := run.(toolCalls := WithCall(run.toolCalls, call));
            && DistinctCalls(resolved.toolCalls)
            && (HasPendingApproval(resolved) ==> HasPendingApproval(run))
            && RunGood(if resolved.status == WaitingApproval && !HasPendingApproval(resolved) then resolved.(status := Running) else resolved)
            && (!GatePending(FindCall(run.toolCalls, call.callId).value) && HasPendingApproval(run) ==> HasPendingApproval(resolved))
  {
  }

  lemma RequestedRun(run: RunSnapshot, call: ToolCall)
    requires RunGood(run) && (run.status == Running || run.status == WaitingApproval)
    requires FindCall(run.toolCalls, call.callId).None? && call.approval.None?
    ensures RunGood(run.(toolCalls := run.toolCalls + [call]))
  {
    var after := run.(toolCalls := run.toolCalls + [call]);
    assert forall i :: 0 <= i < |run.toolCalls| ==> run.toolCalls[i] in run.toolCalls && after.toolCalls[i] == run.toolCalls[i];
    if HasPendingApproval(run) {
      var i :| 0 <= i < |run.toolCalls| && GatePending(run.toolCalls[i]);
      assert GatePending(after.toolCalls[i]);
    }
  }

  lemma GateStep(view: View, runId: string, body: Body)
    requires Good(view) && (body.ApprovalRequested? || body.ApprovalResolved? || body.ToolCompleted? || body.ToolFailed?)
    requires ApplyEvent(view, Event(0, Payload("", runId, body))).Success?
    ensures KeepsAll(view, ApplyEvent(view, Event(0, Payload("", runId, body))).value)
  {
    var before := RunOrNew(view, runId);
    RunOrNewGood(view, runId);
    match body
    case ApprovalRequested(callId, expiresAt) =>
      AsRunningGood(view, runId);
      var run := AsRunning(view, runId).value;
      GatedRun(run, callId, expiresAt);
      var gated := FindCall(run.toolCalls, callId).value.(approval := Some(Approval(Pending, expiresAt, None)));
      RunStep(view, before, run.(toolCalls := WithCall(run.toolCalls, gated), status := WaitingApproval));
    case ApprovalResolved(callId, decision, reason) =>
      var call := FindCall(before.toolCalls, callId).value;
      var approval := Approval(decision, call.approval.value.expiresAt, if reason.Some? then reason else call.approval.value.reason);
      ResolvedRun(before, call.(approval := Some(approval)));
      var resolved := before.(toolCalls := WithCall(before.toolCalls, call.(approval := Some(approval))));
      RunStep(view, before, if resolved.status == WaitingApproval && !HasPendingApproval(resolved) then resolved.(status := Running) else resolved);
    case ToolCompleted(callId, result, durationMs) =>
      var call := FindCall(before.toolCalls, callId).value;
      var settled := call.(status := CallCompleted, result := Some(result), durationMs := durationMs);
      ResolvedRun(before, settled);
      RunStep(view, before, before.(toolCalls := WithCall(before.toolCalls, settled)));
    case ToolFailed(callId, error, durationMs) =>
      var call := FindCall(before.toolCalls, callId).value;
      var settled := call.(status := CallFailed, error := Some(error), durationMs := durationMs);
      ResolvedRun(before, settled);
      RunStep(view, before, before.(toolCalls := WithCall(before.toolCalls, settled)));
    case _ =>
  }

  lemma SameRunsKeep(view: View, after: View, later: View)
    requires KeepsAll(view, after) && later.runs == after.runs && DistinctMessages(later.messages)
    ensures KeepsAll(view, later)
  {
    forall id
      ensures StatusMoves(view, later, id)
    {
      assert StatusMoves(view, after, id);
      assert RunOrNew(later, id) == RunOrNew(after, id);
    }
  }

  lemma StoreMessageKeeps(view: View, after: View, m: MessageSnapshot)
    requires KeepsAll(view, after)
    ensures KeepsAll(view, WithMessage(after, m))
  {
    WithMessageStores(after, m);
    SameRunsKeep(view, after, WithMessage(after, m));
  }

  lemma EndedRun(view: View, runId: string, status: RunStatus, edit: RunSnapshot -> RunSnapshot, closes: Option<string>)
    requires Good(view) && status in {Completed, RunStatus.Failed, Cancelled}
    requires forall r :: edit(r).runId == r.runId && edit(r).status == r.status && edit(r).toolCalls == r.toolCalls
    requires ReduceEnd(view, runId, status, edit, closes).Success?
    ensures KeepsAll(view, ReduceEnd(view, runId, status, edit, closes).value)
  {
    RunOrNewGood(view, runId);
    var before := RunOrNew(view, runId);
    var after := edit(AsTerminal(view, runId, status).value);
    assert HasPendingApproval(after) <==> HasPendingApproval(before);
    RunStep(view, before, after);
    CompleteMessagesKeeps(WithRun(view, after), runId, closes);
    SameRunsKeep(view, WithRun(view, after), ReduceEnd(view, runId, status, edit, closes).value);
  }

  /** Every accepted event moves each status legally, and keeps the invariant exactly when it
      does not restart a run that waits on a gate. */
  lemma ApplyKeeps(view: View, e: RunEvent)
    requires Good(view) && ApplyEvent(view, e).Success?
    ensures var after := ApplyEvent(view, e).value;
            (Good(after) <==> !Restarts(view, e)) && forall id :: StatusMoves(view, after, id)
  {
    var runId := e.payload.runId;
    var before := RunOrNew(view, runId);
    RunOrNewGood(view, runId);
    match e.payload.body
    case RunStarted =>
      var after := before.(status := Running);
      assert HasPendingApproval(after) <==> HasPendingApproval(before);
      WithRunStores(view, after);
    case TokenDelta(messageId, delta) =>
      AsRunningGood(view, runId);
      RunStep(view, before, AsRunning(view, runId).value);
      var found := FindMessage(view.messages, runId, messageId);
      StoreMessageKeeps(view, WithRun(view, AsRunning(view, runId).value),
        if found.Some? then found.value.(text := found.value.text + delta) else MessageSnapshot(messageId, runId, Assistant, delta, false));
    case ToolRequested(callId, tool, arguments) =>
      AsRunningGood(view, runId);
      var run, call := AsRunning(view, runId).value, ToolCall(callId, tool, arguments, Requested, None, None, None, None);
      RequestedRun(run, call);
      RunStep(view, before, run.(toolCalls := run.toolCalls + [call]));
    case RunCompleted(closes) => EndedRun(view, runId, Completed, (run: RunSnapshot) => run, closes);
    case RunFailed(message, code) => EndedRun(view, runId, RunStatus.Failed, (run: RunSnapshot) => run.(failure := Some((message, code))), None);
    case RunCancelled(why) => EndedRun(view, runId, Cancelled, (run: RunSnapshot) => if why.Some? then run.(cancelReason := why) else run, None);
    case RunSteered(steerId, text) =>
      AsRunningGood(view, runId);
      RunStep(view, before, AsRunning(view, runId).value);
      StoreMessageKeeps(view, WithRun(view, AsRunning(view, runId).value), MessageSnapshot(steerId, runId, User, text, true));
    case _ => GateStep(view, runId, e.payload.body);
  }

  // ---- what a stored run or call is found as ----

  lemma {:induction false} FindCallAdded(calls: seq<ToolCall>, call: ToolCall, id: string)
    requires FindCall(calls, call.callId).None?
    ensures FindCall(calls + [call], id) == if id == call.callId then Some(call) else FindCall(calls, id)
    decreases |calls|
  {
    if calls != [] {
      FindCallAdded(calls[1..], call, id);
      assert (calls + [call])[1..] == calls[1..] + [call];
    }
  }

  lemma {:induction false} FindCallChanged(calls: seq<ToolCall>, updated: seq<ToolCall>, call: ToolCall, id: string)
    requires |updated| == |calls| && forall i :: 0 <= i < |calls| ==> updated[i] == if calls[i].callId == call.callId then call else calls[i]
    ensures FindCall(updated, id) == if id == call.callId && FindCall(calls, id).Some? then Some(call) else FindCall(calls, id)
    decreases |calls|
  {
    if calls != [] {
      FindCallChanged(calls[1..], updated[1..], call, id);
    }
  }

  lemma {:induction false} FindRunAdded(runs: seq<RunSnapshot>, run: RunSnapshot, id: string)
    requires FindRun(runs, run.runId).None?
    ensures FindRun(runs + [run], id) == if id == run.runId then Some(run) else FindRun(runs, id)
    decreases |runs|
  {
    if runs != [] {
      FindRunAdded(runs[1..], run, id);
      assert (runs + [run])[1..] == runs[1..] + [run];
    }
  }

  lemma {:induction false} FindRunChanged(runs: seq<RunSnapshot>, updated: seq<RunSnapshot>, run: RunSnapshot, id: string)
    requires |updated| == |runs| && forall i :: 0 <= i < |runs| ==> updated[i] == if runs[i].runId == run.runId then run else runs[i]
    ensures FindRun(updated, id) == if id == run.runId && FindRun(runs, id).Some? then Some(run) else FindRun(runs, id)
    decreases |runs|
  {
    if runs != [] {
      FindRunChanged(runs[1..], updated[1..], run, id);
    }
  }

  /** A run that is stored is found, and every other as before. */
  lemma FindRunAfterStore(v: View, run: RunSnapshot, id: string)
    ensures FindRun(WithRun(v, run).runs, id) == if id == run.runId then Some(run) else FindRun(v.runs, id)
    ensures WithRun(v, run).messages == v.messages
  {
    if FindRun(v.runs, run.runId).Some? {
      FindRunChanged(v.runs, WithRun(v, run).runs, run, id);
    } else {
      FindRunAdded(v.runs, run, id);
    }
  }
}
