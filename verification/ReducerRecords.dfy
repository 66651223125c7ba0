/**
 * What a client's view says of a run is what the run's events said
 * (packages/core/src/event-reducer.ts:224-326, 395-588): over every accepted stream, each call
 * carries its own request, gate and outcome, the run ends as its last event has it, and its
 * messages are closed exactly when it has ended.
 */
module ReducerRecords {
  import opened ByteStreams
  import opened EventFold
  import opened EventReducer
  import opened ReducerLaws

  // ---- what the events of a run say ----

  /** The bodies of a run's events. */
  function Bodies(es: seq<RunEvent>, runId: string): set<Body> {
    set e | e in es && e.payload.runId == runId :: e.payload.body
  }

  lemma BodiesSnoc(es: seq<RunEvent>, runId: string)
    requires es != []
    ensures var e := es[|es| - 1];
            Bodies(es, runId) == Bodies(es[..|es| - 1], runId) + if e.payload.runId == runId then {e.payload.body} else {}
  {
    var init, e := es[..|es| - 1], es[|es| - 1];
    assert forall x :: x in es <==> x in init || x == e by {
      assert es == init + [e];
    }
  }

  predicate Requests(b: Body, callId: string) { b.ToolRequested? && b.callId == callId }
  predicate Completes(b: Body, callId: string) { b.ToolCompleted? && b.callId == callId }
  predicate Fails(b: Body, callId: string) { b.ToolFailed? && b.callId == callId }
  predicate Gates(b: Body, callId: string) { b.ApprovalRequested? && b.callId == callId }
  predicate Decides(b: Body, callId: string) { b.ApprovalResolved? && b.callId == callId }

  /** The call was requested with this tool and these arguments, and with no others. */
  ghost predicate RequestTold(call: ToolCall, said: set<Body>) {
    && (exists b :: b in said && Requests(b, call.callId))
    && (forall b :: b in said && Requests(b, call.callId) ==> b.tool == call.tool && b.arguments == call.arguments)
  }

  /** It has completed or failed exactly if an event said so, with that event's result or error. */
  ghost predicate OutcomeTold(call: ToolCall, said: set<Body>) {
    && (call.status == CallCompleted <==> exists b :: b in said && Completes(b, call.callId))
    && (call.status == CallFailed <==> exists b :: b in said && Fails(b, call.callId))
    && (forall b :: b in said && Completes(b, call.callId) ==> call.result == Some(b.result) && call.durationMs == b.durationMs && call.error.None?)
    && (forall b :: b in said && Fails(b, call.callId) ==> call.error == Some(b.error) && call.durationMs == b.durationMs && call.result.None?)
    && (call.status == Requested ==> call.result.None? && call.error.None? && call.durationMs.None?)
  }

  /** It is gated exactly if an event said so, until the instant that event named; and the gate is
      open exactly until an event decided it, with that event's decision and reason. */
  ghost predicate GateTold(call: ToolCall, said: set<Body>) {
    && (call.approval.Some? <==> exists b :: b in said && Gates(b, call.callId))
    && (forall b :: b in said && Gates(b, call.callId) ==> call.approval.value.expiresAt == b.expiresAt)
    && (forall b :: b in said && Decides(b, call.callId) ==>
          call.approval.Some? && call.approval.value.status == b.decision && call.approval.value.reason == b.reason)
    && (call.approval.Some? && call.approval.value.status != Pending ==> exists b :: b in said && Decides(b, call.callId))
    && (GatePending(call) ==> call.approval.value.reason.None?)
  }

  ghost predicate CallTold(found: Option<ToolCall>, callId: string, said: set<Body>) {
    match found
    case None => forall b :: b in said ==> !Requests(b, callId) && !Completes(b, callId) && !Fails(b, callId) && !Gates(b, callId) && !Decides(b, callId)
    case Some(call) => call.callId == callId && RequestTold(call, said) && OutcomeTold(call, said) && GateTold(call, said)
  }

  /** An event that says nothing of the call. */
  lemma NotAbout(found: Option<ToolCall>, callId: string, said: set<Body>, b: Body)
    requires CallTold(found, callId, said)
    requires !Requests(b, callId) && !Completes(b, callId) && !Fails(b, callId) && !Gates(b, callId) && !Decides(b, callId)
    ensures CallTold(found, callId, said + {b})
  {
    assert forall x :: x in said + {b} <==> x in said || x == b;
  }

  lemma RequestedIsTold(callId: string, tool: string, arguments: Json, said: set<Body>)
    requires CallTold(None, callId, said)
    ensures CallTold(Some(ToolCall(callId, tool, arguments, Requested, None, None, None, None)), callId, said + {ToolRequested(callId, tool, arguments)})
  {
    var b := ToolRequested(callId, tool, arguments);
    assert b in said + {b} && Requests(b, callId);
    assert forall x :: x in said + {b} <==> x in said || x == b;
  }

  lemma OutcomeIsTold(call: ToolCall, said: set<Body>, b: Body, settled: ToolCall)
    requires CallTold(Some(call), call.callId, said) && call.status == Requested
    requires || (Completes(b, call.callId) && settled == call.(status := CallCompleted, result := Some(b.result), durationMs := b.durationMs))
             || (Fails(b, call.callId) && settled == call.(status := CallFailed, error := Some(b.error), durationMs := b.durationMs))
    ensures CallTold(Some(settled), call.callId, said + {b})
  {
    assert b in said + {b};
    assert forall x :: x in said + {b} <==> x in said || x == b;
    assert RequestTold(settled, said + {b}) && GateTold(settled, said + {b});
  }

  lemma GatedIsTold(call: ToolCall, said: set<Body>, b: Body)
    requires CallTold(Some(call), call.callId, said) && call.approval.None? && Gates(b, call.callId)
    ensures CallTold(Some(call.(approval := Some(Approval(Pending, b.expiresAt, None)))), call.callId, said + {b})
  {
    var gated := call.(approval := Some(Approval(Pending, b.expiresAt, None)));
    assert b in said + {b};
    assert forall x :: x in said + {b} <==> x in said || x == b;
    assert RequestTold(gated, said + {b}) && OutcomeTold(gated, said + {b});
  }

  lemma DecidedIsTold(call: ToolCall, said: set<Body>, b: Body, decided: ToolCall)
    requires CallTold(Some(call), call.callId, said) && GatePending(call) && Decides(b, call.callId)
    requires decided == call.(approval := Some(Approval(b.decision, call.approval.value.expiresAt, if b.reason.Some? then b.reason else call.approval.value.reason)))
    ensures CallTold(Some(decided), call.callId, said + {b})
  {
    assert b in said + {b};
    assert forall x :: x in said + {b} <==> x in said || x == b;
    assert RequestTold(decided, said + {b}) && OutcomeTold(decided, said + {b});
  }

  // ---- one accepted event ----

  /** The call a settling event leaves. */
  function SettledCall(call: ToolCall, b: Body): ToolCall
    requires b.ToolCompleted? || b.ToolFailed?
  {
    if b.ToolCompleted? then call.(status := CallCompleted, result := Some(b.result), durationMs := b.durationMs)
    else call.(status := CallFailed, error := Some(b.error), durationMs := b.durationMs)
  }

  /** What an accepted event makes of the calls of its run. */
  ghost predicate CallsBecome(before: seq<ToolCall>, b: Body, after: seq<ToolCall>) {
    match b
    case ToolRequested(callId, tool, arguments) =>
      FindCall(before, callId).None? && after == before + [ToolCall(callId, tool, arguments, Requested, None, None, None, None)]
    case ApprovalRequested(callId, expiresAt) =>
      var found := FindCall(before, callId);
      found.Some? && found.value.approval.None? && after == WithCall(before, found.value.(approval := Some(Approval(Pending, expiresAt, None))))
    case ApprovalResolved(callId, decision, reason) =>
      var found := FindCall(before, callId);
      found.Some? && GatePending(found.value)
      && after == WithCall(before, found.value.(approval := Some(Approval(decision, found.value.approval.value.expiresAt,
                                                                          if reason.Some? then reason else found.value.approval.value.reason))))
    case ToolCompleted(callId, _, _) =>
      var found := FindCall(before, callId);
      found.Some? && found.value.status == Requested && after == WithCall(before, SettledCall(found.value, b))
    case ToolFailed(callId, _, _) =>
      var found := FindCall(before, callId);
      found.Some? && found.value.status == Requested && after == WithCall(before, SettledCall(found.value, b))
    case _ => after == before
  }

  predicate Ends(b: Body) {
    b.RunCompleted? || b.RunFailed? || b.RunCancelled?
  }

  function EndStatus(b: Body): RunStatus
    requires Ends(b)
  {
    if b.RunCompleted? then Completed else if b.RunFailed? then RunStatus.Failed else Cancelled
  }

  /** And of the rest of the run. */
  ghost predicate RunBecomes(before: RunSnapshot, b: Body, after: RunSnapshot) {
    && after.runId == before.runId
    && (Terminal(after.status) <==> Ends(b) || Terminal(before.status))
    && (Ends(b) ==> !Terminal(before.status) && after.status == EndStatus(b))
    && (!Ends(b) && Terminal(before.status) ==> after.status == before.status)
    && (before.status != Queued || before.toolCalls == [] ==> after.status != Queued)
    && after.failure == (if b.RunFailed? then Some((b.message, b.code)) else before.failure)
    && after.cancelReason == (if b.RunCancelled? && b.why.Some? then b.why else before.cancelReason)
  }

  lemma AsRunningBecomes(view: View, runId: string)
    requires AsRunning(view, runId).Some?
    ensures var before, run := RunOrNew(view, runId), AsRunning(view, runId).value;
            run == before.(status := run.status) && !Terminal(before.status) && !Terminal(run.status) && run.status != Queued
  {
  }

  /** The run an accepted event stores, and what it is made of; every other run stays. */
  lemma EventStores(view: View, e: RunEvent) returns (run: RunSnapshot)
    requires ApplyEvent(view, e).Success?
    ensures var before := RunOrNew(view, e.payload.runId);
            CallsBecome(before.toolCalls, e.payload.body, run.toolCalls) && RunBecomes(before, e.payload.body, run)
    ensures ApplyEvent(view, e).value.runs == WithRun(view, run).runs
  {
    var runId := e.payload.runId;
    var before := RunOrNew(view, runId);
    match e.payload.body
    case RunStarted => run := before.(status := Running);
    case TokenDelta(_, _) =>
      AsRunningBecomes(view, runId);
      run := AsRunning(view, runId).value;
    case RunSteered(_, _) =>
      AsRunningBecomes(view, runId);
      run := AsRunning(view, runId).value;
    case RunCompleted(_) => run := AsTerminal(view, runId, Completed).value;
    case RunFailed(message, code) => run := AsTerminal(view, runId, RunStatus.Failed).value.(failure := Some((message, code)));
    case RunCancelled(why) =>
      var ended := AsTerminal(view, runId, Cancelled).value;
      run := if why.Some? then ended.(cancelReason := why) else ended;
    case _ => run := CallEventStores(view, e);
  }

  lemma CallEventStores(view: View, e: RunEvent) returns (run: RunSnapshot)
    requires ApplyEvent(view, e).Success?
    requires var b := e.payload.body; b.ToolRequested? || b.ApprovalRequested? || b.ApprovalResolved? || b.ToolCompleted? || b.ToolFailed?
    ensures var before := RunOrNew(view, e.payload.runId);
            CallsBecome(before.toolCalls, e.payload.body, run.toolCalls) && RunBecomes(before, e.payload.body, run)
    ensures ApplyEvent(view, e).value.runs == WithRun(view, run).runs
  {
    var runId := e.payload.runId;
    var before := RunOrNew(view, runId);
    match e.payload.body
    case ToolRequested(callId, tool, arguments) =>
      AsRunningBecomes(view, runId);
      var running := AsRunning(view, runId).value;
      run := running.(toolCalls := running.toolCalls + [ToolCall(callId, tool, arguments, Requested, None, None, None, None)]);
    case ApprovalRequested(callId, expiresAt) =>
      AsRunningBecomes(view, runId);
      var running := AsRunning(view, runId).value;
      var gated := FindCall(running.toolCalls, callId).value.(approval := Some(Approval(Pending, expiresAt, None)));
      run := running.(toolCalls := WithCall(running.toolCalls, gated), status := WaitingApproval);
    case ApprovalResolved(callId, decision, reason) =>
      var call := FindCall(before.toolCalls, callId).value;
      var approval := Approval(decision, call.approval.value.expiresAt, if reason.Some? then reason else call.approval.value.reason);
      var resolved := before.(toolCalls := WithCall(before.toolCalls, call.(approval := Some(approval))));
      run := if resolved.status == WaitingApproval && !HasPendingApproval(resolved) then resolved.(status := Running) else resolved;
    case ToolCompleted(callId, _, _) =>
      run := before.(toolCalls := WithCall(before.toolCalls, SettledCall(FindCall(before.toolCalls, callId).value, e.payload.body)));
    case ToolFailed(callId, _, _) =>
      run := before.(toolCalls := WithCall(before.toolCalls, SettledCall(FindCall(before.toolCalls, callId).value, e.payload.body)));
  }

  lemma CallStaysTold(before: seq<ToolCall>, b: Body, after: seq<ToolCall>, callId: string, said: set<Body>)
    requires CallTold(FindCall(before, callId), callId, said) && CallsBecome(before, b, after)
    ensures CallTold(FindCall(after, callId), callId, said + {b})
  {
    var found := FindCall(before, callId);
    match b
    case ToolRequested(id, tool, arguments) =>
      FindCallAdded(before, ToolCall(id, tool, arguments, Requested, None, None, None, None), callId);
      if id == callId { RequestedIsTold(callId, tool, arguments, said); } else { NotAbout(found, callId, said, b); }
    case ApprovalRequested(id, expiresAt) =>
      FindCallChanged(before, after, FindCall(before, id).value.(approval := Some(Approval(Pending, expiresAt, None))), callId);
      if id == callId { GatedIsTold(found.value, said, b); } else { NotAbout(found, callId, said, b); }
    case ApprovalResolved(id, decision, reason) =>
      var call := FindCall(before, id).value;
      var decided := call.(approval := Some(Approval(decision, call.approval.value.expiresAt, if reason.Some? then reason else call.approval.value.reason)));
      FindCallChanged(before, after, decided, callId);
      if id == callId { DecidedIsTold(call, said, b, decided); } else { NotAbout(found, callId, said, b); }
    case ToolCompleted(id, _, _) =>
      FindCallChanged(before, after, SettledCall(FindCall(before, id).value, b), callId);
      if id == callId { OutcomeIsTold(found.value, said, b, SettledCall(found.value, b)); } else { NotAbout(found, callId, said, b); }
    case ToolFailed(id, _, _) =>
      FindCallChanged(before, after, SettledCall(FindCall(before, id).value, b), callId);
      if id == callId { OutcomeIsTold(found.value, said, b, SettledCall(found.value, b)); } else { NotAbout(found, callId, said, b); }
    case _ => NotAbout(found, callId, said, b);
  }

  /** A run has ended exactly if an event ended it, as that event has it: no two can. */
  ghost predicate RunTold(run: RunSnapshot, said: set<Body>) {
    && (Terminal(run.status) <==> exists b :: b in said && Ends(b))
    && (forall b :: b in said && Ends(b) ==> run.status == EndStatus(b))
    && (forall b :: b in said && b.RunFailed? ==> run.failure == Some((b.message, b.code)))
    && (forall b :: b in said && b.RunCancelled? ==> run.cancelReason == b.why)
    && (run.failure.Some? ==> run.status == RunStatus.Failed) && (run.cancelReason.Some? ==> run.status == Cancelled)
    && (run.status == Queued <==> said == {}) && (run.status == Queued ==> run.toolCalls == [])
  }

  lemma RunStaysTold(before: RunSnapshot, b: Body, after: RunSnapshot, said: set<Body>)
    requires RunTold(before, said) && RunBecomes(before, b, after)
    ensures RunTold(after, said + {b})
  {
    assert b in said + {b};
    assert forall x :: x in said + {b} <==> x in said || x == b;
  }

  // ---- messages ----

  /** A user's message is always complete, an assistant's exactly when its run has ended. */
  ghost predicate MessagesTold(view: View, runId: string) {
    forall m :: m in view.messages && m.runId == runId ==> (m.complete <==> m.role == User || Terminal(RunOrNew(view, runId).status))
  }

  /** Closing a run's messages completes every assistant message of it, and changes nothing else
      about any message; at most the one it names is new, and empty. */
  lemma ClosedMessages(view: View, runId: string, closes: Option<string>)
    requires CompleteMessages(view, runId, closes).Success?
    ensures var after := CompleteMessages(view, runId, closes).value.messages;
            && |view.messages| <= |after| <= |view.messages| + 1
            && (forall i :: 0 <= i < |view.messages| ==>
                  var m := view.messages[i];
                  after[i] == if m.runId == runId && m.role == Assistant then m.(complete := true) else m)
            && (|after| > |view.messages| ==> closes.Some? && after[|view.messages|] == MessageSnapshot(closes.value, runId, Assistant, "", true))
  {
  }

  /** The event that ends a run completes its messages. */
  lemma EndCompletes(view: View, e: RunEvent)
    requires ApplyEvent(view, e).Success? && Ends(e.payload.body)
    ensures var after := ApplyEvent(view, e).value.messages;
            && |view.messages| <= |after| <= |view.messages| + 1
            && (|after| > |view.messages| ==>
                  after[|view.messages|].runId == e.payload.runId && after[|view.messages|].role == Assistant && after[|view.messages|].complete)
            && (forall i :: 0 <= i < |view.messages| ==>
                  var m := view.messages[i];
                  after[i] == if m.runId == e.payload.runId && m.role == Assistant then m.(complete := true) else m)
  {
    var runId := e.payload.runId;
    match e.payload.body
    case RunCompleted(closes) => ClosedMessages(WithRun(view, AsTerminal(view, runId, Completed).value), runId, closes);
    case RunFailed(message, code) =>
      ClosedMessages(WithRun(view, AsTerminal(view, runId, RunStatus.Failed).value.(failure := Some((message, code)))), runId, None);
    case RunCancelled(why) =>
      var ended := AsTerminal(view, runId, Cancelled).value;
      ClosedMessages(WithRun(view, if why.Some? then ended.(cancelReason := why) else ended), runId, None);
  }

  /** Every other accepted event writes the message it names or none, of a run that goes on. A delta
      adds its text to that message, its flag as it was, or to a new one that is open; a steer adds
      a new one that is complete. */
  lemma OtherMessages(view: View, e: RunEvent)
    requires ApplyEvent(view, e).Success? && !Ends(e.payload.body)
    ensures var runId, after := e.payload.runId, ApplyEvent(view, e).value.messages;
            match e.payload.body
            case TokenDelta(messageId, delta) =>
              if forall m :: m in view.messages ==> m.runId != runId || m.id != messageId
              then after == view.messages + [MessageSnapshot(messageId, runId, Assistant, delta, false)]
              else |after| == |view.messages| && forall i :: 0 <= i < |after| ==> Extends(view.messages, runId, messageId, delta, view.messages[i], after[i])
            case RunSteered(steerId, text) => after == view.messages + [MessageSnapshot(steerId, runId, User, text, true)]
            case _ => after == view.messages
  {
    if e.payload.body.TokenDelta? || e.payload.body.RunSteered? {
      assert WithRun(view, AsRunning(view, e.payload.runId).value).messages == view.messages;
    } else {
      assert ApplyEvent(view, e).value.messages == view.messages;
    }
  }

  /** The message of that run and id with the delta at its end, and any other as it was. */
  ghost predicate Extends(messages: seq<MessageSnapshot>, runId: string, messageId: string, delta: string, was: MessageSnapshot, after: MessageSnapshot) {
    if was.runId == runId && was.id == messageId
    then exists m :: m in messages && m.runId == runId && m.id == messageId && m.role == Assistant && after == m.(text := m.text + delta)
    else after == was
  }

  lemma EndedMessage(before: seq<MessageSnapshot>, after: seq<MessageSnapshot>, ended: string, m: MessageSnapshot)
    requires |before| <= |after| <= |before| + 1 && m in after
    requires |after| > |before| ==> after[|before|].runId == ended && after[|before|].role == Assistant && after[|before|].complete
    requires forall i :: 0 <= i < |before| ==> after[i] == if before[i].runId == ended && before[i].role == Assistant then before[i].(complete := true) else before[i]
    ensures m.runId == ended && m.role == Assistant ==> m.complete
    ensures m.runId != ended || m.role != Assistant ==> m in before
  {
    var i :| 0 <= i < |after| && after[i] == m;
    if i < |before| {
      assert before[i] in before;
    }
  }

  lemma MessagesStayTold(view: View, e: RunEvent, runId: string)
    requires ApplyEvent(view, e).Success? && MessagesTold(view, runId)
    ensures MessagesTold(ApplyEvent(view, e).value, runId)
  {
    var after := ApplyEvent(view, e).value;
    var run := EventStores(view, e);
    FindRunAfterStore(view, run, runId);
    var was, now := RunOrNew(view, runId), RunOrNew(after, runId);
    assert e.payload.runId != runId ==> now == was;
    if Ends(e.payload.body) {
      EndCompletes(view, e);
      forall m | m in after.messages && m.runId == runId
        ensures m.complete <==> m.role == User || Terminal(now.status)
      {
        EndedMessage(view.messages, after.messages, e.payload.runId, m);
      }
    } else {
      OtherMessages(view, e);
      if e.payload.body.TokenDelta? || e.payload.body.RunSteered? {
        AsRunningBecomes(view, e.payload.runId);
      }
    }
  }

  // ---- whole streams ----

  ghost predicate Told(view: View, runId: string, callId: string, said: set<Body>) {
    var run := RunOrNew(view, runId);
    RunTold(run, said) && CallTold(FindCall(run.toolCalls, callId), callId, said) && MessagesTold(view, runId)
  }

  lemma EventIsTold(view: View, e: RunEvent, runId: string, callId: string, said: set<Body>)
    requires ApplyEvent(view, e).Success? && Told(view, runId, callId, said)
    ensures Told(ApplyEvent(view, e).value, runId, callId, said + if e.payload.runId == runId then {e.payload.body} else {})
  {
    var before := RunOrNew(view, runId);
    var run := EventStores(view, e);
    FindRunAfterStore(view, run, runId);
    MessagesStayTold(view, e, runId);
    if e.payload.runId == runId {
      RunStaysTold(before, e.payload.body, run, said);
      CallStaysTold(before.toolCalls, e.payload.body, run.toolCalls, callId, said);
    } else {
      assert said + {} == said;
    }
  }

  lemma {:induction false} StreamIsTold(es: seq<RunEvent>, runId: string, callId: string)
    requires Replay(ApplyEvent, EMPTY, es).Success?
    ensures Told(Replay(ApplyEvent, EMPTY, es).value, runId, callId, Bodies(es, runId))
    decreases |es|
  {
    if es != [] {
      var init, e := es[..|es| - 1], es[|es| - 1];
      var view := Replay(ApplyEvent, EMPTY, init).value;
      assert Replay(ApplyEvent, EMPTY, es) == ApplyEvent(view, e);
      StreamIsTold(init, runId, callId);
      BodiesSnoc(es, runId);
      EventIsTold(view, e, runId, callId, Bodies(init, runId));
    }
  }

  /** In every stream a client has accepted, what it shows of a run, of each of its calls and of its
      messages is what the run's own events said. */
  lemma RecordsAreTold(es: seq<RunEvent>, runId: string, callId: string)
    requires Replay(ApplyEvent, EMPTY, es).Success?
    ensures var view, said := Replay(ApplyEvent, EMPTY, es).value, Bodies(es, runId);
            var run := RunOrNew(view, runId);
            && RunTold(run, said)
            && CallTold(FindCall(run.toolCalls, callId), callId, said)
            && MessagesTold(view, runId)
  {
    StreamIsTold(es, runId, callId);
  }

  // ---- which events are accepted, and what the run's status becomes ----

  /** What the run's status forbids: only a run that is not running or over starts, only a running one
      completes, and nothing but an approval's or a call's outcome comes after the end. */
  function StatusRefusal(status: RunStatus, b: Body): Option<RunEventError> {
    var live := status == Queued || status == Running || status == WaitingApproval;
    match b
    case RunStarted => if status == Queued || status == WaitingApproval then None else Some(IllegalTransition(status, Running))
    case RunCompleted(_) => if status == Running then None else Some(IllegalTransition(status, Completed))
    case RunFailed(_, _) => if live then None else Some(IllegalTransition(status, RunStatus.Failed))
    case RunCancelled(_) => if live then None else Some(IllegalTransition(status, Cancelled))
    case ApprovalResolved(_, _, _) => None
    case ToolCompleted(_, _, _) => None
    case ToolFailed(_, _, _) => None
    case _ => if live then None else Some(IllegalTransition(status, Running))
  }

  /** What the call forbids: it is requested once, gated once and decided once; it ends once, not under
      an open gate, and not well unless its gate was approved or there was none. */
  function CallRefusal(call: Option<ToolCall>, b: Body): Option<RunEventError> {
    match b
    case ToolRequested(id, _, _) => if call.None? then None else Some(ToolCallConflict(id, DuplicateCall))
    case ApprovalRequested(id, _) =>
      if call.None? then Some(UnknownToolCall(id)) else if call.value.approval.None? then None else Some(ApprovalConflict(id, DuplicateGate))
    case ApprovalResolved(id, _, _) =>
      if call.None? then Some(UnknownToolCall(id)) else if call.value.approval.None? then Some(ApprovalConflict(id, UnknownGate))
      else if call.value.approval.value.status == Pending then None else Some(ApprovalConflict(id, GateResolved))
    case ToolCompleted(id, _, _) =>
      if call.None? then Some(UnknownToolCall(id)) else if call.value.status != Requested then Some(ToolCallConflict(id, AlreadyResolved))
      else if call.value.approval.None? || call.value.approval.value.status == Approved then None
      else Some(ToolCallConflict(id, if call.value.approval.value.status == Pending then AwaitingApproval else DeniedCall))
    case ToolFailed(id, _, _) =>
      if call.None? then Some(UnknownToolCall(id)) else if call.value.status != Requested then Some(ToolCallConflict(id, AlreadyResolved))
      else if call.value.approval.Some? && call.value.approval.value.status == Pending then Some(ToolCallConflict(id, AwaitingApproval)) else None
    case _ => None
  }

  /** What the message forbids: a delta and a closing are for no message yet or an assistant's, a steer
      for none yet. */
  function MessageRefusal(m: Option<MessageSnapshot>, b: Body): Option<RunEventError> {
    match b
    case TokenDelta(id, _) => if m.Some? && m.value.role == User then Some(MessageConflicted(id, NotAssistant)) else None
    case RunCompleted(Some(id)) => if m.Some? && m.value.role == User then Some(MessageConflicted(id, NotAssistant)) else None
    case RunSteered(id, _) => if m.Some? then Some(MessageConflicted(id, AlreadyExists)) else None
    case _ => None
  }

  function CallIdOf(b: Body): string {
    match b
    case ToolRequested(id, _, _) => id
    case ApprovalRequested(id, _) => id
    case ApprovalResolved(id, _, _) => id
    case ToolCompleted(id, _, _) => id
    case ToolFailed(id, _, _) => id
    case _ => ""
  }

  function MessageIdOf(b: Body): string {
    match b
    case TokenDelta(id, _) => id
    case RunCompleted(Some(id)) => id
    case RunSteered(id, _) => id
    case _ => ""
  }

  /** An event is refused exactly for its run's status, or else for the call or message it names. */
  lemma RefusedWhen(view: View, e: RunEvent)
    ensures var b, run := e.payload.body, RunOrNew(view, e.payload.runId);
            var call, m := FindCall(run.toolCalls, CallIdOf(b)), FindMessage(view.messages, run.runId, MessageIdOf(b));
            var refusal := if StatusRefusal(run.status, b).Some? then StatusRefusal(run.status, b)
                           else if CallRefusal(call, b).Some? then CallRefusal(call, b) else MessageRefusal(m, b);
            if refusal.Some? then ApplyEvent(view, e) == Failure(refusal.value) else ApplyEvent(view, e).Success?
  {
    var b, run := e.payload.body, RunOrNew(view, e.payload.runId);
    if b.TokenDelta? || b.RunSteered? || b.ToolRequested? || b.ApprovalRequested? {
      RunsWhen(view, e.payload.runId);
    } else if Ends(b) {
      EndsWhen(view, e);
    }
  }

  lemma RunsWhen(view: View, runId: string)
    ensures var run := RunOrNew(view, runId);
            && (AsRunning(view, runId).Some? <==> run.status == Queued || run.status == Running || run.status == WaitingApproval)
            && (AsRunning(view, runId).Some? ==>
                  AsRunning(view, runId).value ==
                  run.(status := if run.status == WaitingApproval && exists c :: c in run.toolCalls && GatePending(c) then WaitingApproval else Running))
  {
    PendingAmong(RunOrNew(view, runId));
  }

  lemma EndsWhen(view: View, e: RunEvent)
    requires Ends(e.payload.body)
    ensures var b, run := e.payload.body, RunOrNew(view, e.payload.runId);
            var m := FindMessage(view.messages, run.runId, MessageIdOf(b));
            var refusal := if StatusRefusal(run.status, b).Some? then StatusRefusal(run.status, b) else MessageRefusal(m, b);
            if refusal.Some? then ApplyEvent(view, e) == Failure(refusal.value) else ApplyEvent(view, e).Success?
  {
    var runId := e.payload.runId;
    match e.payload.body
    case RunCompleted(closes) =>
      if AsTerminal(view, runId, Completed).Some? {
        assert WithRun(view, AsTerminal(view, runId, Completed).value).messages == view.messages;
      }
    case _ =>
  }

  /** The status an accepted event leaves its run with: a gate holds it until no gate is open. */
  function StatusAfter(before: RunSnapshot, b: Body, calls: seq<ToolCall>): RunStatus {
    match b
    case RunStarted => Running
    case ApprovalRequested(_, _) => WaitingApproval
    case ApprovalResolved(_, _, _) => if before.status == WaitingApproval && (forall c :: c in calls ==> !GatePending(c)) then Running else before.status
    case ToolCompleted(_, _, _) => before.status
    case ToolFailed(_, _, _) => before.status
    case RunCompleted(_) => Completed
    case RunFailed(_, _) => RunStatus.Failed
    case RunCancelled(_) => Cancelled
    case _ => if before.status == WaitingApproval && (exists c :: c in before.toolCalls && GatePending(c)) then WaitingApproval else Running
  }

  lemma StatusStores(view: View, e: RunEvent) returns (run: RunSnapshot)
    requires ApplyEvent(view, e).Success?
    ensures run.runId == e.payload.runId && run.status == StatusAfter(RunOrNew(view, e.payload.runId), e.payload.body, run.toolCalls)
    ensures ApplyEvent(view, e).value.runs == WithRun(view, run).runs
  {
    var runId := e.payload.runId;
    var before := RunOrNew(view, runId);
    match e.payload.body
    case ApprovalResolved(callId, decision, reason) =>
      var call := FindCall(before.toolCalls, callId).value;
      var approval := Approval(decision, call.approval.value.expiresAt, if reason.Some? then reason else call.approval.value.reason);
      var resolved := before.(toolCalls := WithCall(before.toolCalls, call.(approval := Some(approval))));
      run := if resolved.status == WaitingApproval && !HasPendingApproval(resolved) then resolved.(status := Running) else resolved;
      PendingAmong(resolved);
    case ToolCompleted(callId, result, durationMs) =>
      var call := FindCall(before.toolCalls, callId).value;
      run := before.(toolCalls := WithCall(before.toolCalls, call.(status := CallCompleted, result := Some(result), durationMs := durationMs)));
    case ToolFailed(callId, error, durationMs) =>
      var call := FindCall(before.toolCalls, callId).value;
      run := before.(toolCalls := WithCall(before.toolCalls, call.(status := CallFailed, error := Some(error), durationMs := durationMs)));
    case RunStarted => run := before.(status := Running);
    case RunCompleted(_) => run := AsTerminal(view, runId, Completed).value;
    case RunFailed(message, code) => run := AsTerminal(view, runId, RunStatus.Failed).value.(failure := Some((message, code)));
    case RunCancelled(why) =>
      var ended := AsTerminal(view, runId, Cancelled).value;
      run := if why.Some? then ended.(cancelReason := why) else ended;
    case _ => run := RunningStores(view, e);
  }

  lemma RunningStores(view: View, e: RunEvent) returns (run: RunSnapshot)
    requires ApplyEvent(view, e).Success?
    requires var b := e.payload.body; b.TokenDelta? || b.RunSteered? || b.ToolRequested? || b.ApprovalRequested?
    ensures run.runId == e.payload.runId && run.status == StatusAfter(RunOrNew(view, e.payload.runId), e.payload.body, run.toolCalls)
    ensures ApplyEvent(view, e).value.runs == WithRun(view, run).runs
  {
    var runId := e.payload.runId;
    RunsWhen(view, runId);
    var running := AsRunning(view, runId).value;
    match e.payload.body
    case ToolRequested(callId, tool, arguments) =>
      run := running.(toolCalls := running.toolCalls + [ToolCall(callId, tool, arguments, Requested, None, None, None, None)]);
    case ApprovalRequested(callId, expiresAt) =>
      var gated := FindCall(running.toolCalls, callId).value.(approval := Some(Approval(Pending, expiresAt, None)));
      run := running.(toolCalls := WithCall(running.toolCalls, gated), status := WaitingApproval);
    case _ => run := running;
  }

  lemma PendingAmong(run: RunSnapshot)
    ensures HasPendingApproval(run) <==> exists c :: c in run.toolCalls && GatePending(c)
  {
    if c :| c in run.toolCalls && GatePending(c) {
      var i :| 0 <= i < |run.toolCalls| && run.toolCalls[i] == c;
      assert GatePending(run.toolCalls[i]);
    }
  }

  /** After an accepted event the run it names has that status, and no other run has changed. */
  lemma StatusIs(view: View, e: RunEvent, runId: string)
    requires ApplyEvent(view, e).Success?
    ensures var before, after := RunOrNew(view, runId), RunOrNew(ApplyEvent(view, e).value, runId);
            if runId == e.payload.runId then after.status == StatusAfter(before, e.payload.body, after.toolCalls) else after == before
  {
    var run := StatusStores(view, e);
    FindRunAfterStore(view, run, runId);
  }
}
