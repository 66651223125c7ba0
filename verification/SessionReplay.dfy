/**
 * The two ends of the event contract together: which streams the offline session delivers
 * (packages/adapters/src/agent-runtime-emulator.ts) the client's reducer accepts
 * (packages/core/src/event-reducer.ts), whatever was steered, decided, stopped or interrupted.
 */
module SessionReplay {
  import opened ByteStreams
  import opened EventFold
  import opened EventReducer
  import opened Session
  import ReducerLaws

  // ---- what an event of a stream collides with ----

  ghost predicate Streamed(es: seq<RunEvent>, id: string) {
    exists e :: e in es && e.payload.body.TokenDelta? && e.payload.body.messageId == id
  }

  ghost predicate SteeredIn(es: seq<RunEvent>, id: string) {
    exists e :: e in es && e.payload.body.RunSteered? && e.payload.body.steerId == id
  }

  ghost predicate CallRequested(es: seq<RunEvent>, callId: string) {
    exists e :: e in es && e.payload.body.ToolRequested? && e.payload.body.callId == callId
  }

  /** A steer naming an earlier message, a delta or a closing naming an earlier steer, or a call
      requested before. */
  ghost predicate Collides(es: seq<RunEvent>, body: Body) {
    match body
    case RunSteered(id, _) => Streamed(es, id) || SteeredIn(es, id)
    case TokenDelta(id, _) => SteeredIn(es, id)
    case RunCompleted(closes) => closes.Some? && SteeredIn(es, closes.value)
    case ToolRequested(callId, _, _) => CallRequested(es, callId)
    case _ => false
  }

  ghost predicate Clean(es: seq<RunEvent>)
    decreases |es|
  {
    es == [] || (Clean(es[..|es| - 1]) && !Collides(es[..|es| - 1], es[|es| - 1].payload.body))
  }

  lemma CleanSnoc(es: seq<RunEvent>, e: RunEvent)
    ensures Clean(es + [e]) <==> Clean(es) && !Collides(es, e.payload.body)
  {
    assert (es + [e])[..|es|] == es;
  }

  lemma SeenSnoc(es: seq<RunEvent>, e: RunEvent, id: string)
    ensures Streamed(es + [e], id) <==> Streamed(es, id) || (e.payload.body.TokenDelta? && e.payload.body.messageId == id)
    ensures SteeredIn(es + [e], id) <==> SteeredIn(es, id) || (e.payload.body.RunSteered? && e.payload.body.steerId == id)
    ensures CallRequested(es + [e], id) <==> CallRequested(es, id) || (e.payload.body.ToolRequested? && e.payload.body.callId == id)
  {
    forall x
      ensures x in es + [e] <==> x in es || x == e
    {
    }
  }

  // ---- the view a clean stream leaves ----

  ghost predicate CallsOk(calls: seq<ToolCall>, es: seq<RunEvent>, open: Option<string>) {
    && (forall c :: c in calls ==> c.approval.None?)
    && (forall id :: FindCall(calls, id).Some? <==> CallRequested(es, id))
    && (open.Some? ==> FindCall(calls, open.value).Some? && FindCall(calls, open.value).value.status == Requested)
  }

  ghost predicate MessagesOk(cfg: Config, messages: seq<MessageSnapshot>, es: seq<RunEvent>) {
    forall id :: var found := FindMessage(messages, cfg.runId, id);
      && (found.Some? <==> Streamed(es, id) || SteeredIn(es, id))
      && (found.Some? ==> (found.value.role == User <==> SteeredIn(es, id)))
  }

  /** What the reducer's view holds of the run while the session is not finished. */
  ghost predicate Tracks(cfg: Config, v: View, es: seq<RunEvent>, open: Option<string>) {
    && FindRun(v.runs, cfg.runId).Some? && FindRun(v.runs, cfg.runId).value.status == Running
    && CallsOk(FindRun(v.runs, cfg.runId).value.toolCalls, es, open)
    && MessagesOk(cfg, v.messages, es)
  }

  /** A view that knows nothing of the run yet, whatever else its thread holds. */
  ghost predicate Unseen(cfg: Config, v: View) {
    FindRun(v.runs, cfg.runId).None? && forall id :: FindMessage(v.messages, cfg.runId, id).None?
  }

  function EventOf(cfg: Config, seqNo: nat, body: Body): RunEvent {
    Event(seqNo, Payload(cfg.threadId, cfg.runId, body))
  }

  lemma {:induction false} FindStored(messages: seq<MessageSnapshot>, m: MessageSnapshot, id: string)
    requires FindMessage(messages, m.runId, m.id).None?
    ensures FindMessage(messages + [m], m.runId, id) == if id == m.id then Some(m) else FindMessage(messages, m.runId, id)
    decreases |messages|
  {
    if messages != [] {
      FindStored(messages[1..], m, id);
      assert (messages + [m])[1..] == messages[1..] + [m];
    }
  }

  lemma {:induction false} FindReplaced(messages: seq<MessageSnapshot>, updated: seq<MessageSnapshot>, m: MessageSnapshot, id: string)
    requires |updated| == |messages|
    requires forall i :: 0 <= i < |messages| ==> updated[i] == if messages[i].runId == m.runId && messages[i].id == m.id then m else messages[i]
    ensures FindMessage(updated, m.runId, id) ==
            if id == m.id && FindMessage(messages, m.runId, id).Some? then Some(m) else FindMessage(messages, m.runId, id)
    decreases |messages|
  {
    if messages != [] {
      FindReplaced(messages[1..], updated[1..], m, id);
    }
  }

  /** Storing a message finds that one under its id, and every other as before. */
  lemma FindAfterStore(v: View, m: MessageSnapshot, id: string)
    ensures FindMessage(WithMessage(v, m).messages, m.runId, id) == if id == m.id then Some(m) else FindMessage(v.messages, m.runId, id)
  {
    if FindMessage(v.messages, m.runId, m.id).Some? {
      FindReplaced(v.messages, WithMessage(v, m).messages, m, id);
    } else {
      FindStored(v.messages, m, id);
    }
  }

  /** The run as the view holds it. */
  function RunIn(cfg: Config, v: View): RunSnapshot
    requires FindRun(v.runs, cfg.runId).Some?
  {
    FindRun(v.runs, cfg.runId).value
  }

  /** Storing the run again, with these calls. */
  lemma OneRun(cfg: Config, v: View, es: seq<RunEvent>, open: Option<string>, run: RunSnapshot)
    requires Tracks(cfg, v, es, open) && run.runId == cfg.runId
    ensures AsRunning(v, cfg.runId) == Some(RunIn(cfg, v)) && RunOrNew(v, cfg.runId) == RunIn(cfg, v)
    ensures FindRun(WithRun(v, run).runs, cfg.runId) == Some(run) && WithRun(v, run).messages == v.messages
    ensures run.status == Running && CallsOk(run.toolCalls, es, open) ==> Tracks(cfg, WithRun(v, run), es, open)
  {
    ReducerLaws.FindRunAfterStore(v, run, run.runId);
  }

  /** An event that brings neither a message nor a call. */
  lemma QuietEvent(cfg: Config, v: View, es: seq<RunEvent>, open: Option<string>, e: RunEvent)
    requires Tracks(cfg, v, es, open)
    requires !e.payload.body.TokenDelta? && !e.payload.body.RunSteered? && !e.payload.body.ToolRequested?
    ensures Tracks(cfg, v, es + [e], open)
  {
    forall id
      ensures Streamed(es + [e], id) == Streamed(es, id) && SteeredIn(es + [e], id) == SteeredIn(es, id) && CallRequested(es + [e], id) == CallRequested(es, id)
    {
      SeenSnoc(es, e, id);
    }
  }

  lemma MessageTracks(cfg: Config, v: View, es: seq<RunEvent>, open: Option<string>, e: RunEvent, m: MessageSnapshot)
    requires Tracks(cfg, v, es, open) && m.runId == cfg.runId
    requires var body := e.payload.body;
             || (body.TokenDelta? && body.messageId == m.id && m.role == Assistant && !SteeredIn(es, m.id))
             || (body.RunSteered? && body.steerId == m.id && m.role == User)
    ensures Tracks(cfg, WithMessage(v, m), es + [e], open)
  {
    forall id
      ensures CallRequested(es + [e], id) == CallRequested(es, id)
    {
      SeenSnoc(es, e, id);
    }
    forall id
      ensures var found := FindMessage(WithMessage(v, m).messages, cfg.runId, id);
              && (found.Some? <==> Streamed(es + [e], id) || SteeredIn(es + [e], id))
              && (found.Some? ==> (found.value.role == User <==> SteeredIn(es + [e], id)))
    {
      SeenSnoc(es, e, id);
      FindAfterStore(v, m, id);
    }
  }

  /** A delta is accepted unless its message was steered. */
  lemma TokenTracks(cfg: Config, v: View, es: seq<RunEvent>, seqNo: nat, id: string, delta: string)
    requires Tracks(cfg, v, es, None)
    ensures var e := EventOf(cfg, seqNo, TokenDelta(id, delta));
            && (ApplyEvent(v, e).Success? <==> !SteeredIn(es, id))
            && (ApplyEvent(v, e).Success? ==> Tracks(cfg, ApplyEvent(v, e).value, es + [e], None))
  {
    var e := EventOf(cfg, seqNo, TokenDelta(id, delta));
    OneRun(cfg, v, es, None, RunIn(cfg, v));
    var found := FindMessage(v.messages, cfg.runId, id);
    assert ApplyEvent(v, e) == ReduceTokenDelta(v, cfg.runId, id, delta);
    if !SteeredIn(es, id) {
      var m := if found.None? then MessageSnapshot(id, cfg.runId, Assistant, delta, false) else found.value.(text := found.value.text + delta);
      MessageTracks(cfg, WithRun(v, RunIn(cfg, v)), es, None, e, m);
    }
  }

  /** A steer is accepted unless its message is there. */
  lemma SteerTracks(cfg: Config, v: View, es: seq<RunEvent>, open: Option<string>, seqNo: nat, id: string, text: string)
    requires Tracks(cfg, v, es, open)
    ensures var e := EventOf(cfg, seqNo, RunSteered(id, text));
            && (ApplyEvent(v, e).Success? <==> !Streamed(es, id) && !SteeredIn(es, id))
            && (ApplyEvent(v, e).Success? ==> Tracks(cfg, ApplyEvent(v, e).value, es + [e], open))
  {
    var e := EventOf(cfg, seqNo, RunSteered(id, text));
    OneRun(cfg, v, es, open, RunIn(cfg, v));
    assert ApplyEvent(v, e) == ReduceSteered(v, cfg.runId, id, text);
    MessageTracks(cfg, WithRun(v, RunIn(cfg, v)), es, open, e, MessageSnapshot(id, cfg.runId, User, text, true));
  }

  /** A request is accepted unless the call was requested before. */
  lemma RequestTracks(cfg: Config, v: View, es: seq<RunEvent>, seqNo: nat, callId: string, tool: string, arguments: Json)
    requires Tracks(cfg, v, es, None)
    ensures var e := EventOf(cfg, seqNo, ToolRequested(callId, tool, arguments));
            && (ApplyEvent(v, e).Success? <==> !CallRequested(es, callId))
            && (ApplyEvent(v, e).Success? ==> Tracks(cfg, ApplyEvent(v, e).value, es + [e], Some(callId)))
  {
    var e := EventOf(cfg, seqNo, ToolRequested(callId, tool, arguments));
    OneRun(cfg, v, es, None, RunIn(cfg, v));
    assert ApplyEvent(v, e) == ReduceToolRequested(v, cfg.runId, callId, tool, arguments);
    if !CallRequested(es, callId) {
      var call := ToolCall(callId, tool, arguments, Requested, None, None, None, None);
      var run := RunIn(cfg, v).(toolCalls := RunIn(cfg, v).toolCalls + [call]);
      OneRun(cfg, v, es, None, run);
      forall id
        ensures FindCall(run.toolCalls, id).Some? <==> CallRequested(es + [e], id)
        ensures Streamed(es + [e], id) == Streamed(es, id) && SteeredIn(es + [e], id) == SteeredIn(es, id)
      {
        SeenSnoc(es, e, id);
        ReducerLaws.FindCallAdded(RunIn(cfg, v).toolCalls, call, id);
      }
      ReducerLaws.FindCallAdded(RunIn(cfg, v).toolCalls, call, callId);
    }
  }

  lemma {:induction false} FindSettled(calls: seq<ToolCall>, updated: seq<ToolCall>, call: ToolCall, id: string)
    requires |updated| == |calls| && forall i :: 0 <= i < |calls| ==> updated[i] == if calls[i].callId == call.callId then call else calls[i]
    ensures FindCall(updated, id).Some? <==> FindCall(calls, id).Some?
    decreases |calls|
  {
    if calls != [] {
      FindSettled(calls[1..], updated[1..], call, id);
    }
  }

  /** The open call settles, whatever came of it. */
  lemma SettleTracks(cfg: Config, v: View, es: seq<RunEvent>, seqNo: nat, callId: string, body: Body)
    requires Tracks(cfg, v, es, Some(callId))
    requires (body.ToolCompleted? && body.callId == callId && body.durationMs.None?) || (body.ToolFailed? && body.callId == callId && body.durationMs.None?)
    ensures var e := EventOf(cfg, seqNo, body); ApplyEvent(v, e).Success? && Tracks(cfg, ApplyEvent(v, e).value, es + [e], None)
  {
    var e := EventOf(cfg, seqNo, body);
    OneRun(cfg, v, es, Some(callId), RunIn(cfg, v));
    var call := FindCall(RunIn(cfg, v).toolCalls, callId).value;
    var settled := if body.ToolCompleted? then call.(status := CallCompleted, result := Some(body.result), durationMs := None)
                   else call.(status := CallFailed, error := Some(body.error), durationMs := None);
    var run := RunIn(cfg, v).(toolCalls := WithCall(RunIn(cfg, v).toolCalls, settled));
    OneRun(cfg, v, es, Some(callId), run);
    assert ApplyEvent(v, e) == Success(WithRun(v, run));
    forall id
      ensures FindCall(run.toolCalls, id).Some? <==> FindCall(RunIn(cfg, v).toolCalls, id).Some?
    {
      FindSettled(RunIn(cfg, v).toolCalls, run.toolCalls, settled, id);
    }
    QuietEvent(cfg, WithRun(v, run), es, None, e);
  }

  /** The event that ends a session is accepted unless it closes a steered message. */
  lemma EndIsAccepted(cfg: Config, v: View, es: seq<RunEvent>, open: Option<string>, seqNo: nat, body: Body)
    requires Tracks(cfg, v, es, open) && TerminalBody(body)
    ensures ApplyEvent(v, EventOf(cfg, seqNo, body)).Success? <==> !Collides(es, body)
  {
    OneRun(cfg, v, es, open, RunIn(cfg, v));
  }

  // ---- along a run ----

  function CallAt(cfg: Config, pc: nat): Option<string> {
    if pc < |cfg.script| && cfg.script[pc].Tool? then Some(cfg.script[pc].callId) else None
  }

  /** The call the script has requested and not yet settled. */
  function OpenCall(cfg: Config, script: ScriptFiber): Option<string> {
    match script
    case Gate(pc) => CallAt(cfg, pc)
    case Awaiting(pc, _) => CallAt(cfg, pc)
    case Decided(pc, _) => CallAt(cfg, pc)
    case Executing(pc) => CallAt(cfg, pc)
    case _ => None
  }

  /** The reducer has accepted the stream if it is clean and refused it if not; and while the
      session goes on, its view of a clean one tracks the script. */
  ghost predicate Replays(cfg: Config, base: View, finished: bool, es: seq<RunEvent>, script: ScriptFiber) {
    && (Replay(ApplyEvent, base, es).Success? <==> Clean(es))
    && (!finished ==> !script.Over?)
    && (!finished && Clean(es) ==> Tracks(cfg, Replay(ApplyEvent, base, es).value, es, OpenCall(cfg, script)))
  }

  ghost predicate Follows(cfg: Config, base: View, s: State) {
    Replays(cfg, base, s.finished, s.delivered, s.script)
  }

  lemma ReplaySnoc(base: View, es: seq<RunEvent>, e: RunEvent)
    ensures Replay(ApplyEvent, base, es + [e]) ==
            match Replay(ApplyEvent, base, es) { case Failure(error) => Failure(error) case Success(v) => ApplyEvent(v, e) }
  {
  }

  lemma StartIsAccepted(cfg: Config, base: View)
    requires Unseen(cfg, base)
    ensures var e, run := EventOf(cfg, cfg.startSeq, RunStarted), RunSnapshot(cfg.runId, Running, [], None, None);
            && ApplyEvent(base, e) == Success(WithRun(base, run))
            && Tracks(cfg, WithRun(base, run), [e], None)
  {
    var e, run := EventOf(cfg, cfg.startSeq, RunStarted), RunSnapshot(cfg.runId, Running, [], None, None);
    assert RunOrNew(base, cfg.runId) == run.(status := Queued);
    ReducerLaws.FindRunAfterStore(base, run, run.runId);
    forall id
      ensures !Streamed([e], id) && !SteeredIn([e], id) && !CallRequested([e], id)
    {
      assert [] + [e] == [e];
      SeenSnoc([], e, id);
    }
  }

  lemma InitFollows(cfg: Config, base: View)
    requires Unseen(cfg, base)
    ensures Follows(cfg, base, Init(cfg))
  {
    var e := EventOf(cfg, cfg.startSeq, RunStarted);
    assert Init(cfg).delivered == [] + [e];
    ReplaySnoc(base, [], e);
    CleanSnoc([], e);
    StartIsAccepted(cfg, base);
  }

  /** One event more while the session goes on. */
  lemma EmitFollows(cfg: Config, base: View, s: State, body: Body, script: ScriptFiber)
    requires Follows(cfg, base, s) && !s.finished && !script.Over?
    requires Clean(s.delivered) ==>
               var v, e := Replay(ApplyEvent, base, s.delivered).value, EventOf(cfg, s.nextSeq, body);
               && (ApplyEvent(v, e).Success? <==> !Collides(s.delivered, body))
               && (ApplyEvent(v, e).Success? ==> Tracks(cfg, ApplyEvent(v, e).value, s.delivered + [e], OpenCall(cfg, script)))
    ensures Replays(cfg, base, false, Emit(cfg, s, body).delivered, script)
  {
    var e := EventOf(cfg, s.nextSeq, body);
    ReplaySnoc(base, s.delivered, e);
    CleanSnoc(s.delivered, e);
  }

  lemma FinishFollows(cfg: Config, base: View, s: State, body: Body)
    requires Follows(cfg, base, s) && TerminalBody(body)
    ensures Replays(cfg, base, true, Finish(cfg, s, body).delivered, Over)
  {
    if !s.finished {
      var e := EventOf(cfg, s.nextSeq, body);
      ReplaySnoc(base, s.delivered, e);
      CleanSnoc(s.delivered, e);
      if Clean(s.delivered) {
        EndIsAccepted(cfg, Replay(ApplyEvent, base, s.delivered).value, s.delivered, OpenCall(cfg, s.script), s.nextSeq, body);
      }
    }
  }

  lemma TokenFollows(cfg: Config, base: View, s: State, pc: nat)
    requires Follows(cfg, base, s) && s.script == At(pc) && pc < |cfg.script| && cfg.script[pc].Token?
    ensures Follows(cfg, base, BeginStep(cfg, s, pc).value)
  {
    var id, delta := cfg.script[pc].messageId, cfg.script[pc].delta;
    if !s.finished {
      if Clean(s.delivered) {
        TokenTracks(cfg, Replay(ApplyEvent, base, s.delivered).value, s.delivered, s.nextSeq, id, delta);
      }
      EmitFollows(cfg, base, s, TokenDelta(id, delta), At(pc + 1));
    }
  }

  lemma RequestFollows(cfg: Config, base: View, s: State, step: ScriptStep, script: ScriptFiber)
    requires Follows(cfg, base, s) && !s.finished && s.script.At? && step.Tool? && !script.Over? && OpenCall(cfg, script) == Some(step.callId)
    ensures Replays(cfg, base, false, Emit(cfg, s, ToolRequested(step.callId, step.tool, step.arguments)).delivered, script)
  {
    if Clean(s.delivered) {
      RequestTracks(cfg, Replay(ApplyEvent, base, s.delivered).value, s.delivered, s.nextSeq, step.callId, step.tool, step.arguments);
    }
    EmitFollows(cfg, base, s, ToolRequested(step.callId, step.tool, step.arguments), script);
  }

  lemma BeginFollows(cfg: Config, base: View, s: State, pc: nat)
    requires Follows(cfg, base, s) && s.script == At(pc) && BeginStep(cfg, s, pc).Some?
    ensures Follows(cfg, base, BeginStep(cfg, s, pc).value)
  {
    if pc < |cfg.script| {
      match cfg.script[pc]
      case Token(_, _) => TokenFollows(cfg, base, s, pc);
      case Tool(_, _, _, _, gated) =>
        if !s.finished {
          RequestFollows(cfg, base, s, cfg.script[pc], if gated then Gate(pc) else Executing(pc));
        }
      case Complete(closes) => FinishFollows(cfg, base, s, RunCompleted(closes));
      case Fail(error, code) => FinishFollows(cfg, base, s, RunFailed(error, code));
      case _ =>
    }
  }

  /** The call the script is at settles, one way or the other, and the script moves on. */
  lemma SettleFollows(cfg: Config, base: View, s: State, pc: nat, body: Body)
    requires Follows(cfg, base, s) && !s.finished && CallAt(cfg, pc).Some? && OpenCall(cfg, s.script) == CallAt(cfg, pc)
    requires || (body.ToolCompleted? && body.callId == cfg.script[pc].callId && body.durationMs.None?)
             || (body.ToolFailed? && body.callId == cfg.script[pc].callId && body.durationMs.None?)
    ensures Replays(cfg, base, false, Emit(cfg, s, body).delivered, At(pc + 1))
  {
    if Clean(s.delivered) {
      SettleTracks(cfg, Replay(ApplyEvent, base, s.delivered).value, s.delivered, s.nextSeq, cfg.script[pc].callId, body);
    }
    EmitFollows(cfg, base, s, body, At(pc + 1));
  }

  lemma ExecuteFollows(cfg: Config, base: View, s: State, pc: nat, dispatch: Dispatch)
    requires Follows(cfg, base, s) && s.script == Executing(pc) && pc < |cfg.script| && cfg.script[pc].Tool?
    ensures Follows(cfg, base, Execute(cfg, s, pc, cfg.script[pc].callId, cfg.script[pc].result, dispatch))
  {
    var callId, result := cfg.script[pc].callId, cfg.script[pc].result;
    if !s.finished {
      if !cfg.hasTools {
        if result.Some? {
          SettleFollows(cfg, base, s, pc, ToolCompleted(callId, result.value, None));
        }
      } else {
        match dispatch
        case Done(r) => SettleFollows(cfg, base, s, pc, ToolCompleted(callId, r, None));
        case Errored(error) => SettleFollows(cfg, base, s, pc, ToolFailed(callId, error, None));
        case UnknownTool(message) => SettleFollows(cfg, base, s, pc, ToolFailed(callId, message, None));
        case Broken =>
      }
    }
  }

  lemma DenyFollows(cfg: Config, base: View, s: State, pc: nat, reason: Option<string>, dispatch: Dispatch)
    requires Follows(cfg, base, s) && s.script == Decided(pc, Deny(reason)) && AdvanceScript(cfg, s, dispatch).Some?
    ensures Follows(cfg, base, AdvanceScript(cfg, s, dispatch).value)
  {
    if !s.finished {
      SettleFollows(cfg, base, s, pc, ToolFailed(cfg.script[pc].callId, if reason.Some? then reason.value else DENIED, None));
    }
  }

  /** A move within a gate: nothing is delivered and the open call stays the same. */
  lemma GateFollows(cfg: Config, base: View, s: State, t: State)
    requires Follows(cfg, base, s) && t.finished == s.finished && t.delivered == s.delivered && !t.script.Over?
    requires OpenCall(cfg, t.script) == OpenCall(cfg, s.script)
    ensures Follows(cfg, base, t)
  {
  }

  lemma WaitFollows(cfg: Config, base: View, s: State, dispatch: Dispatch)
    requires Follows(cfg, base, s) && AdvanceScript(cfg, s, dispatch).Some?
    requires s.script.Gate? || s.script.Awaiting? || (s.script.Decided? && s.script.outcome == Approve)
    ensures Follows(cfg, base, AdvanceScript(cfg, s, dispatch).value)
  {
    match s.script
    case Gate(pc) => GateFollows(cfg, base, s, RegisterGate(s, pc, cfg.script[pc].callId));
    case Awaiting(pc, d) => GateFollows(cfg, base, s, Resolve(Withdraw(cfg, s), pc, cfg.script[pc].callId, s.deferreds[d].value));
    case Decided(pc, _) => GateFollows(cfg, base, s, s.(script := Executing(pc)));
  }

  lemma AdvanceFollows(cfg: Config, base: View, s: State, dispatch: Dispatch)
    requires Follows(cfg, base, s) && AdvanceScript(cfg, s, dispatch).Some?
    ensures Follows(cfg, base, AdvanceScript(cfg, s, dispatch).value)
  {
    match s.script
    case At(pc) => BeginFollows(cfg, base, s, pc);
    case Executing(pc) => ExecuteFollows(cfg, base, s, pc, dispatch);
    case Decided(pc, Deny(reason)) => DenyFollows(cfg, base, s, pc, reason, dispatch);
    case _ => WaitFollows(cfg, base, s, dispatch);
  }

  lemma InterruptFollows(cfg: Config, base: View, s: State)
    requires Follows(cfg, base, s)
    ensures Follows(cfg, base, InterruptScript(cfg, s))
  {
    if !s.script.Over? {
      assert Follows(cfg, base, Withdraw(cfg, s));
      FinishFollows(cfg, base, Withdraw(cfg, s), RunCancelled(Some("interrupted")));
    }
  }

  lemma SteerFollows(cfg: Config, base: View, s: State, id: string, text: string)
    requires Follows(cfg, base, s)
    ensures Follows(cfg, base, TakeCommand(cfg, s, Steer(id, text)))
  {
    if !s.finished {
      if Clean(s.delivered) {
        SteerTracks(cfg, Replay(ApplyEvent, base, s.delivered).value, s.delivered, OpenCall(cfg, s.script), s.nextSeq, id, text);
      }
      EmitFollows(cfg, base, s, RunSteered(id, text), s.script);
    }
  }

  lemma StopFollows(cfg: Config, base: View, s: State, reason: Option<string>)
    requires Follows(cfg, base, s)
    ensures Follows(cfg, base, TakeCommand(cfg, s, Stop(reason)))
  {
    FinishFollows(cfg, base, s, RunCancelled(Some(if reason.Some? then reason.value else "stop")));
  }

  lemma ActFollows(cfg: Config, base: View, s: State, a: Action)
    requires Follows(cfg, base, s) && Act(cfg, s, a).Some?
    ensures Follows(cfg, base, Act(cfg, s, a).value)
  {
    match a
    case Advance(dispatch) => AdvanceFollows(cfg, base, s, dispatch);
    case Take(Stop(reason)) => StopFollows(cfg, base, s, reason);
    case Take(Steer(id, text)) => SteerFollows(cfg, base, s, id, text);
    case Take(Decide(_, _)) =>
    case Continue =>
      if s.commands.Interrupting? {
        InterruptFollows(cfg, base, s);
      }
    case CloseScope => InterruptFollows(cfg, base, s);
  }

  lemma {:induction false} RunFollows(cfg: Config, base: View, run: seq<Action>)
    requires Unseen(cfg, base) && Reached(cfg, run).Some?
    ensures Follows(cfg, base, Reached(cfg, run).value)
    decreases |run|
  {
    if run == [] {
      InitFollows(cfg, base);
    } else {
      var init, a := run[..|run| - 1], run[|run| - 1];
      RunFollows(cfg, base, init);
      ActFollows(cfg, base, Reached(cfg, init).value, a);
    }
  }

  // ---- the streams a client accepts ----

  /** The stream as it reaches a client. */
  function Sent(isInstant: string -> bool, es: seq<RunEvent>): seq<Wire> {
    seq(|es|, i requires 0 <= i < |es| => WireOf(isInstant, es[i]))
  }

  /** A client of the thread that holds `base` and everything before the run. */
  function Client(cfg: Config, base: View): ThreadSnapshot {
    ThreadSnapshot(cfg.threadId, Cursor(base, if cfg.startSeq > 0 then cfg.startSeq - 1 else 0, []))
  }

  /** What such a client makes of a stream. */
  function ClientAfter(isInstant: string -> bool, cfg: Config, base: View, es: seq<RunEvent>): Result<ThreadSnapshot, RunEventError> {
    ReduceRunEvents(Client(cfg, base), Sent(isInstant, es))
  }

  /** Every event of the stream is one the wire format can carry. */
  ghost predicate Carried(isInstant: string -> bool, es: seq<RunEvent>) {
    forall e :: e in es ==> Parses(isInstant, e)
  }

  lemma {:induction false} UnparseableFails(snapshot: ThreadSnapshot, values: seq<Wire>)
    requires Unparseable in values
    ensures ReduceRunEvents(snapshot, values).Failure?
    decreases |values|
  {
    var next := ReduceRunEvent(snapshot, values[0]);
    if next.Success? {
      assert values == [values[0]] + values[1..];
      UnparseableFails(next.value, values[1..]);
    }
  }

  lemma UncarriedFails(isInstant: string -> bool, cfg: Config, base: View, es: seq<RunEvent>)
    requires !Carried(isInstant, es)
    ensures ClientAfter(isInstant, cfg, base, es).Failure?
  {
    var e :| e in es && !Parses(isInstant, e);
    var i :| 0 <= i < |es| && es[i] == e;
    assert Sent(isInstant, es)[i] == Unparseable;
    UnparseableFails(Client(cfg, base), Sent(isInstant, es));
  }

  /** A stream that can be carried is of the client's thread, and next in it. */
  lemma CarriedIsNext(isInstant: string -> bool, cfg: Config, run: seq<Action>, s: State)
    requires Reached(cfg, run) == Some(s) && Carried(isInstant, s.delivered)
    ensures cfg.startSeq > 0 && OfThread(cfg.threadId, Sent(isInstant, s.delivered)) && Events(Sent(isInstant, s.delivered)) == s.delivered
    ensures forall i :: 0 <= i < |s.delivered| ==> s.delivered[i].seqNo == cfg.startSeq + i
  {
    EveryStreamIsWellShaped(cfg, run);
    var es := s.delivered;
    assert forall i :: 0 <= i < |es| ==> es[i] in es && Parses(isInstant, es[i]);
    assert Parses(isInstant, es[0]);
  }

  lemma CarriedIsReplay(isInstant: string -> bool, cfg: Config, base: View, run: seq<Action>, s: State)
    requires Reached(cfg, run) == Some(s) && Carried(isInstant, s.delivered)
    ensures cfg.startSeq > 0 && ClientAfter(isInstant, cfg, base, s.delivered) == Replayed(cfg.threadId, base, cfg.startSeq - 1, s.delivered)
  {
    CarriedIsNext(isInstant, cfg, run, s);
    NextIsReplay(cfg.threadId, base, cfg.startSeq - 1, Sent(isInstant, s.delivered));
  }

  /** Over every interleaving of script, commands and interruption, and for every client that has
      not seen the run, whatever else it holds: it accepts the delivered stream, whole and with
      nothing held back, exactly when the stream is clean and every event of it parses. While the
      session goes on, what it then holds tracks the session. */
  lemma {:induction false} SessionReplaysWhen(isInstant: string -> bool, cfg: Config, base: View, run: seq<Action>, s: State)
    requires Unseen(cfg, base) && Reached(cfg, run) == Some(s)
    ensures var r := ClientAfter(isInstant, cfg, base, s.delivered);
            && (r.Success? <==> Clean(s.delivered) && Carried(isInstant, s.delivered))
            && (r.Success? ==> r.value.cursor.lastSeq == cfg.startSeq - 1 + |s.delivered| && r.value.cursor.pending == [])
            && (r.Success? && !s.finished ==> Tracks(cfg, r.value.cursor.view, s.delivered, OpenCall(cfg, s.script)))
  {
    RunFollows(cfg, base, run);
    if Carried(isInstant, s.delivered) {
      CarriedIsReplay(isInstant, cfg, base, run, s);
    } else {
      UncarriedFails(isInstant, cfg, base, s.delivered);
    }
  }
}
