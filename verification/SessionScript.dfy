/**
 * The session's stream against its script read one step after the other
 * (packages/adapters/src/agent-runtime-emulator.ts:377-462): however the two fibers interleave, and
 * wherever a stop or an interruption falls, what is delivered is the script's own sequence of
 * events, with nothing but steers between them.
 */
module SessionScript {
  import opened ByteStreams
  import opened EventFold
  import opened EventReducer
  import opened Session

  // ---- the script by itself ----

  /** What a tool's answer is reported as. */
  function Report(callId: string, answer: Dispatch): Option<Body> {
    match answer
    case Done(result) => Some(ToolCompleted(callId, result, None))
    case Errored(error) => Some(ToolFailed(callId, error, None))
    case UnknownTool(message) => Some(ToolFailed(callId, message, None))
    case Broken => None
  }

  /** How a call that goes ahead is settled: by the last of the tools' answers, or by the script's own
      result when there are no tools. */
  predicate Executed(cfg: Config, step: ScriptStep, settled: Body, answers: seq<Dispatch>)
    requires step.Tool?
  {
    if cfg.hasTools then answers != [] && Report(step.callId, answers[|answers| - 1]) == Some(settled)
    else step.result.Some? && settled == ToolCompleted(step.callId, step.result.value, None)
  }

  /** The answers before that one. */
  function Before(cfg: Config, answers: seq<Dispatch>): seq<Dispatch> {
    if cfg.hasTools && answers != [] then answers[..|answers| - 1] else answers
  }

  function Denial(callId: string, reason: Option<string>): Body {
    ToolFailed(callId, if reason.Some? then reason.value else "the operator denied this tool call", None)
  }

  /** `bodies` is what the steps before `pc` amount to, taken one after the other, when the gates
      resolve and the tools answer as listed. */
  predicate Plays(cfg: Config, pc: nat, bodies: seq<Body>, gates: seq<(string, Outcome)>, answers: seq<Dispatch>)
    decreases pc
  {
    if pc == 0 then bodies == [RunStarted] && gates == [] && answers == []
    else if pc > |cfg.script| then false
    else
      match cfg.script[pc - 1]
      case Token(messageId, delta) =>
        bodies != [] && bodies[|bodies| - 1] == TokenDelta(messageId, delta) && Plays(cfg, pc - 1, bodies[..|bodies| - 1], gates, answers)
      case Tool(callId, tool, arguments, _, gated) =>
        && |bodies| >= 2 && bodies[|bodies| - 2] == ToolRequested(callId, tool, arguments)
        && var before, settled := bodies[..|bodies| - 2], bodies[|bodies| - 1];
           if !gated then
             Executed(cfg, cfg.script[pc - 1], settled, answers) && Plays(cfg, pc - 1, before, gates, Before(cfg, answers))
           else
             && gates != [] && gates[|gates| - 1].0 == callId
             && if gates[|gates| - 1].1.Deny? then
                  settled == Denial(callId, gates[|gates| - 1].1.reason) && Plays(cfg, pc - 1, before, gates[..|gates| - 1], answers)
                else
                  Executed(cfg, cfg.script[pc - 1], settled, answers) && Plays(cfg, pc - 1, before, gates[..|gates| - 1], Before(cfg, answers))
      case Complete(_) => false
      case Fail(_, _) => false
      case _ => Plays(cfg, pc - 1, bodies, gates, answers)
  }

  /** The same, and then the request of the call at `pc`. */
  predicate Requested(cfg: Config, pc: nat, bodies: seq<Body>, gates: seq<(string, Outcome)>, answers: seq<Dispatch>) {
    && pc < |cfg.script| && cfg.script[pc].Tool? && bodies != []
    && bodies[|bodies| - 1] == ToolRequested(cfg.script[pc].callId, cfg.script[pc].tool, cfg.script[pc].arguments)
    && Plays(cfg, pc, bodies[..|bodies| - 1], gates, answers)
  }

  // ---- the stream against it ----

  /** The bodies delivered, without the steers. */
  function Plain(es: seq<RunEvent>): seq<Body> {
    if es == [] then []
    else
      var last := es[|es| - 1].payload.body;
      Plain(es[..|es| - 1]) + if last.RunSteered? then [] else [last]
  }

  lemma PlainSnoc(es: seq<RunEvent>, e: RunEvent)
    ensures Plain(es + [e]) == Plain(es) + if e.payload.body.RunSteered? then [] else [e.payload.body]
  {
    assert (es + [e])[..|es|] == es;
  }

  /** Where the script stands, after these bodies. */
  ghost predicate StandsWith(cfg: Config, s: State, bodies: seq<Body>) {
    match s.script
    case At(pc) => Plays(cfg, pc, bodies, s.gates, s.answers)
    case Gate(pc) => Requested(cfg, pc, bodies, s.gates, s.answers) && cfg.script[pc].gated
    case Awaiting(pc, _) => Requested(cfg, pc, bodies, s.gates, s.answers) && cfg.script[pc].gated
    case Decided(pc, outcome) => JustResolved(cfg, pc, bodies, s.gates, s.answers, outcome)
    case Executing(pc) =>
      || (Requested(cfg, pc, bodies, s.gates, s.answers) && !cfg.script[pc].gated)
      || JustResolved(cfg, pc, bodies, s.gates, s.answers, Approve)
    case Over => false
  }

  /** While the session goes on: after those delivered. */
  ghost predicate Stands(cfg: Config, s: State) {
    StandsWith(cfg, s, Plain(s.delivered))
  }

  ghost predicate JustResolved(cfg: Config, pc: nat, bodies: seq<Body>, gates: seq<(string, Outcome)>, answers: seq<Dispatch>, outcome: Outcome) {
    && gates != [] && Requested(cfg, pc, bodies, gates[..|gates| - 1], answers)
    && cfg.script[pc].gated && gates[|gates| - 1] == (cfg.script[pc].callId, outcome)
  }

  /** How the script's part of a finished stream ends: a completion or a failure where the script
      has that step; anything else in its midst. A stream that fails instead of ending has come to
      the end of a script without such a step, or to a call that nothing answers for. */
  ghost predicate Closed(cfg: Config, pc: nat, bodies: seq<Body>, failed: bool, gates: seq<(string, Outcome)>, answers: seq<Dispatch>) {
    if failed then
      || (Plays(cfg, pc, bodies, gates, answers) && pc >= |cfg.script|)
      || (Requested(cfg, pc, bodies, gates, answers) && (cfg.hasTools || cfg.script[pc].result.None?))
    else
      && bodies != []
      && var before := bodies[..|bodies| - 1];
         match bodies[|bodies| - 1]
         case RunCompleted(closes) => pc < |cfg.script| && cfg.script[pc] == Complete(closes) && Plays(cfg, pc, before, gates, answers)
         case RunFailed(error, code) => pc < |cfg.script| && cfg.script[pc] == Fail(error, code) && Plays(cfg, pc, before, gates, answers)
         case RunCancelled(_) => Plays(cfg, pc, before, gates, answers) || Requested(cfg, pc, before, gates, answers)
         case _ => false
  }

  /** The gates and answers of a finished stream are those up to its end. */
  ghost predicate Ended(cfg: Config, s: State) {
    exists pc, gates, answers :: gates <= s.gates && answers <= s.answers && Closed(cfg, pc, Plain(s.delivered), s.failed, gates, answers)
  }

  ghost predicate Followed(cfg: Config, s: State) {
    if s.finished then Ended(cfg, s) else Stands(cfg, s) && !s.failed
  }

  // ---- along a run ----

  ghost predicate SameHistory(s: State, t: State) {
    t.gates == s.gates && t.answers == s.answers && t.heard == s.heard && t.resolved == s.resolved
  }

  lemma EmitLeavesHistory(cfg: Config, s: State, b: Body)
    ensures SameHistory(s, Emit(cfg, s, b))
  {
  }

  lemma FinishLeavesHistory(cfg: Config, s: State, b: Body)
    ensures SameHistory(s, Finish(cfg, s, b))
  {
  }

  lemma BeginLeavesHistory(cfg: Config, s: State, pc: nat)
    requires BeginStep(cfg, s, pc).Some?
    ensures SameHistory(s, BeginStep(cfg, s, pc).value)
  {
    if pc < |cfg.script| {
      match cfg.script[pc]
      case Token(messageId, delta) => EmitLeavesHistory(cfg, s, TokenDelta(messageId, delta));
      case Tool(callId, tool, arguments, _, _) => EmitLeavesHistory(cfg, s, ToolRequested(callId, tool, arguments));
      case Complete(closes) => FinishLeavesHistory(cfg, s, RunCompleted(closes));
      case Fail(error, code) => FinishLeavesHistory(cfg, s, RunFailed(error, code));
      case _ =>
    }
  }

  lemma ExecuteHistory(cfg: Config, s: State, pc: nat, callId: string, result: Option<Json>, dispatch: Dispatch)
    ensures var t := Execute(cfg, s, pc, callId, result, dispatch);
            && t.gates == s.gates && t.heard == s.heard && t.resolved == s.resolved
            && t.answers == if cfg.hasTools && !dispatch.Broken? then s.answers + [dispatch] else s.answers
  {
  }

  /** Only a gate that resolves adds to the gates, with what it resolves with. */
  ghost predicate GatesGrow(s: State, t: State) {
    && t.heard == s.heard && s.answers <= t.answers
    && (t.gates == s.gates
        || (|t.gates| == |s.gates| + 1 && s.gates == t.gates[..|s.gates|] && t.gates[|s.gates|].0 in t.resolved
            && t.resolved[t.gates[|s.gates|].0] == t.gates[|s.gates|].1))
  }

  lemma AdvanceHistory(cfg: Config, s: State, dispatch: Dispatch)
    requires AdvanceScript(cfg, s, dispatch).Some?
    ensures GatesGrow(s, AdvanceScript(cfg, s, dispatch).value)
  {
    match s.script
    case At(pc) => BeginLeavesHistory(cfg, s, pc);
    case Executing(pc) => ExecuteHistory(cfg, s, pc, cfg.script[pc].callId, cfg.script[pc].result, dispatch);
    case _ =>
  }

  lemma InterruptLeavesHistory(cfg: Config, s: State)
    ensures var t := InterruptScript(cfg, s); t.gates == s.gates && t.answers == s.answers && t.heard == s.heard && t.resolved == s.resolved
  {
  }

  lemma FinishedStaysFollowed(cfg: Config, s: State, t: State)
    requires Followed(cfg, s) && s.finished && t.finished && t.delivered == s.delivered && t.failed == s.failed
    requires s.gates <= t.gates && s.answers <= t.answers
    ensures Followed(cfg, t)
  {
    var pc, gates, answers :| gates <= s.gates && answers <= s.answers && Closed(cfg, pc, Plain(s.delivered), s.failed, gates, answers);
    assert gates <= t.gates && answers <= t.answers;
  }

  /** Wherever the script stands, the stream is one a cancellation can close. */
  lemma StandsSomewhere(cfg: Config, s: State) returns (pc: nat, gates: seq<(string, Outcome)>)
    requires Stands(cfg, s)
    ensures gates <= s.gates && (Plays(cfg, pc, Plain(s.delivered), gates, s.answers) || Requested(cfg, pc, Plain(s.delivered), gates, s.answers))
  {
    gates := s.gates;
    match s.script
    case At(at) => pc := at;
    case Gate(at) => pc := at;
    case Awaiting(at, _) => pc := at;
    case Decided(at, _) => pc, gates := at, s.gates[..|s.gates| - 1];
    case Executing(at) =>
      pc := at;
      if !Requested(cfg, pc, Plain(s.delivered), s.gates, s.answers) {
        gates := s.gates[..|s.gates| - 1];
      }
  }

  lemma CancelCloses(cfg: Config, pc: nat, bodies: seq<Body>, gates: seq<(string, Outcome)>, answers: seq<Dispatch>, why: Option<string>)
    requires Plays(cfg, pc, bodies, gates, answers) || Requested(cfg, pc, bodies, gates, answers)
    ensures Closed(cfg, pc, bodies + [RunCancelled(why)], false, gates, answers)
  {
    assert (bodies + [RunCancelled(why)])[..|bodies|] == bodies;
  }

  lemma CancelFollows(cfg: Config, s: State, why: Option<string>, t: State)
    requires Followed(cfg, s) && t.gates == s.gates && t.answers == s.answers
    requires StreamOf(t) == StreamOf(Finish(cfg, s, RunCancelled(why)))
    ensures Followed(cfg, t)
  {
    if s.finished {
      FinishedStaysFollowed(cfg, s, t);
    } else {
      var pc, gates := StandsSomewhere(cfg, s);
      PlainSnoc(s.delivered, Event(s.nextSeq, Payload(cfg.threadId, cfg.runId, RunCancelled(why))));
      CancelCloses(cfg, pc, Plain(s.delivered), gates, s.answers, why);
    }
  }

  /** The event after which the script is at another step. */
  lemma EmitFollows(cfg: Config, s: State, body: Body, t: State)
    requires Followed(cfg, s) && !TerminalBody(body) && StreamOf(t) == StreamOf(Emit(cfg, s, body))
    requires s.gates <= t.gates && s.answers <= t.answers
    requires !s.finished ==> StandsWith(cfg, t, Plain(s.delivered) + if body.RunSteered? then [] else [body])
    ensures Followed(cfg, t)
  {
    if s.finished {
      FinishedStaysFollowed(cfg, s, t);
    } else {
      PlainSnoc(s.delivered, Event(s.nextSeq, Payload(cfg.threadId, cfg.runId, body)));
      assert StandsWith(cfg, t, Plain(t.delivered));
    }
  }

  /** Nothing is delivered, and the script is where `t` says. */
  lemma SilentFollows(cfg: Config, s: State, t: State)
    requires Followed(cfg, s) && StreamOf(t) == StreamOf(s) && s.gates <= t.gates && s.answers <= t.answers
    requires !s.finished ==> StandsWith(cfg, t, Plain(s.delivered))
    ensures Followed(cfg, t)
  {
    if s.finished {
      FinishedStaysFollowed(cfg, s, t);
    }
  }

  lemma DieFollows(cfg: Config, s: State, t: State, pc: nat, gates: seq<(string, Outcome)>)
    requires Followed(cfg, s) && StreamOf(t) == StreamOf(Die(s)) && t.gates == s.gates && t.answers == s.answers
    requires !s.finished ==> gates <= s.gates && Closed(cfg, pc, Plain(s.delivered), true, gates, s.answers)
    ensures Followed(cfg, t)
  {
    if s.finished {
      FinishedStaysFollowed(cfg, s, t);
    }
  }

  lemma EndCloses(cfg: Config, pc: nat, bodies: seq<Body>, gates: seq<(string, Outcome)>, answers: seq<Dispatch>, body: Body)
    requires Plays(cfg, pc, bodies, gates, answers) && pc < |cfg.script|
    requires (body.RunCompleted? && cfg.script[pc] == Complete(body.closes)) || (body.RunFailed? && cfg.script[pc] == Fail(body.message, body.code))
    ensures Closed(cfg, pc, bodies + [body], false, gates, answers)
  {
    assert (bodies + [body])[..|bodies|] == bodies;
  }

  lemma EndFollows(cfg: Config, s: State, pc: nat, body: Body, t: State)
    requires Followed(cfg, s) && s.script == At(pc) && pc < |cfg.script|
    requires (body.RunCompleted? && cfg.script[pc] == Complete(body.closes)) || (body.RunFailed? && cfg.script[pc] == Fail(body.message, body.code))
    requires StreamOf(t) == StreamOf(Finish(cfg, s, body)) && t.gates == s.gates && t.answers == s.answers
    ensures Followed(cfg, t)
  {
    if s.finished {
      FinishedStaysFollowed(cfg, s, t);
    } else {
      PlainSnoc(s.delivered, Event(s.nextSeq, Payload(cfg.threadId, cfg.runId, body)));
      EndCloses(cfg, pc, Plain(s.delivered), s.gates, s.answers, body);
    }
  }

  lemma TokenFollows(cfg: Config, s: State, pc: nat)
    requires Followed(cfg, s) && s.script == At(pc) && pc < |cfg.script| && cfg.script[pc].Token?
    ensures Followed(cfg, BeginStep(cfg, s, pc).value)
  {
    var body := TokenDelta(cfg.script[pc].messageId, cfg.script[pc].delta);
    var t, bodies := BeginStep(cfg, s, pc).value, Plain(s.delivered) + [body];
    assert bodies[..|bodies| - 1] == Plain(s.delivered);
    EmitFollows(cfg, s, body, t);
  }

  lemma RequestFollows(cfg: Config, s: State, pc: nat)
    requires Followed(cfg, s) && s.script == At(pc) && pc < |cfg.script| && cfg.script[pc].Tool?
    ensures Followed(cfg, BeginStep(cfg, s, pc).value)
  {
    var step := cfg.script[pc];
    var body := ToolRequested(step.callId, step.tool, step.arguments);
    var t, bodies := BeginStep(cfg, s, pc).value, Plain(s.delivered) + [body];
    assert bodies[..|bodies| - 1] == Plain(s.delivered);
    assert !s.finished ==> Requested(cfg, pc, bodies, s.gates, s.answers);
    EmitFollows(cfg, s, body, t);
  }

  lemma BeginFollows(cfg: Config, s: State, pc: nat)
    requires Followed(cfg, s) && s.script == At(pc) && BeginStep(cfg, s, pc).Some?
    ensures Followed(cfg, BeginStep(cfg, s, pc).value)
  {
    var t := BeginStep(cfg, s, pc).value;
    BeginLeavesHistory(cfg, s, pc);
    if pc >= |cfg.script| {
      DieFollows(cfg, s, t, pc, s.gates);
    } else {
      match cfg.script[pc]
      case Token(_, _) => TokenFollows(cfg, s, pc);
      case Tool(_, _, _, _, _) => RequestFollows(cfg, s, pc);
      case Complete(closes) => EndFollows(cfg, s, pc, RunCompleted(closes), t);
      case Fail(error, code) => EndFollows(cfg, s, pc, RunFailed(error, code), t);
      case _ => SilentFollows(cfg, s, t);
    }
  }

  /** A call that was requested and goes ahead is settled, and the script is past it. */
  lemma ExecutedPlays(cfg: Config, pc: nat, bodies: seq<Body>, gates: seq<(string, Outcome)>, answers: seq<Dispatch>, settled: Body)
    requires || (Requested(cfg, pc, bodies, gates, Before(cfg, answers)) && !cfg.script[pc].gated)
             || JustResolved(cfg, pc, bodies, gates, Before(cfg, answers), Approve)
    requires Executed(cfg, cfg.script[pc], settled, answers)
    ensures Plays(cfg, pc + 1, bodies + [settled], gates, answers)
  {
    var after := bodies + [settled];
    assert after[|after| - 2] == bodies[|bodies| - 1] && after[..|after| - 2] == bodies[..|bodies| - 1];
  }

  lemma DeniedPlays(cfg: Config, pc: nat, bodies: seq<Body>, gates: seq<(string, Outcome)>, answers: seq<Dispatch>, reason: Option<string>)
    requires JustResolved(cfg, pc, bodies, gates, answers, Deny(reason))
    ensures Plays(cfg, pc + 1, bodies + [Denial(cfg.script[pc].callId, reason)], gates, answers)
  {
    var after := bodies + [Denial(cfg.script[pc].callId, reason)];
    assert after[|after| - 2] == bodies[|bodies| - 1] && after[..|after| - 2] == bodies[..|bodies| - 1];
  }

  /** A call nothing answers for ends the stream. */
  lemma UnansweredFollows(cfg: Config, s: State, pc: nat, dispatch: Dispatch)
    requires Followed(cfg, s) && s.script == Executing(pc) && pc < |cfg.script| && cfg.script[pc].Tool?
    requires if cfg.hasTools then dispatch.Broken? else cfg.script[pc].result.None?
    ensures Followed(cfg, Execute(cfg, s, pc, cfg.script[pc].callId, cfg.script[pc].result, dispatch))
  {
    var gates := if cfg.script[pc].gated && s.gates != [] then s.gates[..|s.gates| - 1] else s.gates;
    DieFollows(cfg, s, Execute(cfg, s, pc, cfg.script[pc].callId, cfg.script[pc].result, dispatch), pc, gates);
  }

  lemma AnsweredMoves(cfg: Config, s: State, pc: nat, dispatch: Dispatch, settled: Body)
    requires s.script == Executing(pc) && pc < |cfg.script| && cfg.script[pc].Tool?
    requires if cfg.hasTools then Report(cfg.script[pc].callId, dispatch) == Some(settled)
             else cfg.script[pc].result.Some? && settled == ToolCompleted(cfg.script[pc].callId, cfg.script[pc].result.value, None)
    ensures var t := Execute(cfg, s, pc, cfg.script[pc].callId, cfg.script[pc].result, dispatch);
            && t.script == At(pc + 1) && StreamOf(t) == StreamOf(Emit(cfg, s, settled)) && t.gates == s.gates
            && s.answers <= t.answers && Before(cfg, t.answers) == s.answers && Executed(cfg, cfg.script[pc], settled, t.answers)
  {
  }

  lemma AnsweredFollows(cfg: Config, s: State, pc: nat, dispatch: Dispatch, settled: Body)
    requires Followed(cfg, s) && s.script == Executing(pc) && pc < |cfg.script| && cfg.script[pc].Tool?
    requires if cfg.hasTools then Report(cfg.script[pc].callId, dispatch) == Some(settled)
             else cfg.script[pc].result.Some? && settled == ToolCompleted(cfg.script[pc].callId, cfg.script[pc].result.value, None)
    ensures Followed(cfg, Execute(cfg, s, pc, cfg.script[pc].callId, cfg.script[pc].result, dispatch))
  {
    AnsweredMoves(cfg, s, pc, dispatch, settled);
    SettledFollows(cfg, s, pc, settled, Execute(cfg, s, pc, cfg.script[pc].callId, cfg.script[pc].result, dispatch));
  }

  lemma SettledFollows(cfg: Config, s: State, pc: nat, settled: Body, t: State)
    requires Followed(cfg, s) && s.script == Executing(pc) && pc < |cfg.script| && cfg.script[pc].Tool?
    requires (settled.ToolCompleted? || settled.ToolFailed?) && t.script == At(pc + 1) && StreamOf(t) == StreamOf(Emit(cfg, s, settled))
    requires t.gates == s.gates && s.answers <= t.answers && Before(cfg, t.answers) == s.answers && Executed(cfg, cfg.script[pc], settled, t.answers)
    ensures Followed(cfg, t)
  {
    if !s.finished {
      AnsweredPlays(cfg, s, pc, t.answers, settled);
    }
    EmitFollows(cfg, s, settled, t);
  }

  lemma AnsweredPlays(cfg: Config, s: State, pc: nat, answers: seq<Dispatch>, settled: Body)
    requires StandsWith(cfg, s, Plain(s.delivered)) && s.script == Executing(pc)
    requires Before(cfg, answers) == s.answers && Executed(cfg, cfg.script[pc], settled, answers)
    ensures Plays(cfg, pc + 1, Plain(s.delivered) + [settled], s.gates, answers)
  {
    ExecutedPlays(cfg, pc, Plain(s.delivered), s.gates, answers, settled);
  }

  lemma ExecuteFollows(cfg: Config, s: State, pc: nat, dispatch: Dispatch)
    requires Followed(cfg, s) && s.script == Executing(pc) && pc < |cfg.script| && cfg.script[pc].Tool?
    ensures Followed(cfg, Execute(cfg, s, pc, cfg.script[pc].callId, cfg.script[pc].result, dispatch))
  {
    var step := cfg.script[pc];
    if cfg.hasTools {
      if dispatch.Broken? { UnansweredFollows(cfg, s, pc, dispatch); } else { AnsweredFollows(cfg, s, pc, dispatch, Report(step.callId, dispatch).value); }
    } else {
      if step.result.None? { UnansweredFollows(cfg, s, pc, dispatch); } else { AnsweredFollows(cfg, s, pc, dispatch, ToolCompleted(step.callId, step.result.value, None)); }
    }
  }

  lemma DenyFollows(cfg: Config, s: State, pc: nat, reason: Option<string>, dispatch: Dispatch)
    requires Followed(cfg, s) && s.script == Decided(pc, Deny(reason)) && AdvanceScript(cfg, s, dispatch).Some?
    ensures Followed(cfg, AdvanceScript(cfg, s, dispatch).value)
  {
    if !s.finished {
      DeniedPlays(cfg, pc, Plain(s.delivered), s.gates, s.answers, reason);
    }
    EmitFollows(cfg, s, Denial(cfg.script[pc].callId, reason), AdvanceScript(cfg, s, dispatch).value);
  }

  lemma ApproveFollows(cfg: Config, s: State, pc: nat, dispatch: Dispatch)
    requires Followed(cfg, s) && s.script == Decided(pc, Approve) && AdvanceScript(cfg, s, dispatch).Some?
    ensures Followed(cfg, AdvanceScript(cfg, s, dispatch).value)
  {
    SilentFollows(cfg, s, AdvanceScript(cfg, s, dispatch).value);
  }

  lemma AdvanceFollows(cfg: Config, s: State, dispatch: Dispatch)
    requires Followed(cfg, s) && AdvanceScript(cfg, s, dispatch).Some?
    ensures Followed(cfg, AdvanceScript(cfg, s, dispatch).value)
  {
    match s.script
    case At(pc) => BeginFollows(cfg, s, pc);
    case Executing(pc) => ExecuteFollows(cfg, s, pc, dispatch);
    case Decided(pc, Deny(reason)) => DenyFollows(cfg, s, pc, reason, dispatch);
    case Decided(pc, Approve) => ApproveFollows(cfg, s, pc, dispatch);
    case _ => GateFollows(cfg, s, dispatch);
  }

  lemma GateFollows(cfg: Config, s: State, dispatch: Dispatch)
    requires Followed(cfg, s) && (s.script.Gate? || s.script.Awaiting?) && AdvanceScript(cfg, s, dispatch).Some?
    ensures Followed(cfg, AdvanceScript(cfg, s, dispatch).value)
  {
    var t := AdvanceScript(cfg, s, dispatch).value;
    if t.script.Decided? {
      assert t.gates[..|t.gates| - 1] == s.gates;
    }
    SilentFollows(cfg, s, t);
  }

  lemma InterruptFollows(cfg: Config, s: State)
    requires Followed(cfg, s)
    ensures Followed(cfg, InterruptScript(cfg, s))
  {
    if !s.script.Over? {
      CancelFollows(cfg, s, Some("interrupted"), InterruptScript(cfg, s));
    }
  }

  lemma SteerFollows(cfg: Config, s: State, id: string, text: string)
    requires Followed(cfg, s)
    ensures Followed(cfg, TakeCommand(cfg, s, Steer(id, text)))
  {
    assert Plain(s.delivered) + [] == Plain(s.delivered);
    EmitFollows(cfg, s, RunSteered(id, text), TakeCommand(cfg, s, Steer(id, text)));
  }

  lemma StopFollows(cfg: Config, s: State, reason: Option<string>)
    requires Followed(cfg, s)
    ensures Followed(cfg, TakeCommand(cfg, s, Stop(reason)))
  {
    CancelFollows(cfg, s, Some(if reason.Some? then reason.value else "stop"), TakeCommand(cfg, s, Stop(reason)));
  }

  lemma ContinueFollows(cfg: Config, s: State)
    requires Followed(cfg, s) && ContinueCommand(cfg, s).Some?
    ensures Followed(cfg, ContinueCommand(cfg, s).value)
  {
    if s.commands.Interrupting? {
      InterruptFollows(cfg, s);
      SameFollows(cfg, InterruptScript(cfg, s), ContinueCommand(cfg, s).value);
    } else {
      SameFollows(cfg, s, ContinueCommand(cfg, s).value);
    }
  }

  lemma ActFollows(cfg: Config, s: State, a: Action)
    requires Followed(cfg, s) && Act(cfg, s, a).Some?
    ensures Followed(cfg, Act(cfg, s, a).value)
  {
    match a
    case Advance(dispatch) => AdvanceFollows(cfg, s, dispatch);
    case Take(Stop(reason)) => StopFollows(cfg, s, reason);
    case Take(Steer(id, text)) => SteerFollows(cfg, s, id, text);
    case Take(Decide(callId, outcome)) => SameFollows(cfg, s, Deliver(s, callId, outcome));
    case Continue => ContinueFollows(cfg, s);
    case CloseScope => InterruptFollows(cfg, s);
  }

  lemma SameFollows(cfg: Config, s: State, t: State)
    requires Followed(cfg, s) && StreamOf(t) == StreamOf(s) && t.script == s.script && t.gates == s.gates && t.answers == s.answers
    ensures Followed(cfg, t)
  {
    SilentFollows(cfg, s, t);
  }

  /** Over every interleaving of script, commands and interruption the session follows its script:
      what it has delivered, the steers aside, is what the script read one step after the other
      amounts to, with the outcomes the gates resolved with and the answers the tools gave. */
  lemma {:induction false} ScriptIsFollowed(cfg: Config, run: seq<Action>)
    requires Reached(cfg, run).Some?
    ensures var s := Reached(cfg, run).value; if s.finished then Ended(cfg, s) else Stands(cfg, s)
    ensures Followed(cfg, Reached(cfg, run).value)
    decreases |run|
  {
    if run == [] {
      assert Init(cfg).delivered[..0] == [];
      assert Plain(Init(cfg).delivered) == [RunStarted];
    } else {
      ScriptIsFollowed(cfg, run[..|run| - 1]);
      ActFollows(cfg, Reached(cfg, run[..|run| - 1]).value, run[|run| - 1]);
    }
  }

  // ---- what becomes of a call ----

  predicate SettlesCall(b: Body, callId: string) {
    (b.ToolCompleted? || b.ToolFailed?) && b.callId == callId
  }

  /** Every request is followed by its settlement, and every settlement follows its request. */
  ghost predicate Paired(bodies: seq<Body>) {
    && (forall i :: 0 <= i < |bodies| && bodies[i].ToolRequested? ==> i + 1 < |bodies| && SettlesCall(bodies[i + 1], bodies[i].callId))
    && (forall i :: 0 <= i < |bodies| && (bodies[i].ToolCompleted? || bodies[i].ToolFailed?) ==>
          0 < i && bodies[i - 1].ToolRequested? && bodies[i - 1].callId == bodies[i].callId)
  }

  lemma PairedMore(bodies: seq<Body>, before: seq<Body>)
    requires Paired(before) && before != []
    requires || (|bodies| == |before| + 1 && bodies[..|before|] == before && bodies[|before|].TokenDelta?)
             || (|bodies| == |before| + 2 && bodies[..|before|] == before && bodies[|before|].ToolRequested? && SettlesCall(bodies[|before| + 1], bodies[|before|].callId))
    ensures Paired(bodies)
  {
    assert forall i :: 0 <= i < |before| ==> bodies[i] == before[i];
  }

  lemma {:induction false} PlaysPaired(cfg: Config, pc: nat, bodies: seq<Body>, gates: seq<(string, Outcome)>, answers: seq<Dispatch>)
    requires Plays(cfg, pc, bodies, gates, answers)
    ensures bodies != [] && Paired(bodies)
    decreases pc
  {
    if pc > 0 {
      var before, fewer, rest := PlaysBefore(cfg, pc, bodies, gates, answers);
      PlaysPaired(cfg, pc - 1, before, fewer, rest);
      if before != bodies {
        PairedMore(bodies, before);
      }
    }
  }

  /** What the last step leaves of the bodies, gates and answers before it. */
  lemma PlaysBefore(cfg: Config, pc: nat, bodies: seq<Body>, gates: seq<(string, Outcome)>, answers: seq<Dispatch>)
    returns (before: seq<Body>, fewer: seq<(string, Outcome)>, rest: seq<Dispatch>)
    requires 0 < pc && Plays(cfg, pc, bodies, gates, answers)
    ensures pc <= |cfg.script| && Plays(cfg, pc - 1, before, fewer, rest)
    ensures before <= bodies && fewer <= gates && rest <= answers
    ensures var step := cfg.script[pc - 1];
            if step.Tool? then
              && |bodies| == |before| + 2 && bodies[|before|] == ToolRequested(step.callId, step.tool, step.arguments)
              && SettledAs(cfg, step, bodies[|before| + 1], if gates == [] then None else Some(gates[|gates| - 1]), answers)
              && (step.gated ==> gates != [] && gates[|gates| - 1].0 == step.callId)
              && SettlesCall(bodies[|before| + 1], step.callId)
            else before == bodies || (|bodies| == |before| + 1 && bodies[|before|].TokenDelta?)
  {
    var step := cfg.script[pc - 1];
    before, fewer, rest := bodies, gates, answers;
    if step.Token? {
      before := bodies[..|bodies| - 1];
    } else if step.Tool? {
      before := bodies[..|bodies| - 2];
      if step.gated {
        fewer := gates[..|gates| - 1];
      }
      if !step.gated || gates[|gates| - 1].1.Approve? {
        rest := Before(cfg, answers);
      }
    }
  }

  /** An approved or ungated call is settled by what the tools or the script answer, a denied one by
      its denial. */
  predicate SettledAs(cfg: Config, step: ScriptStep, settled: Body, gate: Option<(string, Outcome)>, answers: seq<Dispatch>)
    requires step.Tool?
  {
    if step.gated && gate.Some? && gate.value.1.Deny? then settled == Denial(step.callId, gate.value.1.reason)
    else Executed(cfg, step, settled, answers)
  }

  /** Each gated call the script has come past: its request, and directly after it the denial if its
      gate was denied, and what the tools or the script answer if it was approved. */
  lemma {:induction false} GatedCallIsSettled(cfg: Config, pc: nat, bodies: seq<Body>, gates: seq<(string, Outcome)>, answers: seq<Dispatch>, k: nat)
    returns (i: nat, j: nat, upTo: seq<Dispatch>)
    requires Plays(cfg, pc, bodies, gates, answers) && k < pc && k < |cfg.script| && cfg.script[k].Tool? && cfg.script[k].gated
    ensures i + 1 < |bodies| && j < |gates| && upTo <= answers
    ensures bodies[i] == ToolRequested(cfg.script[k].callId, cfg.script[k].tool, cfg.script[k].arguments) && gates[j].0 == cfg.script[k].callId
    ensures SettledAs(cfg, cfg.script[k], bodies[i + 1], Some(gates[j]), upTo)
    decreases pc
  {
    var before, fewer, rest := PlaysBefore(cfg, pc, bodies, gates, answers);
    if k == pc - 1 {
      i, j, upTo := |before|, |gates| - 1, answers;
    } else {
      i, j, upTo := GatedCallIsSettled(cfg, pc - 1, before, fewer, rest, k);
    }
  }

  /** When a run completes, every call it requested was settled directly after, steers aside, and
      settled once. */
  lemma CompletedSettlesEveryCall(cfg: Config, run: seq<Action>, s: State)
    requires Reached(cfg, run) == Some(s) && s.finished && !s.failed && Plain(s.delivered) != []
    requires Plain(s.delivered)[|Plain(s.delivered)| - 1].RunCompleted?
    ensures Paired(Plain(s.delivered)[..|Plain(s.delivered)| - 1])
  {
    ScriptIsFollowed(cfg, run);
    var bodies := Plain(s.delivered);
    var pc, gates, answers :| gates <= s.gates && answers <= s.answers && Closed(cfg, pc, bodies, s.failed, gates, answers);
    PlaysPaired(cfg, pc, bodies[..|bodies| - 1], gates, answers);
  }

  // ---- the outcomes are the operator's ----

  ghost predicate GatesAnswer(s: State) {
    forall g :: g in s.gates ==> g.0 in s.heard && s.heard[g.0] == g.1
  }

  lemma TakeHistory(cfg: Config, s: State, command: Command)
    ensures var t := TakeCommand(cfg, s, command);
            t.gates == s.gates && forall c :: c in s.heard ==> c in t.heard && t.heard[c] == s.heard[c]
  {
  }

  lemma ContinueHistory(cfg: Config, s: State)
    requires ContinueCommand(cfg, s).Some?
    ensures var t := ContinueCommand(cfg, s).value; t.gates == s.gates && t.heard == s.heard
  {
    InterruptLeavesHistory(cfg, s);
  }

  lemma GateHistory(cfg: Config, s: State, a: Action)
    requires Act(cfg, s, a).Some?
    ensures var t := Act(cfg, s, a).value;
            && (forall g :: g in t.gates ==> g in s.gates || (g.0 in t.resolved && t.resolved[g.0] == g.1))
            && (forall c :: c in s.heard ==> c in t.heard && t.heard[c] == s.heard[c])
  {
    match a
    case Advance(dispatch) =>
      AdvanceHistory(cfg, s, dispatch);
      GrownGates(s, Act(cfg, s, a).value);
    case Take(command) => TakeHistory(cfg, s, command);
    case Continue => ContinueHistory(cfg, s);
    case CloseScope => InterruptLeavesHistory(cfg, s);
  }

  lemma GrownGates(s: State, t: State)
    requires GatesGrow(s, t)
    ensures forall g :: g in t.gates ==> g in s.gates || (g.0 in t.resolved && t.resolved[g.0] == g.1)
  {
    forall g | g in t.gates
      ensures g in s.gates || (g.0 in t.resolved && t.resolved[g.0] == g.1)
    {
      var i :| 0 <= i < |t.gates| && t.gates[i] == g;
      if i < |s.gates| {
        assert s.gates[i] == g;
      }
    }
  }

  /** Unless two gates are for one call, every gate's outcome is the first decision delivered for it. */
  lemma {:induction false} GatesAnswerDecisions(cfg: Config, run: seq<Action>)
    requires UniqueGates(cfg) && Reached(cfg, run).Some?
    ensures GatesAnswer(Reached(cfg, run).value)
    decreases |run|
  {
    if run != [] {
      var init, a := run[..|run| - 1], run[|run| - 1];
      GatesAnswerDecisions(cfg, init);
      GatesResolveWithTheFirstDecision(cfg, run);
      GateHistory(cfg, Reached(cfg, init).value, a);
    }
  }

  // ---- the commands ----

  /** The steers delivered. */
  function SteersOf(es: seq<RunEvent>): seq<Body> {
    if es == [] then []
    else
      var last := es[|es| - 1].payload.body;
      SteersOf(es[..|es| - 1]) + if last.RunSteered? then [last] else []
  }

  lemma SteersSnoc(es: seq<RunEvent>, e: RunEvent)
    ensures SteersOf(es + [e]) == SteersOf(es) + if e.payload.body.RunSteered? then [e.payload.body] else []
  {
    assert (es + [e])[..|es|] == es;
  }

  /** What the steers taken before the session finished say, in order. */
  ghost function Steered(cfg: Config, run: seq<Action>): seq<Body>
    requires Reached(cfg, run).Some?
    decreases |run|
  {
    if run == [] then []
    else
      var init, a := run[..|run| - 1], run[|run| - 1];
      Steered(cfg, init) + if a.Take? && a.command.Steer? && !Reached(cfg, init).value.finished then [RunSteered(a.command.messageId, a.command.text)] else []
  }

  lemma MovedSteers(cfg: Config, s: State, t: State, m: StreamMove)
    requires Follows(cfg, s, t, m) && (m.Finishes? ==> !m.body.RunSteered?)
    ensures SteersOf(t.delivered) == SteersOf(s.delivered) + if m.Emits? && m.body.RunSteered? && !s.finished then [m.body] else []
  {
    if !s.finished && (m.Emits? || m.Finishes?) {
      SteersSnoc(s.delivered, Event(s.nextSeq, Payload(cfg.threadId, cfg.runId, m.body)));
    } else {
      assert SteersOf(s.delivered) + [] == SteersOf(s.delivered);
    }
  }

  lemma OnlySteersSteer(cfg: Config, script: ScriptFiber, commands: CommandFiber, a: Action)
    ensures var m := MoveOf(cfg, script, commands, a);
            && (m.Finishes? ==> !m.body.RunSteered?)
            && (m.Emits? && m.body.RunSteered? <==> a.Take? && a.command.Steer?)
            && (a.Take? && a.command.Steer? ==> m.body == RunSteered(a.command.messageId, a.command.text))
  {
  }

  lemma SteerMoves(cfg: Config, s: State, t: State, a: Action)
    requires Act(cfg, s, a) == Some(t)
    ensures SteersOf(t.delivered) ==
            SteersOf(s.delivered) + if a.Take? && a.command.Steer? && !s.finished then [RunSteered(a.command.messageId, a.command.text)] else []
  {
    ActMoves(cfg, s, a);
    OnlySteersSteer(cfg, s.script, s.commands, a);
    MovedSteers(cfg, s, t, MoveOf(cfg, s.script, s.commands, a));
  }

  /** The script's part of the stream apart, what is delivered is every steer taken before the end,
      once and in order. */
  lemma {:induction false} SteersAreDelivered(cfg: Config, run: seq<Action>)
    requires Reached(cfg, run).Some?
    ensures SteersOf(Reached(cfg, run).value.delivered) == Steered(cfg, run)
    decreases |run|
  {
    if run == [] {
      assert Init(cfg).delivered[..0] == [];
    } else {
      var init, a := run[..|run| - 1], run[|run| - 1];
      var s, t := Reached(cfg, init).value, Reached(cfg, run).value;
      SteersAreDelivered(cfg, init);
      SteerMoves(cfg, s, t, a);
    }
  }

  /** The waits for a steer before a step. */
  function Waits(script: seq<ScriptStep>, pc: nat): nat {
    if pc == 0 then 0 else Waits(script, pc - 1) + if pc <= |script| && script[pc - 1].AwaitSteer? then 1 else 0
  }

  function SteersTaken(run: seq<Action>): nat {
    if run == [] then 0
    else SteersTaken(run[..|run| - 1]) + if run[|run| - 1].Take? && run[|run| - 1].command.Steer? then 1 else 0
  }

  /** Each wait the script has come past used up one steer, and the others are still there: a script
      comes past its `n`th wait only after `n` steers. */
  ghost predicate SteersAddUp(cfg: Config, s: State, taken: nat) {
    && (!s.script.Over? ==> s.steers + Waits(cfg.script, s.script.pc) == taken)
    && s.steers <= taken
  }

  lemma BeginAddsUp(cfg: Config, s: State, pc: nat, taken: nat)
    requires SteersAddUp(cfg, s, taken) && s.script == At(pc) && BeginStep(cfg, s, pc).Some?
    ensures SteersAddUp(cfg, BeginStep(cfg, s, pc).value, taken)
  {
    assert Waits(cfg.script, pc + 1) == Waits(cfg.script, pc) + if pc < |cfg.script| && cfg.script[pc].AwaitSteer? then 1 else 0;
  }

  lemma NoWait(cfg: Config, pc: nat)
    ensures pc < |cfg.script| && cfg.script[pc].Tool? ==> Waits(cfg.script, pc + 1) == Waits(cfg.script, pc)
  {
  }

  lemma ExecuteAddsUp(cfg: Config, s: State, pc: nat, dispatch: Dispatch, taken: nat)
    requires SteersAddUp(cfg, s, taken) && s.script == Executing(pc) && pc < |cfg.script| && cfg.script[pc].Tool?
    ensures SteersAddUp(cfg, Execute(cfg, s, pc, cfg.script[pc].callId, cfg.script[pc].result, dispatch), taken)
  {
    NoWait(cfg, pc);
  }

  lemma AdvanceAddsUp(cfg: Config, s: State, dispatch: Dispatch, taken: nat)
    requires SteersAddUp(cfg, s, taken) && AdvanceScript(cfg, s, dispatch).Some?
    ensures SteersAddUp(cfg, AdvanceScript(cfg, s, dispatch).value, taken)
  {
    match s.script
    case At(pc) => BeginAddsUp(cfg, s, pc, taken);
    case Executing(pc) => ExecuteAddsUp(cfg, s, pc, dispatch, taken);
    case Decided(pc, _) => NoWait(cfg, pc);
    case _ =>
  }

  lemma {:induction false} WaitsUseSteers(cfg: Config, run: seq<Action>)
    requires Reached(cfg, run).Some?
    ensures SteersAddUp(cfg, Reached(cfg, run).value, SteersTaken(run))
    decreases |run|
  {
    if run != [] {
      var init, a := run[..|run| - 1], run[|run| - 1];
      var s := Reached(cfg, init).value;
      WaitsUseSteers(cfg, init);
      if a.Advance? {
        AdvanceAddsUp(cfg, s, a.dispatch, SteersTaken(init));
      }
    }
  }

  /** A stop cancels a session that has not finished, with its reason, and then ends the script;
      leaving the scope ends both at once. Neither adds anything to a finished one. */
  lemma StopEndsTheRun(cfg: Config, s: State, reason: Option<string>)
    requires s.commands.Idle?
    ensures var t := Act(cfg, s, Take(Stop(reason))).value;
            && t.finished && (s.finished ==> t.delivered == s.delivered)
            && (!s.finished ==>
                  |t.delivered| == |s.delivered| + 1 && t.delivered[..|s.delivered|] == s.delivered
                  && t.delivered[|s.delivered|].payload.body == RunCancelled(if reason.Some? then reason else Some("stop")))
            && Act(cfg, t, Continue).Some? && Act(cfg, t, Continue).value.script.Over? && Act(cfg, t, Continue).value.delivered == t.delivered
    ensures var t := Act(cfg, s, CloseScope).value;
            && t.script.Over?
            && (s.script.Over? || s.finished ==> t.delivered == s.delivered)
            && (!s.script.Over? && !s.finished ==>
                  t.finished && |t.delivered| == |s.delivered| + 1 && t.delivered[..|s.delivered|] == s.delivered
                  && t.delivered[|s.delivered|].payload.body == RunCancelled(Some("interrupted")))
  {
  }

  /** A command half done can always be finished, and then the next is free to be taken; a decision
      on its way resolves its own wait, once, and no other. */
  lemma CommandIsFinished(cfg: Config, s: State)
    requires !s.commands.Idle?
    ensures var t := Act(cfg, s, Continue);
            && t.Some? && t.value.commands.Idle?
            && |t.value.deferreds| == |s.deferreds|
            && forall d :: 0 <= d < |s.deferreds| ==>
                 t.value.deferreds[d] == if s.commands.Delivering? && s.commands.deferred == d && s.deferreds[d].None? then Some(s.commands.outcome) else s.deferreds[d]
  {
  }

  /** The script is waiting at a gate for this call. */
  predicate WaitsFor(cfg: Config, s: State, callId: string) {
    s.script.Awaiting? && s.script.pc < |cfg.script| && cfg.script[s.script.pc].Tool? && cfg.script[s.script.pc].callId == callId
  }

  function SlotOf(s: State, callId: string): Option<Slot> {
    if callId in s.slots then Some(s.slots[callId]) else None
  }

  lemma WithdrawSlot(cfg: Config, s: State, callId: string)
    ensures SlotOf(Withdraw(cfg, s), callId) ==
            if WaitsFor(cfg, s, callId) && SlotOf(s, callId) == Some(Waiting(s.script.deferred)) then None else SlotOf(s, callId)
  {
  }

  lemma InterruptSlot(cfg: Config, s: State, callId: string)
    ensures SlotOf(InterruptScript(cfg, s), callId) == SlotOf(Withdraw(cfg, s), callId)
  {
  }

  lemma BeginLeavesSlots(cfg: Config, s: State, pc: nat)
    requires BeginStep(cfg, s, pc).Some?
    ensures BeginStep(cfg, s, pc).value.slots == s.slots
  {
  }

  lemma ExecuteLeavesSlots(cfg: Config, s: State, pc: nat, callId: string, result: Option<Json>, dispatch: Dispatch)
    ensures Execute(cfg, s, pc, callId, result, dispatch).slots == s.slots
  {
  }

  lemma AdvanceSlot(cfg: Config, s: State, dispatch: Dispatch, callId: string)
    requires AdvanceScript(cfg, s, dispatch).Some?
    ensures var was, now := SlotOf(s, callId), SlotOf(AdvanceScript(cfg, s, dispatch).value, callId);
            if s.script.Gate? && cfg.script[s.script.pc].callId == callId then
              now == (if was.Some? && was.value.Early? then None else Some(Waiting(|s.deferreds|)))
            else if WaitsFor(cfg, s, callId) && was == Some(Waiting(s.script.deferred)) then now.None?
            else now == was
  {
    match s.script
    case At(pc) => BeginLeavesSlots(cfg, s, pc);
    case Executing(pc) => ExecuteLeavesSlots(cfg, s, pc, cfg.script[pc].callId, cfg.script[pc].result, dispatch);
    case Awaiting(_, _) => WithdrawSlot(cfg, s, callId);
    case _ =>
  }

  /** What happens to a call's slot: a gate puts its wait there or takes the early decision it finds, a
      decision takes the wait it finds or stays as an early one, and a wait that is over withdraws its
      own slot and leaves any other alone. */
  lemma SlotMovesWhen(cfg: Config, s: State, a: Action, callId: string)
    requires Act(cfg, s, a).Some?
    ensures var was, now := SlotOf(s, callId), SlotOf(Act(cfg, s, a).value, callId);
            var leaves := a.Advance? || a.CloseScope? || (a.Continue? && s.commands.Interrupting?);
            if a.Take? && a.command.Decide? && a.command.callId == callId then
              now == (if was.None? then Some(Early(a.command.outcome)) else if was.value.Waiting? then None else was)
            else if a.Advance? && s.script.Gate? && cfg.script[s.script.pc].callId == callId then
              now == (if was.Some? && was.value.Early? then None else Some(Waiting(|s.deferreds|)))
            else if leaves && WaitsFor(cfg, s, callId) && was == Some(Waiting(s.script.deferred)) then now.None?
            else now == was
  {
    match a
    case Advance(dispatch) => AdvanceSlot(cfg, s, dispatch, callId);
    case Take(_) =>
    case _ =>
      WithdrawSlot(cfg, s, callId);
      InterruptSlot(cfg, s, callId);
  }

  /** A stream that failed has no script left to run. */
  lemma {:induction false} FailedIsOver(cfg: Config, run: seq<Action>)
    requires Reached(cfg, run).Some? && Reached(cfg, run).value.failed
    ensures Reached(cfg, run).value.script.Over?
    decreases |run|
  {
    if run != [] {
      var init, a := run[..|run| - 1], run[|run| - 1];
      var s := Reached(cfg, init).value;
      if s.failed {
        FailedIsOver(cfg, init);
      }
      FailsOver(cfg, s, a);
    }
  }

  lemma FailsOver(cfg: Config, s: State, a: Action)
    requires Act(cfg, s, a).Some? && (s.failed ==> s.script.Over?)
    ensures Act(cfg, s, a).value.failed ==> Act(cfg, s, a).value.script.Over?
  {
  }
}
