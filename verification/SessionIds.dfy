/**
 * Which ids make a session's stream collide with itself, and which cannot
 * (packages/adapters/src/agent-runtime-emulator.ts): every kind of collision is shown to happen,
 * and so is a stream the wire format cannot carry (packages/core/src/run-events.ts); names, call
 * ids and steers of their own are shown to be enough to avoid all of them.
 */
module SessionIds {
  import opened ByteStreams
  import opened EventFold
  import opened EventReducer
  import opened Session
  import opened SessionReplay

  // ---- what a collision takes ----

  lemma DeliverNext(cfg: Config, run: seq<Action>, s: State, a: Action, body: Body) returns (longer: seq<Action>, t: State)
    requires Reached(cfg, run) == Some(s) && Act(cfg, s, a).Some? && !s.finished
    requires MoveOf(cfg, s.script, s.commands, a) == (if TerminalBody(body) then Finishes(body) else Emits(body))
    ensures Reached(cfg, longer) == Some(t) && Act(cfg, s, a) == Some(t)
    ensures exists e: RunEvent :: e.payload.body == body && t.delivered == s.delivered + [e]
  {
    OneMore(cfg, run, a);
    ActMoves(cfg, s, a);
    longer, t := run + [a], Act(cfg, s, a).value;
    assert t.delivered == s.delivered + [EventOf(cfg, s.nextSeq, body)];
  }

  lemma Seen(es: seq<RunEvent>, e: RunEvent)
    requires e in es
    ensures e.payload.body.TokenDelta? ==> Streamed(es, e.payload.body.messageId)
    ensures e.payload.body.RunSteered? ==> SteeredIn(es, e.payload.body.steerId)
    ensures e.payload.body.ToolRequested? ==> CallRequested(es, e.payload.body.callId)
  {
  }

  /** The pairs of events about one message that do not go together. */
  predicate Pair(first: Body, second: Body) {
    || (first.RunSteered? && second.RunSteered? && first.steerId == second.steerId)
    || (first.RunSteered? && second.TokenDelta? && first.steerId == second.messageId)
    || (first.RunSteered? && second.RunCompleted? && second.closes == Some(first.steerId))
    || (first.TokenDelta? && second.RunSteered? && first.messageId == second.steerId)
  }

  lemma PairCollides(es: seq<RunEvent>, e: RunEvent, f: RunEvent)
    requires Pair(e.payload.body, f.payload.body) && e in es
    ensures !Clean(es + [f])
  {
    Seen(es, e);
    CleanSnoc(es, f);
  }

  /** No client that has not seen the run accepts its stream. */
  ghost predicate Refused(cfg: Config, s: State) {
    forall isInstant, base :: Unseen(cfg, base) ==> ClientAfter(isInstant, cfg, base, s.delivered).Failure?
  }

  /** Every client that has not seen the run accepts its stream. */
  ghost predicate Accepted(cfg: Config, s: State) {
    forall isInstant, base :: Unseen(cfg, base) ==> ClientAfter(isInstant, cfg, base, s.delivered).Success?
  }

  lemma UncleanIsRefused(cfg: Config, run: seq<Action>, s: State)
    requires Reached(cfg, run) == Some(s) && !Clean(s.delivered)
    ensures Refused(cfg, s)
  {
    forall isInstant, base | Unseen(cfg, base)
      ensures ClientAfter(isInstant, cfg, base, s.delivered).Failure?
    {
      SessionReplaysWhen(isInstant, cfg, base, run, s);
    }
  }

  /** Two actions in a row that deliver such a pair. */
  lemma CollideNow(cfg: Config, run: seq<Action>, s: State, a: Action, first: Body, b: Action, second: Body) returns (longer: seq<Action>, t: State)
    requires Reached(cfg, run) == Some(s) && Act(cfg, s, a).Some? && !s.finished && !TerminalBody(first)
    requires MoveOf(cfg, s.script, s.commands, a) == Emits(first)
    requires var u := Act(cfg, s, a).value;
             && Act(cfg, u, b).Some? && !u.finished
             && MoveOf(cfg, u.script, u.commands, b) == (if TerminalBody(second) then Finishes(second) else Emits(second))
    requires Pair(first, second)
    ensures Reached(cfg, longer) == Some(t) && !Clean(t.delivered) && Refused(cfg, t)
  {
    var u: State;
    longer, u := DeliverNext(cfg, run, s, a, first);
    var e: RunEvent :| e.payload.body == first && u.delivered == s.delivered + [e];
    longer, t := DeliverNext(cfg, longer, u, b, second);
    var f: RunEvent :| f.payload.body == second && t.delivered == u.delivered + [f];
    PairCollides(u.delivered, e, f);
    UncleanIsRefused(cfg, longer, t);
  }

  /** A message id steered twice. */
  lemma RepeatedSteerIsRefused(cfg: Config, id: string) returns (run: seq<Action>, s: State)
    ensures Reached(cfg, run) == Some(s) && !Clean(s.delivered) && Refused(cfg, s)
  {
    run, s := CollideNow(cfg, [], Init(cfg), Take(Steer(id, "")), RunSteered(id, ""), Take(Steer(id, "")), RunSteered(id, ""));
  }

  /** A steer naming a message the script then streams. */
  lemma DeltaOfASteerIsRefused(cfg: Config) returns (run: seq<Action>, s: State)
    requires cfg.script != [] && cfg.script[0].Token?
    ensures Reached(cfg, run) == Some(s) && !Clean(s.delivered) && Refused(cfg, s)
  {
    var id, delta := cfg.script[0].messageId, cfg.script[0].delta;
    run, s := CollideNow(cfg, [], Init(cfg), Take(Steer(id, "")), RunSteered(id, ""), Advance(Broken), TokenDelta(id, delta));
  }

  /** A steer naming a message the script then closes. */
  lemma ClosingASteerIsRefused(cfg: Config) returns (run: seq<Action>, s: State)
    requires cfg.script != [] && cfg.script[0].Complete? && cfg.script[0].closes.Some?
    ensures Reached(cfg, run) == Some(s) && !Clean(s.delivered) && Refused(cfg, s)
  {
    var id := cfg.script[0].closes.value;
    run, s := CollideNow(cfg, [], Init(cfg), Take(Steer(id, "")), RunSteered(id, ""), Advance(Broken), RunCompleted(Some(id)));
  }

  /** A steer naming a message the script has streamed. */
  lemma SteerOfAMessageIsRefused(cfg: Config) returns (run: seq<Action>, s: State)
    requires cfg.script != [] && cfg.script[0].Token?
    ensures Reached(cfg, run) == Some(s) && !Clean(s.delivered) && Refused(cfg, s)
  {
    var id, delta := cfg.script[0].messageId, cfg.script[0].delta;
    run, s := CollideNow(cfg, [], Init(cfg), Advance(Broken), TokenDelta(id, delta), Take(Steer(id, "")), RunSteered(id, ""));
  }

  lemma FirstCallDone(cfg: Config) returns (run: seq<Action>, s: State)
    requires 2 <= |cfg.script| && cfg.script[0].Tool? && !cfg.script[0].gated && (cfg.hasTools || cfg.script[0].result.Some?)
    ensures Reached(cfg, run) == Some(s) && s.script == At(1) && !s.finished && CallRequested(s.delivered, cfg.script[0].callId)
  {
    var step := cfg.script[0];
    run, s := DeliverNext(cfg, [], Init(cfg), Advance(Broken), ToolRequested(step.callId, step.tool, step.arguments));
    var e: RunEvent :| e.payload.body == ToolRequested(step.callId, step.tool, step.arguments) && s.delivered == Init(cfg).delivered + [e];
    Seen(s.delivered, e);
    var before := s;
    var result := ToolCompleted(step.callId, if cfg.hasTools then "" else step.result.value, None);
    run, s := DeliverNext(cfg, run, s, Advance(Done("")), result);
    var f: RunEvent :| f.payload.body == result && s.delivered == before.delivered + [f];
    SeenSnoc(before.delivered, f, step.callId);
  }

  /** A call id requested twice, even with no gate. */
  lemma RepeatedRequestIsRefused(cfg: Config) returns (run: seq<Action>, s: State)
    requires 2 <= |cfg.script| && cfg.script[0].Tool? && cfg.script[1].Tool? && cfg.script[0].callId == cfg.script[1].callId
    requires !cfg.script[0].gated && (cfg.hasTools || cfg.script[0].result.Some?)
    ensures Reached(cfg, run) == Some(s) && !Clean(s.delivered) && Refused(cfg, s)
  {
    var again := cfg.script[1];
    run, s := FirstCallDone(cfg);
    var before, body := s, ToolRequested(again.callId, again.tool, again.arguments);
    run, s := DeliverNext(cfg, run, s, Advance(Broken), body);
    var e: RunEvent :| e.payload.body == body && s.delivered == before.delivered + [e];
    CleanSnoc(before.delivered, e);
    UncleanIsRefused(cfg, run, s);
  }

  // ---- what is enough to avoid one ----

  /** Every tool step names its own call. */
  ghost predicate DistinctCallIds(script: seq<ScriptStep>) {
    forall i, j :: 0 <= i < j < |script| && script[i].Tool? && script[j].Tool? ==> script[i].callId != script[j].callId
  }

  /** The message ids a script names: those it streams and those it closes. */
  function ScriptMessages(script: seq<ScriptStep>): set<string> {
    (set step | step in script && step.Token? :: step.messageId) +
    (set step | step in script && step.Complete? && step.closes.Some? :: step.closes.value)
  }

  predicate Steers(a: Action) {
    a.Take? && a.command.Steer?
  }

  /** The message ids steered in a run. */
  function SteerIds(run: seq<Action>): set<string> {
    set a | a in run && Steers(a) :: a.command.messageId
  }

  /** Every steer brings a message id of its own, and none of the script's. */
  predicate FreshSteers(cfg: Config, run: seq<Action>)
    decreases |run|
  {
    run == [] ||
    (var init, a := run[..|run| - 1], run[|run| - 1];
     && FreshSteers(cfg, init)
     && (Steers(a) ==> a.command.messageId !in SteerIds(init) && a.command.messageId !in ScriptMessages(cfg.script)))
  }

  ghost predicate CalledBefore(script: seq<ScriptStep>, bound: nat, callId: string) {
    exists k :: 0 <= k < bound && k < |script| && script[k].Tool? && script[k].callId == callId
  }

  /** Where an event's id comes from: the script, a step it has come past, or a steer. */
  ghost predicate Sourced(script: seq<ScriptStep>, bound: nat, steers: set<string>, body: Body) {
    match body
    case TokenDelta(id, _) => id in ScriptMessages(script)
    case RunSteered(id, _) => id in steers
    case ToolRequested(callId, _, _) => CalledBefore(script, bound, callId)
    case _ => true
  }

  /** A clean stream whose ids all have a source. */
  ghost predicate Orderly(script: seq<ScriptStep>, bound: nat, steers: set<string>, es: seq<RunEvent>) {
    && Clean(es) && steers !! ScriptMessages(script)
    && forall e :: e in es ==> Sourced(script, bound, steers, e.payload.body)
  }

  /** An event that goes with such a stream. */
  ghost predicate Fits(script: seq<ScriptStep>, bound: nat, more: nat, steers: set<string>, moreSteers: set<string>, body: Body) {
    match body
    case TokenDelta(id, _) => id in ScriptMessages(script)
    case RunSteered(id, _) => id in moreSteers && id !in steers
    case ToolRequested(callId, _, _) => bound < |script| && bound < more && script[bound].Tool? && script[bound].callId == callId
    case RunCompleted(closes) => closes.Some? ==> closes.value in ScriptMessages(script)
    case _ => true
  }

  lemma Later(script: seq<ScriptStep>, bound: nat, more: nat, steers: set<string>, moreSteers: set<string>, es: seq<RunEvent>)
    requires Orderly(script, bound, steers, es) && (bound <= more || |script| <= more) && steers <= moreSteers && moreSteers !! ScriptMessages(script)
    ensures Orderly(script, more, moreSteers, es)
  {
    forall e | e in es
      ensures Sourced(script, more, moreSteers, e.payload.body)
    {
      assert Sourced(script, bound, steers, e.payload.body);
    }
  }

  lemma FitsCleanly(script: seq<ScriptStep>, bound: nat, more: nat, steers: set<string>, moreSteers: set<string>, es: seq<RunEvent>, body: Body)
    requires DistinctCallIds(script) && Orderly(script, bound, steers, es) && Fits(script, bound, more, steers, moreSteers, body) && moreSteers !! ScriptMessages(script)
    ensures !Collides(es, body)
  {
  }

  lemma Appended(script: seq<ScriptStep>, bound: nat, more: nat, steers: set<string>, moreSteers: set<string>, es: seq<RunEvent>, e: RunEvent)
    requires DistinctCallIds(script) && Orderly(script, bound, steers, es) && Fits(script, bound, more, steers, moreSteers, e.payload.body)
    requires (bound <= more || |script| <= more) && steers <= moreSteers && moreSteers !! ScriptMessages(script)
    ensures Orderly(script, more, moreSteers, es + [e])
  {
    FitsCleanly(script, bound, more, steers, moreSteers, es, e.payload.body);
    CleanSnoc(es, e);
    Later(script, bound, more, steers, moreSteers, es);
  }

  /** One more than the last step whose call may have been requested. */
  function Bound(cfg: Config, script: ScriptFiber): nat {
    match script
    case At(pc) => pc
    case Gate(pc) => pc + 1
    case Awaiting(pc, _) => pc + 1
    case Decided(pc, _) => pc + 1
    case Executing(pc) => pc + 1
    case Over => |cfg.script|
  }

  lemma MoveIsOrderly(cfg: Config, s: State, t: State, m: StreamMove, bound: nat, more: nat, steers: set<string>, moreSteers: set<string>)
    requires Session.Follows(cfg, s, t, m) && DistinctCallIds(cfg.script) && Orderly(cfg.script, bound, steers, s.delivered)
    requires (bound <= more || |cfg.script| <= more) && steers <= moreSteers && moreSteers !! ScriptMessages(cfg.script)
    requires m.Emits? || m.Finishes? ==> Fits(cfg.script, bound, more, steers, moreSteers, m.body)
    ensures Orderly(cfg.script, more, moreSteers, t.delivered)
  {
    Later(cfg.script, bound, more, steers, moreSteers, s.delivered);
    if (m.Emits? || m.Finishes?) && !s.finished {
      Appended(cfg.script, bound, more, steers, moreSteers, s.delivered, EventOf(cfg, s.nextSeq, m.body));
    }
  }

  predicate MovesOn(cfg: Config, before: ScriptFiber, after: ScriptFiber) {
    Bound(cfg, before) <= Bound(cfg, after) || |cfg.script| <= Bound(cfg, after)
  }

  lemma BeginMovesOn(cfg: Config, s: State, pc: nat)
    requires s.script == At(pc) && BeginStep(cfg, s, pc).Some?
    ensures MovesOn(cfg, s.script, BeginStep(cfg, s, pc).value.script)
  {
  }

  lemma AdvanceMovesOn(cfg: Config, s: State, dispatch: Dispatch)
    requires AdvanceScript(cfg, s, dispatch).Some?
    ensures MovesOn(cfg, s.script, AdvanceScript(cfg, s, dispatch).value.script)
  {
    if s.script.At? {
      BeginMovesOn(cfg, s, s.script.pc);
    }
  }

  lemma InterruptMovesOn(cfg: Config, s: State)
    ensures MovesOn(cfg, s.script, InterruptScript(cfg, s).script)
  {
  }

  /** The script only moves forward. */
  lemma ScriptMovesOn(cfg: Config, s: State, a: Action)
    requires Act(cfg, s, a).Some?
    ensures MovesOn(cfg, s.script, Act(cfg, s, a).value.script)
  {
    match a
    case Advance(dispatch) => AdvanceMovesOn(cfg, s, dispatch);
    case Take(command) => assert TakeCommand(cfg, s, command).script == s.script;
    case _ => InterruptMovesOn(cfg, s);
  }

  lemma RequestMovesOn(cfg: Config, s: State, dispatch: Dispatch, pc: nat)
    requires s.script == At(pc) && pc < |cfg.script| && cfg.script[pc].Tool? && Act(cfg, s, Advance(dispatch)).Some?
    ensures Bound(cfg, Act(cfg, s, Advance(dispatch)).value.script) == pc + 1
  {
  }

  lemma MoveFits(cfg: Config, script: ScriptFiber, commands: CommandFiber, a: Action, more: nat, steers: set<string>, moreSteers: set<string>)
    requires Steers(a) ==> a.command.messageId in moreSteers && a.command.messageId !in steers
    requires a.Advance? && script.At? && script.pc < |cfg.script| && cfg.script[script.pc].Tool? ==> script.pc < more
    ensures var m := MoveOf(cfg, script, commands, a);
            m.Emits? || m.Finishes? ==> Fits(cfg.script, Bound(cfg, script), more, steers, moreSteers, m.body)
  {
    if a.Advance? && script.At? && script.pc < |cfg.script| {
      assert cfg.script[script.pc] in cfg.script;
    }
  }

  lemma ActIsOrderly(cfg: Config, s: State, a: Action, steers: set<string>, moreSteers: set<string>)
    requires Act(cfg, s, a).Some? && DistinctCallIds(cfg.script) && Orderly(cfg.script, Bound(cfg, s.script), steers, s.delivered)
    requires moreSteers == steers + (if Steers(a) then {a.command.messageId} else {}) && moreSteers !! ScriptMessages(cfg.script)
    requires Steers(a) ==> a.command.messageId !in steers
    ensures var t := Act(cfg, s, a).value; Orderly(cfg.script, Bound(cfg, t.script), moreSteers, t.delivered)
  {
    var t := Act(cfg, s, a).value;
    ActMoves(cfg, s, a);
    ScriptMovesOn(cfg, s, a);
    if a.Advance? && s.script.At? && s.script.pc < |cfg.script| && cfg.script[s.script.pc].Tool? {
      RequestMovesOn(cfg, s, a.dispatch, s.script.pc);
    }
    MoveFits(cfg, s.script, s.commands, a, Bound(cfg, t.script), steers, moreSteers);
    MoveIsOrderly(cfg, s, t, MoveOf(cfg, s.script, s.commands, a), Bound(cfg, s.script), Bound(cfg, t.script), steers, moreSteers);
  }

  lemma SteerIdsSnoc(run: seq<Action>, a: Action)
    ensures SteerIds(run + [a]) == SteerIds(run) + if Steers(a) then {a.command.messageId} else {}
  {
  }

  lemma StartIsOrderly(cfg: Config)
    ensures Orderly(cfg.script, 0, {}, Init(cfg).delivered)
  {
    CleanSnoc([], Init(cfg).delivered[0]);
    assert Init(cfg).delivered == [] + [Init(cfg).delivered[0]];
  }

  lemma FreshStep(cfg: Config, init: seq<Action>, a: Action)
    requires FreshSteers(cfg, init + [a]) && SteerIds(init) !! ScriptMessages(cfg.script)
    ensures FreshSteers(cfg, init)
    ensures SteerIds(init + [a]) == SteerIds(init) + (if Steers(a) then {a.command.messageId} else {})
    ensures SteerIds(init + [a]) !! ScriptMessages(cfg.script) && (Steers(a) ==> a.command.messageId !in SteerIds(init))
  {
    assert (init + [a])[..|init|] == init;
    SteerIdsSnoc(init, a);
  }

  lemma {:induction false} SteersAreForeign(cfg: Config, run: seq<Action>)
    requires FreshSteers(cfg, run)
    ensures SteerIds(run) !! ScriptMessages(cfg.script)
    decreases |run|
  {
    if run != [] {
      assert run == run[..|run| - 1] + [run[|run| - 1]];
      SteersAreForeign(cfg, run[..|run| - 1]);
      FreshStep(cfg, run[..|run| - 1], run[|run| - 1]);
    }
  }

  lemma {:induction false} StaysOrderly(cfg: Config, run: seq<Action>, s: State)
    requires DistinctCallIds(cfg.script) && FreshSteers(cfg, run) && Reached(cfg, run) == Some(s)
    ensures Orderly(cfg.script, Bound(cfg, s.script), SteerIds(run), s.delivered)
    decreases |run|
  {
    if run == [] {
      StartIsOrderly(cfg);
    } else {
      var init, a := run[..|run| - 1], run[|run| - 1];
      assert run == init + [a];
      var before := Reached(cfg, init).value;
      SteersAreForeign(cfg, init);
      FreshStep(cfg, init, a);
      StaysOrderly(cfg, init, before);
      ActIsOrderly(cfg, before, a, SteerIds(init), SteerIds(run));
    }
  }

  // ---- what the wire format carries ----

  predicate NamedStep(step: ScriptStep) {
    match step
    case Token(messageId, _) => messageId != ""
    case Tool(callId, tool, _, _, _) => callId != "" && tool != ""
    case Complete(closes) => Named(closes)
    case Fail(_, code) => Named(code)
    case _ => true
  }

  predicate NamedCommand(a: Action) {
    match a
    case Take(Stop(reason)) => Named(reason)
    case Take(Steer(messageId, _)) => messageId != ""
    case _ => true
  }

  /** Nothing the session is given has an empty name, and its event numbers stay exact. */
  predicate WellNamed(cfg: Config, run: seq<Action>) {
    && cfg.threadId != "" && cfg.runId != "" && 1 <= cfg.startSeq && cfg.startSeq + |run| <= MAX_SAFE_INTEGER
    && (forall step :: step in cfg.script ==> NamedStep(step))
    && (forall a :: a in run ==> NamedCommand(a))
  }

  lemma MoveParses(isInstant: string -> bool, cfg: Config, script: ScriptFiber, commands: CommandFiber, a: Action)
    requires NamedCommand(a) && forall step :: step in cfg.script ==> NamedStep(step)
    ensures var m := MoveOf(cfg, script, commands, a); m.Emits? || m.Finishes? ==> ParsesBody(isInstant, m.body)
  {
    var m := MoveOf(cfg, script, commands, a);
    if a.Advance? && (script.At? || script.Decided? || script.Executing?) && script.pc < |cfg.script| {
      assert NamedStep(cfg.script[script.pc]);
    }
  }

  lemma {:induction false} StaysNamed(isInstant: string -> bool, cfg: Config, run: seq<Action>, s: State)
    requires (forall step :: step in cfg.script ==> NamedStep(step)) && (forall a :: a in run ==> NamedCommand(a))
    requires Reached(cfg, run) == Some(s)
    ensures |s.delivered| <= |run| + 1 && forall e :: e in s.delivered ==> ParsesBody(isInstant, e.payload.body)
    decreases |run|
  {
    if run != [] {
      var init, a := run[..|run| - 1], run[|run| - 1];
      var before := Reached(cfg, init).value;
      StaysNamed(isInstant, cfg, init, before);
      ActMoves(cfg, before, a);
      MoveParses(isInstant, cfg, before.script, before.commands, a);
    }
  }

  lemma StaysCarried(isInstant: string -> bool, cfg: Config, run: seq<Action>, s: State)
    requires WellNamed(cfg, run) && Reached(cfg, run) == Some(s)
    ensures Carried(isInstant, s.delivered)
  {
    StaysNamed(isInstant, cfg, run, s);
    EveryStreamIsWellShaped(cfg, run);
    forall e | e in s.delivered
      ensures Parses(isInstant, e)
    {
      var i :| 0 <= i < |s.delivered| && s.delivered[i] == e;
      assert e.seqNo == cfg.startSeq + i;
    }
  }

  /** A stop whose reason is empty ends the run with an event no client can read: the session's
      own default stands in for a missing reason only. */
  lemma EmptyStopReasonIsRefused(cfg: Config) returns (run: seq<Action>, s: State)
    ensures Reached(cfg, run) == Some(s) && Clean(s.delivered) && Refused(cfg, s)
  {
    var stop := Take(Stop(Some("")));
    run, s := DeliverNext(cfg, [], Init(cfg), stop, RunCancelled(Some("")));
    var e: RunEvent :| e.payload.body == RunCancelled(Some("")) && s.delivered == Init(cfg).delivered + [e];
    assert Init(cfg).delivered == [] + Init(cfg).delivered;
    CleanSnoc([], Init(cfg).delivered[0]);
    CleanSnoc(Init(cfg).delivered, e);
    assert e in s.delivered;
    forall isInstant, base | Unseen(cfg, base)
      ensures ClientAfter(isInstant, cfg, base, s.delivered).Failure?
    {
      assert !Parses(isInstant, e);
      UncarriedFails(isInstant, cfg, base, s.delivered);
    }
  }

  /** With names for everything, call ids of their own and steers of their own every client accepts
      the whole stream: enough, though not needed. */
  lemma FreshIdsReplay(cfg: Config, run: seq<Action>, s: State)
    requires WellNamed(cfg, run) && DistinctCallIds(cfg.script) && FreshSteers(cfg, run) && Reached(cfg, run) == Some(s)
    ensures Accepted(cfg, s)
  {
    StaysOrderly(cfg, run, s);
    forall isInstant, base | Unseen(cfg, base)
      ensures ClientAfter(isInstant, cfg, base, s.delivered).Success?
    {
      StaysCarried(isInstant, cfg, run, s);
      SessionReplaysWhen(isInstant, cfg, base, run, s);
    }
  }

  /** A message that only a step out of reach closes. */
  const UNREACHED := Config("t", "r", 1, [Fail("e", None), Complete(Some("m"))], false)

  lemma SteerIsNotFresh(a: Action)
    ensures !FreshSteers(UNREACHED, [Take(Steer("m", "")), a])
  {
    var run := [Take(Steer("m", "")), a];
    assert UNREACHED.script[1] in UNREACHED.script;
    assert run[..1] == [Take(Steer("m", ""))];
    assert !FreshSteers(UNREACHED, run[..1]);
  }

  lemma QuietStaysClean(es: seq<RunEvent>, body: Body, e: RunEvent)
    requires Clean(es) && e.payload.body == body && (body.RunFailed? || body.RunStarted?)
    ensures Clean(es + [e])
  {
    CleanSnoc(es, e);
  }

  lemma FirstSteerIsClean(es: seq<RunEvent>, e: RunEvent)
    requires |es| == 1 && es[0].payload.body.RunStarted?
    ensures Clean(es) && (e.payload.body.RunSteered? ==> Clean(es + [e]))
  {
    CleanSnoc([], es[0]);
    assert es == [] + [es[0]];
    CleanSnoc(es, e);
  }

  lemma SteeredFirst() returns (t: State)
    ensures Reached(UNREACHED, [Take(Steer("m", ""))]) == Some(t) && t.script == At(0) && !t.finished && Clean(t.delivered)
  {
    var steer := Take(Steer("m", ""));
    OneMore(UNREACHED, [], steer);
    assert [] + [steer] == [steer];
    t := Act(UNREACHED, Init(UNREACHED), steer).value;
    FirstSteerIsClean(Init(UNREACHED).delivered, EventOf(UNREACHED, 2, RunSteered("m", "")));
    assert t.delivered == Init(UNREACHED).delivered + [EventOf(UNREACHED, 2, RunSteered("m", ""))];
  }

  /** Not needed: such a steer is accepted. */
  lemma UnreachedClosingIsHarmless() returns (run: seq<Action>, s: State)
    ensures Reached(UNREACHED, run) == Some(s) && s.finished && !FreshSteers(UNREACHED, run) && Accepted(UNREACHED, s)
  {
    var step := Advance(Broken);
    var t := SteeredFirst();
    SteerIsNotFresh(step);
    run := [Take(Steer("m", ""))] + [step];
    assert run == [Take(Steer("m", "")), step];
    OneMore(UNREACHED, [Take(Steer("m", ""))], step);
    s := Act(UNREACHED, t, step).value;
    QuietStaysClean(t.delivered, RunFailed("e", None), EventOf(UNREACHED, t.nextSeq, RunFailed("e", None)));
    assert WellNamed(UNREACHED, run);
    forall isInstant, base | Unseen(UNREACHED, base)
      ensures ClientAfter(isInstant, UNREACHED, base, s.delivered).Success?
    {
      StaysCarried(isInstant, UNREACHED, run, s);
      SessionReplaysWhen(isInstant, UNREACHED, base, run, s);
    }
  }
}
