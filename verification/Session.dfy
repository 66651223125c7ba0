/**
 * The offline agent session as two interleaved fibers, a script and a command loop, over shared
 * refs, mailboxes and decision slots (packages/adapters/src/agent-runtime-emulator.ts).
 *
 * One action is one atomic exchange. `emit` (take a number, offer the event) and `finish` are
 * one action each; registering a gate, handing over a decision, resolving its deferred and
 * waking the script are separate actions, so every order between them is covered.
 */
module Session {
  import opened ByteStreams
  import opened EventFold
  import opened EventReducer

  datatype Outcome = Approve | Deny(reason: Option<string>)

  datatype Slot = Waiting(deferred: nat) | Early(outcome: Outcome)

  datatype ScriptStep =
    | Token(messageId: string, delta: string)
    | Tool(callId: string, tool: string, arguments: Json, result: Option<Json>, gated: bool)
    | Usage
    | AwaitSteer
    | Complete(closes: Option<string>)
    | Fail(error: string, code: Option<string>)

  /** Where the script fiber is; `pc` is the step it is executing. */
  datatype ScriptFiber =
    | At(pc: nat)
    | Gate(pc: nat)
    | Awaiting(pc: nat, deferred: nat)
    | Decided(pc: nat, outcome: Outcome)
    | Executing(pc: nat)
    | Over

  /** Where the command loop is inside one command. */
  datatype CommandFiber = Idle | Delivering(deferred: nat, outcome: Outcome) | Interrupting

  /** What the tool dispatcher answers, when there is one. */
  datatype Dispatch = Done(result: Json) | Errored(error: string) | UnknownTool(message: string) | Broken

  datatype Command = Stop(reason: Option<string>) | Steer(messageId: string, text: string) | Decide(callId: string, outcome: Outcome)

  datatype Action = Advance(dispatch: Dispatch) | Take(command: Command) | Continue | CloseScope

  datatype Config = Config(threadId: string, runId: string, startSeq: nat, script: seq<ScriptStep>, hasTools: bool)

  /** The last four are history: the first decision delivered for each call, what each call's gate
      resolved with, every gate's resolution in order, and every tool's answer in order. */
  datatype State = State(
    nextSeq: nat, finished: bool, failed: bool, delivered: seq<RunEvent>, steers: nat,
    slots: map<string, Slot>, deferreds: seq<Option<Outcome>>, script: ScriptFiber, commands: CommandFiber,
    heard: map<string, Outcome>, resolved: map<string, Outcome>, gates: seq<(string, Outcome)>, answers: seq<Dispatch>)

  // ---- the shared operations ----

  /** `emit`: takes the next number; an ended mailbox drops the offer. */
  function Emit(cfg: Config, s: State, body: Body): State {
    s.(nextSeq := s.nextSeq + 1,
       delivered := if s.finished then s.delivered else s.delivered + [Event(s.nextSeq, Payload(cfg.threadId, cfg.runId, body))])
  }

  /** `finish`: the first call emits its terminal event and ends the mailboxes. */
  function Finish(cfg: Config, s: State, body: Body): State {
    if s.finished then s else Emit(cfg, s, body).(finished := true)
  }

  /** A cause that is not an interruption fails the stream instead of ending it. */
  function Die(s: State): State {
    if s.finished then s.(script := Over) else s.(finished := true, failed := true, script := Over)
  }

  /** Interrupting the script: a registered wait is withdrawn, and the run is cancelled unless
      it has already finished. */
  function InterruptScript(cfg: Config, s: State): State {
    if s.script.Over? then s
    else Finish(cfg, Withdraw(cfg, s), RunCancelled(Some("interrupted"))).(script := Over)
  }

  /** `Effect.ensuring` of a gate's wait: its slot goes if it is still its own. */
  function Withdraw(cfg: Config, s: State): State {
    if s.script.Awaiting? && s.script.pc < |cfg.script| && cfg.script[s.script.pc].Tool?
       && cfg.script[s.script.pc].callId in s.slots && s.slots[cfg.script[s.script.pc].callId] == Waiting(s.script.deferred)
    then s.(slots := s.slots - {cfg.script[s.script.pc].callId}) else s
  }

  // ---- the script fiber ----

  function Init(cfg: Config): State {
    State(cfg.startSeq + 1, false, false, [Event(cfg.startSeq, Payload(cfg.threadId, cfg.runId, RunStarted))], 0,
          map[], [], At(0), Idle, map[], map[], [], [])
  }

  /** Starting the step at `pc`; None while it waits for a steer. */
  function BeginStep(cfg: Config, s: State, pc: nat): Option<State> {
    if pc >= |cfg.script| then Some(Die(s))
    else
      match cfg.script[pc]
      case Token(messageId, delta) => Some(Emit(cfg, s, TokenDelta(messageId, delta)).(script := At(pc + 1)))
      case Tool(callId, tool, arguments, _, gated) =>
        Some(Emit(cfg, s, ToolRequested(callId, tool, arguments)).(script := if gated then Gate(pc) else Executing(pc)))
      case Usage => Some(s.(script := At(pc + 1)))
      case AwaitSteer => if s.steers == 0 then None else Some(s.(steers := s.steers - 1, script := At(pc + 1)))
      case Complete(closes) => Some(Finish(cfg, s, RunCompleted(closes)).(script := Over))
      case Fail(error, code) => Some(Finish(cfg, s, RunFailed(error, code)).(script := Over))
  }

  /** `executeToolStep`. */
  function Execute(cfg: Config, s: State, pc: nat, callId: string, result: Option<Json>, dispatch: Dispatch): State {
    if !cfg.hasTools then
      if result.None? then Die(s) else Emit(cfg, s, ToolCompleted(callId, result.value, None)).(script := At(pc + 1))
    else
      var heard := s.(answers := s.answers + [dispatch]);
      match dispatch
      case Done(r) => Emit(cfg, heard, ToolCompleted(callId, r, None)).(script := At(pc + 1))
      case Errored(error) => Emit(cfg, heard, ToolFailed(callId, error, None)).(script := At(pc + 1))
      case UnknownTool(message) => Emit(cfg, heard, ToolFailed(callId, message, None)).(script := At(pc + 1))
      case Broken => Die(s)
  }

  /** The slot exchange of `awaitDecision`. */
  function RegisterGate(s: State, pc: nat, callId: string): State {
    if callId in s.slots && s.slots[callId].Early? then
      Resolve(s.(slots := s.slots - {callId}), pc, callId, s.slots[callId].outcome)
    else
      s.(slots := s.slots[callId := Waiting(|s.deferreds|)], deferreds := s.deferreds + [None], script := Awaiting(pc, |s.deferreds|))
  }

  function Resolve(s: State, pc: nat, callId: string, outcome: Outcome): State {
    s.(script := Decided(pc, outcome), resolved := s.resolved[callId := outcome], gates := s.gates + [(callId, outcome)])
  }

  const DENIED := "the operator denied this tool call"

  function AdvanceScript(cfg: Config, s: State, dispatch: Dispatch): Option<State> {
    match s.script
    case Over => None
    case At(pc) => BeginStep(cfg, s, pc)
    case Gate(pc) =>
      if pc < |cfg.script| && cfg.script[pc].Tool? then Some(RegisterGate(s, pc, cfg.script[pc].callId)) else None
    case Awaiting(pc, d) =>
      if d < |s.deferreds| && s.deferreds[d].Some? && pc < |cfg.script| && cfg.script[pc].Tool?
      then Some(Resolve(Withdraw(cfg, s), pc, cfg.script[pc].callId, s.deferreds[d].value)) else None
    case Decided(pc, outcome) =>
      if pc < |cfg.script| && cfg.script[pc].Tool? then
        match outcome
        case Approve => Some(s.(script := Executing(pc)))
        case Deny(reason) => Some(Emit(cfg, s, ToolFailed(cfg.script[pc].callId, if reason.Some? then reason.value else DENIED, None)).(script := At(pc + 1)))
      else None
    case Executing(pc) =>
      if pc < |cfg.script| && cfg.script[pc].Tool? then Some(Execute(cfg, s, pc, cfg.script[pc].callId, cfg.script[pc].result, dispatch)) else None
  }

  // ---- the command fiber ----

  /** The slot exchange of `deliverDecision`. */
  function Deliver(s: State, callId: string, outcome: Outcome): State {
    var t := s.(heard := if callId in s.heard then s.heard else s.heard[callId := outcome]);
    if callId !in s.slots then t.(slots := t.slots[callId := Early(outcome)])
    else if s.slots[callId].Waiting? then t.(slots := t.slots - {callId}, commands := Delivering(s.slots[callId].deferred, outcome))
    else t
  }

  function TakeCommand(cfg: Config, s: State, command: Command): State {
    match command
    case Stop(reason) => Finish(cfg, s, RunCancelled(Some(if reason.Some? then reason.value else "stop"))).(commands := Interrupting)
    case Steer(messageId, text) => Emit(cfg, s, RunSteered(messageId, text)).(steers := s.steers + 1)
    case Decide(callId, outcome) => Deliver(s, callId, outcome)
  }

  /** The second half of a decision or of a stop. */
  function ContinueCommand(cfg: Config, s: State): Option<State> {
    match s.commands
    case Idle => None
    case Delivering(d, outcome) =>
      Some(s.(commands := Idle, deferreds := if d < |s.deferreds| && s.deferreds[d].None? then s.deferreds[d := Some(outcome)] else s.deferreds))
    case Interrupting => Some(InterruptScript(cfg, s).(commands := Idle))
  }

  // ---- runs ----

  /** One atomic action; None when it is not enabled. */
  function Act(cfg: Config, s: State, a: Action): Option<State> {
    match a
    case Advance(dispatch) => AdvanceScript(cfg, s, dispatch)
    case Take(command) => if s.commands.Idle? then Some(TakeCommand(cfg, s, command)) else None
    case Continue => ContinueCommand(cfg, s)
    case CloseScope => Some(InterruptScript(cfg, s))
  }

  /** The state after a run of actions; None when one of them was not enabled. */
  function Reached(cfg: Config, run: seq<Action>): Option<State> {
    if run == [] then Some(Init(cfg))
    else
      match Reached(cfg, run[..|run| - 1])
      case None => None
      case Some(s) => Act(cfg, s, run[|run| - 1])
  }

  // ---- the event stream ----

  predicate TerminalBody(body: Body) {
    body.RunCompleted? || body.RunFailed? || body.RunCancelled?
  }

  /** Starts with `run.started`, numbered without gaps from `startSeq`, and at most one
      terminal event, which is last. */
  ghost predicate StreamShape(cfg: Config, delivered: seq<RunEvent>) {
    && |delivered| > 0
    && delivered[0].payload.body == RunStarted
    && (forall i :: 0 <= i < |delivered| ==> delivered[i].seqNo == cfg.startSeq + i && delivered[i].payload.threadId == cfg.threadId && delivered[i].payload.runId == cfg.runId)
    && (forall i :: 0 <= i < |delivered| - 1 ==> !TerminalBody(delivered[i].payload.body))
  }

  ghost predicate StreamInv(cfg: Config, s: State) {
    && StreamShape(cfg, s.delivered)
    && (!s.finished ==> s.nextSeq == cfg.startSeq + |s.delivered|)
    && (s.failed ==> s.finished)
    && (TerminalBody(s.delivered[|s.delivered| - 1].payload.body) <==> s.finished && !s.failed)
  }

  /** The part of a state the event stream lives in. */
  function StreamOf(s: State): (nat, bool, bool, seq<RunEvent>) {
    (s.nextSeq, s.finished, s.failed, s.delivered)
  }

  /** What an action does to the stream. */
  datatype StreamMove = Still | Emits(body: Body) | Finishes(body: Body) | Dies

  ghost predicate Follows(cfg: Config, s: State, t: State, m: StreamMove) {
    match m
    case Still => StreamOf(t) == StreamOf(s)
    case Emits(body) => !TerminalBody(body) && StreamOf(t) == StreamOf(Emit(cfg, s, body))
    case Finishes(body) => TerminalBody(body) && StreamOf(t) == StreamOf(Finish(cfg, s, body))
    case Dies => StreamOf(t) == StreamOf(Die(s))
  }

  lemma MoveKeeps(cfg: Config, s: State, t: State, m: StreamMove)
    requires StreamInv(cfg, s) && Follows(cfg, s, t, m)
    ensures StreamInv(cfg, t)
  {
  }

  function BeginMove(cfg: Config, pc: nat): StreamMove {
    if pc >= |cfg.script| then Dies
    else
      match cfg.script[pc]
      case Token(messageId, delta) => Emits(TokenDelta(messageId, delta))
      case Tool(callId, tool, arguments, _, _) => Emits(ToolRequested(callId, tool, arguments))
      case Complete(closes) => Finishes(RunCompleted(closes))
      case Fail(error, code) => Finishes(RunFailed(error, code))
      case _ => Still
  }

  function ExecuteMove(cfg: Config, callId: string, result: Option<Json>, dispatch: Dispatch): StreamMove {
    if !cfg.hasTools then if result.None? then Dies else Emits(ToolCompleted(callId, result.value, None))
    else
      match dispatch
      case Done(r) => Emits(ToolCompleted(callId, r, None))
      case Errored(error) => Emits(ToolFailed(callId, error, None))
      case UnknownTool(message) => Emits(ToolFailed(callId, message, None))
      case Broken => Dies
  }

  function AdvanceMove(cfg: Config, script: ScriptFiber, dispatch: Dispatch): StreamMove {
    match script
    case At(pc) => BeginMove(cfg, pc)
    case Executing(pc) =>
      if pc < |cfg.script| && cfg.script[pc].Tool? then ExecuteMove(cfg, cfg.script[pc].callId, cfg.script[pc].result, dispatch) else Still
    case Decided(pc, Deny(reason)) =>
      if pc < |cfg.script| && cfg.script[pc].Tool?
      then Emits(ToolFailed(cfg.script[pc].callId, if reason.Some? then reason.value else DENIED, None)) else Still
    case _ => Still
  }

  function InterruptMove(script: ScriptFiber): StreamMove {
    if script.Over? then Still else Finishes(RunCancelled(Some("interrupted")))
  }

  /** What an action asks of the stream, by where the two fibers are. */
  function MoveOf(cfg: Config, script: ScriptFiber, commands: CommandFiber, a: Action): StreamMove {
    match a
    case Advance(dispatch) => AdvanceMove(cfg, script, dispatch)
    case Take(Stop(reason)) => Finishes(RunCancelled(Some(if reason.Some? then reason.value else "stop")))
    case Take(Steer(messageId, text)) => Emits(RunSteered(messageId, text))
    case Take(Decide(_, _)) => Still
    case Continue => if commands.Interrupting? then InterruptMove(script) else Still
    case CloseScope => InterruptMove(script)
  }

  lemma BeginMoves(cfg: Config, s: State, pc: nat)
    requires BeginStep(cfg, s, pc).Some?
    ensures Follows(cfg, s, BeginStep(cfg, s, pc).value, BeginMove(cfg, pc))
  {
  }

  lemma ExecuteMoves(cfg: Config, s: State, pc: nat, callId: string, result: Option<Json>, dispatch: Dispatch)
    ensures Follows(cfg, s, Execute(cfg, s, pc, callId, result, dispatch), ExecuteMove(cfg, callId, result, dispatch))
  {
  }

  lemma AdvanceMoves(cfg: Config, s: State, dispatch: Dispatch)
    requires AdvanceScript(cfg, s, dispatch).Some?
    ensures Follows(cfg, s, AdvanceScript(cfg, s, dispatch).value, AdvanceMove(cfg, s.script, dispatch))
  {
    match s.script
    case At(pc) => BeginMoves(cfg, s, pc);
    case Executing(pc) => ExecuteMoves(cfg, s, pc, cfg.script[pc].callId, cfg.script[pc].result, dispatch);
    case _ =>
  }

  lemma InterruptMoves(cfg: Config, s: State)
    ensures Follows(cfg, s, InterruptScript(cfg, s), InterruptMove(s.script))
  {
  }

  lemma ActMoves(cfg: Config, s: State, a: Action)
    requires Act(cfg, s, a).Some?
    ensures Follows(cfg, s, Act(cfg, s, a).value, MoveOf(cfg, s.script, s.commands, a))
  {
    match a
    case Advance(dispatch) => AdvanceMoves(cfg, s, dispatch);
    case CloseScope => InterruptMoves(cfg, s);
    case Continue => InterruptMoves(cfg, s);
    case Take(_) =>
  }

  /** Over every interleaving: the delivered stream starts with `run.started`, is numbered
      consecutively, and holds at most one terminal event, last; and it holds one exactly when
      the run has finished without failing. */
  lemma {:induction false} EveryStreamIsWellShaped(cfg: Config, run: seq<Action>)
    requires Reached(cfg, run).Some?
    ensures StreamInv(cfg, Reached(cfg, run).value)
    decreases |run|
  {
    if run != [] {
      EveryStreamIsWellShaped(cfg, run[..|run| - 1]);
      var before := Reached(cfg, run[..|run| - 1]).value;
      ActMoves(cfg, before, run[|run| - 1]);
      MoveKeeps(cfg, before, Reached(cfg, run).value, MoveOf(cfg, before.script, before.commands, run[|run| - 1]));
    }
  }

  /** Once finished, a stream is final: no later action adds to it. */
  lemma FinishedStreamIsFinal(cfg: Config, s: State, a: Action)
    requires s.finished && Act(cfg, s, a).Some?
    ensures Act(cfg, s, a).value.finished && Act(cfg, s, a).value.delivered == s.delivered && Act(cfg, s, a).value.failed == s.failed
  {
    ActMoves(cfg, s, a);
  }

  // ---- the gates ----

  /** A step the script can get past: it is no terminal one, and its call, if it has one that no
      gate can deny, has somewhere to come from. */
  predicate Passable(cfg: Config, pc: nat) {
    pc < |cfg.script|
    && match cfg.script[pc]
       case Complete(_) => false
       case Fail(_, _) => false
       case Tool(_, _, _, result, gated) => gated || cfg.hasTools || result.Some?
       case _ => true
  }

  predicate PassableTo(cfg: Config, pc: nat) {
    forall k :: 0 <= k < pc ==> Passable(cfg, k)
  }

  /** A gate the script can reach. */
  predicate GateAt(cfg: Config, pc: nat, callId: string) {
    pc < |cfg.script| && cfg.script[pc].Tool? && cfg.script[pc].gated && cfg.script[pc].callId == callId && PassableTo(cfg, pc)
  }

  /** No two gates the script can reach are for one call. */
  ghost predicate UniqueGates(cfg: Config) {
    forall i: nat, j: nat, c :: GateAt(cfg, i, c) && GateAt(cfg, j, c) ==> i == j
  }

  /** The step whose gate, if it has one, is still to be registered. */
  function Frontier(script: ScriptFiber): nat {
    match script
    case At(pc) => pc
    case Gate(pc) => pc
    case Awaiting(pc, _) => pc + 1
    case Decided(pc, _) => pc + 1
    case Executing(pc) => pc + 1
    case Over => 0
  }

  /** A gate not yet registered keeps the first decision for it, waiting in its slot. */
  ghost predicate GatesAhead(cfg: Config, s: State) {
    !s.script.Over? ==>
      forall pc: nat, c :: Frontier(s.script) <= pc && GateAt(cfg, pc, c) ==>
        && c !in s.resolved
        && (c in s.heard <==> c in s.slots)
        && (c in s.slots ==> s.slots[c] == Early(s.heard[c]))
  }

  /** The registered gate: nobody has decided yet and its slot waits, or its decision is on its
      way, or it is there; and it is the first one in either case. */
  ghost predicate GateNow(cfg: Config, s: State) {
    s.script.Awaiting? ==>
      var pc, d := s.script.pc, s.script.deferred;
      && pc < |cfg.script| && cfg.script[pc].Tool? && d < |s.deferreds|
      && var c := cfg.script[pc].callId;
         && c !in s.resolved
         && (c !in s.heard ==> c in s.slots && s.slots[c] == Waiting(d) && s.deferreds[d].None?)
         && (c in s.heard ==> || s.deferreds[d] == Some(s.heard[c])
                              || (s.deferreds[d].None? && s.commands == Delivering(d, s.heard[c]) && c !in s.slots))
  }

  /** No slot waits but the script's own. */
  ghost predicate OwnSlots(cfg: Config, s: State) {
    forall c :: c in s.slots && s.slots[c].Waiting? ==>
      && s.script.Awaiting? && GateAt(cfg, s.script.pc, c) && s.slots[c].deferred == s.script.deferred && c !in s.heard
  }

  ghost predicate FirstDecisionWins(s: State) {
    forall c :: c in s.resolved ==> c in s.heard && s.resolved[c] == s.heard[c]
  }

  /** Everything before the step the script is at was passable, and it waits at gates only. */
  ghost predicate OnPath(cfg: Config, script: ScriptFiber) {
    match script
    case At(pc) => PassableTo(cfg, pc)
    case Gate(pc) => IsGate(cfg, pc)
    case Awaiting(pc, _) => IsGate(cfg, pc)
    case Decided(pc, _) => IsGate(cfg, pc)
    case Executing(pc) => pc < |cfg.script| && cfg.script[pc].Tool? && PassableTo(cfg, pc)
    case Over => true
  }

  predicate IsGate(cfg: Config, pc: nat) {
    pc < |cfg.script| && cfg.script[pc].Tool? && GateAt(cfg, pc, cfg.script[pc].callId)
  }

  ghost predicate Placed(cfg: Config, s: State) {
    && OnPath(cfg, s.script)
    && (s.commands.Delivering? ==> s.commands.deferred < |s.deferreds|)
    && (s.commands.Delivering? && s.deferreds[s.commands.deferred].None? ==>
          || s.script.Over?
          || (s.script.Awaiting? && s.commands.deferred == s.script.deferred && s.script.pc < |cfg.script|
              && cfg.script[s.script.pc].Tool? && cfg.script[s.script.pc].callId in s.heard))
  }

  ghost predicate GateInv(cfg: Config, s: State) {
    GatesAhead(cfg, s) && GateNow(cfg, s) && OwnSlots(cfg, s) && FirstDecisionWins(s) && Placed(cfg, s)
  }

  lemma RegisterKeepsGates(cfg: Config, s: State, pc: nat)
    requires UniqueGates(cfg) && GateInv(cfg, s) && s.script == Gate(pc)
    ensures GateInv(cfg, RegisterGate(s, pc, cfg.script[pc].callId))
  {
    var c := cfg.script[pc].callId;
    assert GateAt(cfg, pc, c);
    var t := RegisterGate(s, pc, c);
    assert forall pc': nat, c' :: pc + 1 <= pc' && GateAt(cfg, pc', c') ==> c' != c;
  }

  lemma ResolveKeepsGates(cfg: Config, s: State, pc: nat, d: nat)
    requires UniqueGates(cfg) && GateInv(cfg, s) && s.script == Awaiting(pc, d) && s.deferreds[d].Some?
    ensures GateInv(cfg, Resolve(Withdraw(cfg, s), pc, cfg.script[pc].callId, s.deferreds[d].value))
  {
  }

  lemma PlainMoveKeepsGates(cfg: Config, s: State, t: State)
    requires GateInv(cfg, s) && PlainMove(cfg, s, t) && OnPath(cfg, t.script)
    ensures GateInv(cfg, t)
  {
  }

  /** The call a registered gate waits for is not one still ahead. */
  lemma AwaitedIsBehind(cfg: Config, s: State)
    requires UniqueGates(cfg) && s.script.Awaiting? && IsGate(cfg, s.script.pc)
    ensures forall pc: nat, c :: s.script.pc + 1 <= pc && GateAt(cfg, pc, c) ==> c != cfg.script[s.script.pc].callId
  {
  }

  lemma DeliverToSlot(cfg: Config, s: State, callId: string, outcome: Outcome)
    requires UniqueGates(cfg) && GateInv(cfg, s) && s.commands.Idle? && callId in s.slots
    ensures GateInv(cfg, Deliver(s, callId, outcome))
  {
    if s.script.Awaiting? {
      AwaitedIsBehind(cfg, s);
    }
    if s.slots[callId].Waiting? {
      assert GateAt(cfg, s.script.pc, callId);
    }
  }

  lemma DeliverEarly(cfg: Config, s: State, callId: string, outcome: Outcome)
    requires UniqueGates(cfg) && GateInv(cfg, s) && s.commands.Idle? && callId !in s.slots
    ensures GateInv(cfg, Deliver(s, callId, outcome))
  {
  }

  lemma InterruptKeepsGates(cfg: Config, s: State)
    requires GateInv(cfg, s)
    ensures GateInv(cfg, InterruptScript(cfg, s))
  {
  }

  lemma ContinueKeepsGates(cfg: Config, s: State)
    requires GateInv(cfg, s) && s.commands.Delivering?
    ensures GateInv(cfg, ContinueCommand(cfg, s).value)
  {
  }

  /** A script move from `s` to `t` that touches no gate. */
  ghost predicate PlainMove(cfg: Config, s: State, t: State) {
    && t.slots == s.slots && t.heard == s.heard && t.resolved == s.resolved && t.deferreds == s.deferreds && t.commands == s.commands
    && !s.script.Awaiting? && !t.script.Awaiting?
    && (!t.script.Over? ==> !s.script.Over? && Frontier(s.script) <= Frontier(t.script))
  }

  lemma PathGrows(cfg: Config, pc: nat)
    requires PassableTo(cfg, pc) && Passable(cfg, pc)
    ensures PassableTo(cfg, pc + 1)
  {
  }

  lemma BeginStaysOnPath(cfg: Config, s: State, pc: nat)
    requires s.script == At(pc) && PassableTo(cfg, pc) && BeginStep(cfg, s, pc).Some?
    ensures OnPath(cfg, BeginStep(cfg, s, pc).value.script)
  {
    if Passable(cfg, pc) {
      PathGrows(cfg, pc);
    }
  }

  lemma BeginIsPlain(cfg: Config, s: State, pc: nat)
    requires s.script == At(pc) && BeginStep(cfg, s, pc).Some?
    ensures PlainMove(cfg, s, BeginStep(cfg, s, pc).value)
  {
    var t := BeginStep(cfg, s, pc).value;
    if pc >= |cfg.script| {
      assert t == Die(s);
      return;
    }
    match cfg.script[pc]
    case Token(messageId, delta) => assert t == Emit(cfg, s, TokenDelta(messageId, delta)).(script := At(pc + 1));
    case Tool(callId, tool, arguments, _, gated) =>
      assert t == Emit(cfg, s, ToolRequested(callId, tool, arguments)).(script := if gated then Gate(pc) else Executing(pc));
    case Complete(closes) => assert t == Finish(cfg, s, RunCompleted(closes)).(script := Over);
    case Fail(error, code) => assert t == Finish(cfg, s, RunFailed(error, code)).(script := Over);
    case _ =>
  }

  lemma ExecuteIsPlain(cfg: Config, s: State, pc: nat, callId: string, result: Option<Json>, dispatch: Dispatch)
    requires s.script == Executing(pc) && OnPath(cfg, s.script) && result == cfg.script[pc].result
    ensures PlainMove(cfg, s, Execute(cfg, s, pc, callId, result, dispatch)) && OnPath(cfg, Execute(cfg, s, pc, callId, result, dispatch).script)
  {
    if Passable(cfg, pc) {
      PathGrows(cfg, pc);
    }
  }

  lemma AdvanceKeepsGates(cfg: Config, s: State, dispatch: Dispatch)
    requires UniqueGates(cfg) && GateInv(cfg, s) && AdvanceScript(cfg, s, dispatch).Some?
    ensures GateInv(cfg, AdvanceScript(cfg, s, dispatch).value)
  {
    var t := AdvanceScript(cfg, s, dispatch).value;
    match s.script
    case Gate(pc) => RegisterKeepsGates(cfg, s, pc);
    case Awaiting(pc, d) => ResolveKeepsGates(cfg, s, pc, d);
    case At(pc) =>
      BeginIsPlain(cfg, s, pc);
      BeginStaysOnPath(cfg, s, pc);
      PlainMoveKeepsGates(cfg, s, t);
    case Executing(pc) =>
      ExecuteIsPlain(cfg, s, pc, cfg.script[pc].callId, cfg.script[pc].result, dispatch);
      PlainMoveKeepsGates(cfg, s, t);
    case Decided(pc, outcome) =>
      PathGrows(cfg, pc);
      PlainMoveKeepsGates(cfg, s, t);
  }

  lemma ActKeepsGates(cfg: Config, s: State, a: Action)
    requires UniqueGates(cfg) && GateInv(cfg, s) && Act(cfg, s, a).Some?
    ensures GateInv(cfg, Act(cfg, s, a).value)
  {
    match a
    case Advance(dispatch) => AdvanceKeepsGates(cfg, s, dispatch);
    case Take(Decide(callId, outcome)) =>
      if callId in s.slots {
        DeliverToSlot(cfg, s, callId, outcome);
      } else {
        DeliverEarly(cfg, s, callId, outcome);
      }
    case Take(command) => OtherCommandKeepsGates(cfg, s, TakeCommand(cfg, s, command));
    case Continue =>
      if s.commands.Interrupting? {
        InterruptKeepsGates(cfg, s);
        IdleKeepsGates(cfg, InterruptScript(cfg, s));
      } else {
        ContinueKeepsGates(cfg, s);
      }
    case CloseScope => InterruptKeepsGates(cfg, s);
  }

  /** A stop or a steer: no slot, decision or deferred changes. */
  lemma OtherCommandKeepsGates(cfg: Config, s: State, t: State)
    requires GateInv(cfg, s) && s.commands.Idle? && !t.commands.Delivering?
    requires t.slots == s.slots && t.heard == s.heard && t.resolved == s.resolved && t.deferreds == s.deferreds && t.script == s.script
    ensures GateInv(cfg, t)
  {
  }

  lemma IdleKeepsGates(cfg: Config, s: State)
    requires GateInv(cfg, s) && s.script.Over?
    ensures GateInv(cfg, s.(commands := Idle))
  {
  }

  /** When no two gates within reach share a call, over every interleaving: every gate resolves with the first
      decision ever delivered for its call, whether that came before or after the wait, and no
      gate waits whose decision was delivered. */
  lemma {:induction false} GatesResolveWithTheFirstDecision(cfg: Config, run: seq<Action>)
    requires UniqueGates(cfg) && Reached(cfg, run).Some?
    ensures var s := Reached(cfg, run).value;
            && GateInv(cfg, s)
            && (forall c :: c in s.resolved ==> c in s.heard && s.resolved[c] == s.heard[c])
            && (forall c :: c in s.slots && s.slots[c].Waiting? ==> c !in s.heard)
    decreases |run|
  {
    if run != [] {
      GatesResolveWithTheFirstDecision(cfg, run[..|run| - 1]);
      ActKeepsGates(cfg, Reached(cfg, run[..|run| - 1]).value, run[|run| - 1]);
    }
  }

  /** A gate whose decision has been delivered is never stuck: at most one command action
      stands between it and waking. */
  lemma DecidedGateWakes(cfg: Config, run: seq<Action>)
    requires UniqueGates(cfg) && Reached(cfg, run).Some?
    requires Reached(cfg, run).value.script.Awaiting?
    requires var s := Reached(cfg, run).value; IsGate(cfg, s.script.pc) && cfg.script[s.script.pc].callId in s.heard
    ensures var s := Reached(cfg, run).value;
            || Act(cfg, s, Advance(Broken)).Some?
            || (Act(cfg, s, Continue).Some? && Act(cfg, Act(cfg, s, Continue).value, Advance(Broken)).Some?)
  {
    GatesResolveWithTheFirstDecision(cfg, run);
  }

  // ---- and only then ----

  lemma OneMore(cfg: Config, run: seq<Action>, a: Action)
    requires Reached(cfg, run).Some?
    ensures Reached(cfg, run + [a]) == Act(cfg, Reached(cfg, run).value, a)
  {
  }

  lemma Then(cfg: Config, run: seq<Action>, s: State, a: Action) returns (longer: seq<Action>, t: State)
    requires Reached(cfg, run) == Some(s) && Act(cfg, s, a).Some?
    ensures Act(cfg, s, a) == Some(t) && Reached(cfg, longer) == Some(t)
  {
    OneMore(cfg, run, a);
    longer, t := run + [a], Act(cfg, s, a).value;
  }

  /** The operator has denied every gate so far, each before the script came to it. */
  ghost predicate AllDenied(cfg: Config, s: State, pc: nat) {
    && s.script == At(pc) && s.commands.Idle? && s.slots == map[]
    && (forall c :: c in s.heard ==> s.heard[c] == Deny(None))
    && (forall i: nat, c :: i < pc && GateAt(cfg, i, c) ==> c in s.heard)
  }

  lemma PassStep(cfg: Config, run: seq<Action>, s: State, pc: nat) returns (longer: seq<Action>, t: State)
    requires Reached(cfg, run) == Some(s) && AllDenied(cfg, s, pc) && Passable(cfg, pc) && !(cfg.script[pc].Tool? && cfg.script[pc].gated)
    ensures Reached(cfg, longer) == Some(t) && AllDenied(cfg, t, pc + 1)
  {
    longer, t := run, s;
    if cfg.script[pc].AwaitSteer? {
      longer, t := Then(cfg, longer, t, Take(Steer("", "")));
    }
    longer, t := Then(cfg, longer, t, Advance(Done("")));
    if cfg.script[pc].Tool? {
      longer, t := Then(cfg, longer, t, Advance(Done("")));
    }
  }

  /** The decision is there before its gate is. */
  lemma DecideGate(cfg: Config, run: seq<Action>, s: State, pc: nat, outcome: Outcome) returns (longer: seq<Action>, t: State)
    requires Reached(cfg, run) == Some(s) && AllDenied(cfg, s, pc) && IsGate(cfg, pc)
    ensures Reached(cfg, longer) == Some(t) && t.script == Decided(pc, outcome) && t.commands.Idle? && t.slots == map[]
    ensures var c := cfg.script[pc].callId;
            t.resolved == s.resolved[c := outcome] && t.heard == if c in s.heard then s.heard else s.heard[c := outcome]
  {
    var c := cfg.script[pc].callId;
    longer, t := Then(cfg, run, s, Take(Decide(c, outcome)));
    assert t.slots == map[c := Early(outcome)];
    longer, t := Then(cfg, longer, t, Advance(Broken));
    longer, t := Then(cfg, longer, t, Advance(Broken));
    assert map[c := Early(outcome)] - {c} == map[];
  }

  lemma PassGate(cfg: Config, run: seq<Action>, s: State, pc: nat) returns (longer: seq<Action>, t: State)
    requires Reached(cfg, run) == Some(s) && AllDenied(cfg, s, pc) && IsGate(cfg, pc)
    ensures Reached(cfg, longer) == Some(t) && AllDenied(cfg, t, pc + 1)
  {
    longer, t := DecideGate(cfg, run, s, pc, Deny(None));
    longer, t := Then(cfg, longer, t, Advance(Broken));
  }

  /** Every step within reach is reached, with every gate before it denied. */
  lemma {:induction false} Drive(cfg: Config, pc: nat) returns (run: seq<Action>, s: State)
    requires PassableTo(cfg, pc)
    ensures Reached(cfg, run) == Some(s) && AllDenied(cfg, s, pc)
    decreases pc
  {
    if pc == 0 {
      run, s := [], Init(cfg);
    } else {
      assert Passable(cfg, pc - 1);
      run, s := Drive(cfg, pc - 1);
      if cfg.script[pc - 1].Tool? && cfg.script[pc - 1].gated {
        run, s := PassGate(cfg, run, s, pc - 1);
      } else {
        run, s := PassStep(cfg, run, s, pc - 1);
      }
    }
  }

  /** A call with two gates within reach: the second takes a later decision than the first one
      that was delivered. */
  lemma RepeatedGateTakesALaterDecision(cfg: Config, i: nat, j: nat, c: string) returns (run: seq<Action>)
    requires i < j && GateAt(cfg, i, c) && GateAt(cfg, j, c)
    ensures Reached(cfg, run).Some?
    ensures var s := Reached(cfg, run).value; c in s.resolved && s.resolved[c] == Approve && c in s.heard && s.heard[c] == Deny(None)
  {
    var s: State;
    run, s := Drive(cfg, j);
    run, s := DecideGate(cfg, run, s, j, Approve);
  }

  /** For every script, with or without tools: the first decision delivered for a call is what its
      gates resolve with, in every run, exactly when no two gates the script can reach are for one
      call. A call repeated without a gate, or behind a step that ends the run, does no harm. */
  lemma FirstDecisionWinsWhen(cfg: Config)
    ensures (forall run :: Reached(cfg, run).Some? ==> FirstDecisionWins(Reached(cfg, run).value)) <==> UniqueGates(cfg)
  {
    if UniqueGates(cfg) {
      forall run | Reached(cfg, run).Some?
        ensures FirstDecisionWins(Reached(cfg, run).value)
      {
        GatesResolveWithTheFirstDecision(cfg, run);
      }
    } else {
      var i: nat, j: nat, c :| GateAt(cfg, i, c) && GateAt(cfg, j, c) && i != j;
      var run := RepeatedGateTakesALaterDecision(cfg, if i < j then i else j, if i < j then j else i, c);
      assert !FirstDecisionWins(Reached(cfg, run).value);
    }
  }
}
