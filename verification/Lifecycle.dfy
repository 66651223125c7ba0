/**
 * Idle parking and boot-time reconciliation of computers
 * (apps/supervisor/src/computer-lifecycle.ts).
 *
 * The tracker is the process's two variables with the requests, sweeps and reconciliations that
 * touch them as atomic actions between awaits, in any order; every clock reading is a parameter.
 * `touched`, `commands`, `stops` and the count of steps are history. The two loops are methods
 * over the same steps.
 */
module Lifecycle {
  import opened ByteStreams

  datatype MachineState = Running | Stopped | Gone

  datatype Listed = Listed(id: string, state: MachineState)

  /** A command, by the steps at which it began and ended. */
  datatype Command = Command(id: string, begun: nat, ended: Option<nat>)

  /** A stop the sweep has called: when, by the clock and by the step, and whether it has come back. */
  datatype StopCall = StopCall(id: string, at: int, issued: nat, settled: bool)

  datatype Tracker = Tracker(lastActivity: map<string, int>, busy: set<string>, clock: int, steps: nat, touched: map<string, int>,
                             commands: seq<Command>, stops: seq<StopCall>)

  /** `SettleStop` is where an awaited stop comes back: by then the machine is down, if it succeeded. */
  datatype Action =
    | Touch(id: string, at: int)
    | Begin(id: string, at: int)
    | End(command: nat)
    | Forget(id: string)
    | Consider(machine: Listed, sightedAt: int, checkedAt: int)
    | SettleStop(stop: nat, succeeded: bool)

  function Start(now: int): Tracker {
    Tracker(map[], {}, now, 0, map[], [], [])
  }

  predicate InFlight(t: Tracker, k: nat) {
    k < |t.commands| && t.commands[k].ended.None?
  }

  predicate Pending(t: Tracker, n: nat) {
    n < |t.stops| && !t.stops[n].settled
  }

  /** The sweep looks at one listed machine: nothing, a first sighting, or a stop. */
  predicate Candidate(t: Tracker, m: Listed) {
    m.state == Running && m.id !in t.busy
  }

  function LastSeen(t: Tracker, id: string, sightedAt: int): int {
    if id in t.lastActivity then t.lastActivity[id] else sightedAt
  }

  predicate Stops(t: Tracker, m: Listed, sightedAt: int, checkedAt: int, idleTimeoutMs: int) {
    0 < idleTimeoutMs && Candidate(t, m) && checkedAt - LastSeen(t, m.id, sightedAt) >= idleTimeoutMs
  }

  function Considered(t: Tracker, m: Listed, sightedAt: int, checkedAt: int, idleTimeoutMs: int): Tracker {
    if !Candidate(t, m) then t
    else
      var seen := t.(lastActivity := t.lastActivity[m.id := LastSeen(t, m.id, sightedAt)], clock := checkedAt);
      if Stops(t, m, sightedAt, checkedAt, idleTimeoutMs) then seen.(stops := t.stops + [StopCall(m.id, checkedAt, t.steps, false)]) else seen
  }

  function Touched(t: Tracker, id: string, at: int): Tracker {
    t.(lastActivity := t.lastActivity[id := at], clock := at, touched := t.touched[id := at])
  }

  /** One action; None if its clock runs backwards, if it ends a command or a stop that is not
      under way, or if it is a look of the sweep and no idle timeout is set: the sweep then does
      nothing at all. A stop that has succeeded and a destroy both forget the machine. */
  function Effect(t: Tracker, a: Action, idleTimeoutMs: int): Option<Tracker> {
    match a
    case Touch(id, at) => if at < t.clock then None else Some(Touched(t, id, at))
    case Begin(id, at) =>
      if at < t.clock then None
      else Some(Touched(t, id, at).(busy := t.busy + {id}, commands := t.commands + [Command(id, t.steps, None)]))
    case End(k) =>
      if !InFlight(t, k) then None
      else Some(t.(busy := t.busy - {t.commands[k].id}, commands := t.commands[k := t.commands[k].(ended := Some(t.steps))]))
    case Forget(id) => Some(t.(lastActivity := t.lastActivity - {id}))
    case Consider(m, sightedAt, checkedAt) =>
      if 0 < idleTimeoutMs && t.clock <= sightedAt <= checkedAt then Some(Considered(t, m, sightedAt, checkedAt, idleTimeoutMs)) else None
    case SettleStop(n, succeeded) =>
      if !Pending(t, n) then None
      else Some(t.(stops := t.stops[n := t.stops[n].(settled := true)], lastActivity := if succeeded then t.lastActivity - {t.stops[n].id} else t.lastActivity))
  }

  function Act(t: Tracker, a: Action, idleTimeoutMs: int): Option<Tracker> {
    match Effect(t, a, idleTimeoutMs)
    case None => None
    case Some(next) => Some(next.(steps := t.steps + 1))
  }

  function Follow(t: Tracker, run: seq<Action>, idleTimeoutMs: int): Option<Tracker>
    decreases |run|
  {
    if run == [] then Some(t)
    else
      match Follow(t, run[..|run| - 1], idleTimeoutMs)
      case None => None
      case Some(next) => Act(next, run[|run| - 1], idleTimeoutMs)
  }

  function Reached(now: int, run: seq<Action>, idleTimeoutMs: int): Option<Tracker> {
    Follow(Start(now), run, idleTimeoutMs)
  }

  // ---- the sweep parks only what is idle ----

  ghost predicate ClockInv(t: Tracker) {
    && (forall id :: id in t.lastActivity ==> t.lastActivity[id] <= t.clock)
    && (forall id :: id in t.touched ==> t.touched[id] <= t.clock)
    && (forall id :: id in t.lastActivity && id in t.touched ==> t.touched[id] <= t.lastActivity[id])
  }

  lemma {:induction false} ClockStaysSound(now: int, run: seq<Action>, idleTimeoutMs: int)
    requires Reached(now, run, idleTimeoutMs).Some?
    ensures ClockInv(Reached(now, run, idleTimeoutMs).value)
    decreases |run|
  {
    if run != [] {
      ClockStaysSound(now, run[..|run| - 1], idleTimeoutMs);
    }
  }

  /** A stop is issued only with an idle timeout set, for a machine listed running, not marked busy, and at least the
      timeout after every touch of it; and after its first sighting, if it was forgotten since. */
  lemma OnlyIdleMachinesAreStopped(now: int, run: seq<Action>, idleTimeoutMs: int, m: Listed, sightedAt: int, checkedAt: int)
    requires Reached(now, run, idleTimeoutMs).Some?
    requires var t := Reached(now, run, idleTimeoutMs).value;
             t.clock <= sightedAt <= checkedAt && |Considered(t, m, sightedAt, checkedAt, idleTimeoutMs).stops| > |t.stops|
    ensures var t := Reached(now, run, idleTimeoutMs).value;
            && 0 < idleTimeoutMs && m.state == Running && m.id !in t.busy
            && (m.id in t.touched ==> checkedAt - t.touched[m.id] >= idleTimeoutMs)
            && (m.id !in t.lastActivity ==> checkedAt - sightedAt >= idleTimeoutMs)
  {
    ClockStaysSound(now, run, idleTimeoutMs);
  }

  // ---- a stop and the commands it takes effect under ----

  /** Another command of the machine ended after `k` began, and none began between that and step `limit`. */
  ghost predicate LostItsMark(commands: seq<Command>, k: nat, limit: nat)
    requires k < |commands|
  {
    exists j :: 0 <= j < |commands| && j != k && Unmarks(commands, k, j, limit)
  }

  ghost predicate Unmarks(commands: seq<Command>, k: nat, j: nat, limit: nat)
    requires k < |commands| && j < |commands|
  {
    && commands[j].id == commands[k].id && commands[j].ended.Some? && commands[k].begun < commands[j].ended.value < limit
    && forall m :: 0 <= m < |commands| && commands[m].id == commands[k].id && commands[m].begun < limit ==> commands[m].begun < commands[j].ended.value
  }

  ghost predicate StepsOk(t: Tracker) {
    && (forall k :: 0 <= k < |t.commands| ==> t.commands[k].begun < t.steps)
    && (forall k :: 0 <= k < |t.commands| && t.commands[k].ended.Some? ==> t.commands[k].ended.value < t.steps)
    && (forall n :: 0 <= n < |t.stops| ==> t.stops[n].issued < t.steps)
  }

  /** The command is in flight on the machine, and no other has ended there since it began. */
  predicate Marks(t: Tracker, k: nat, id: string) {
    InFlight(t, k) && t.commands[k].id == id
    && forall j :: 0 <= j < |t.commands| && t.commands[j].id == id && t.commands[j].ended.Some? ==> t.commands[j].ended.value < t.commands[k].begun
  }

  /** A machine is marked for such a command, and a command in flight that is not marked lost its mark. */
  ghost predicate MarksOk(t: Tracker) {
    && (forall id :: id in t.busy ==> exists k: nat :: Marks(t, k, id))
    && (forall k: nat :: InFlight(t, k) && t.commands[k].id !in t.busy ==> LostItsMark(t.commands, k, t.steps))
  }

  /** A command that was in flight when a stop of its machine was issued had lost its mark. */
  ghost predicate StopsOk(t: Tracker) {
    forall n: nat, k: nat :: Pending(t, n) && InFlight(t, k) && t.commands[k].id == t.stops[n].id && t.commands[k].begun < t.stops[n].issued ==>
      LostItsMark(t.commands, k, t.stops[n].issued)
  }

  ghost predicate CommandInv(t: Tracker) {
    StepsOk(t) && MarksOk(t) && StopsOk(t)
  }

  /** What was true of a mark before a step stays true after any later one. */
  lemma MarkLossStays(before: seq<Command>, after: seq<Command>, k: nat, limit: nat)
    requires k < |before| <= |after| && LostItsMark(before, k, limit)
    requires forall j :: 0 <= j < |before| ==> after[j].id == before[j].id && after[j].begun == before[j].begun
    requires forall j :: 0 <= j < |before| && before[j].ended.Some? ==> after[j] == before[j]
    requires forall j :: |before| <= j < |after| ==> limit <= after[j].begun
    ensures LostItsMark(after, k, limit)
  {
    var j: nat :| 0 <= j < |before| && j != k && Unmarks(before, k, j, limit);
    assert Unmarks(after, k, j, limit);
  }

  lemma LaterLosesToo(commands: seq<Command>, k: nat, limit: nat, later: nat)
    requires k < |commands| && LostItsMark(commands, k, limit) && limit <= later
    requires forall j :: 0 <= j < |commands| ==> commands[j].begun < limit
    ensures LostItsMark(commands, k, later)
  {
    var j: nat :| 0 <= j < |commands| && j != k && Unmarks(commands, k, j, limit);
    assert Unmarks(commands, k, j, later);
  }

  lemma BeginKeeps(t: Tracker, id: string, at: int, idleTimeoutMs: int)
    requires CommandInv(t) && Act(t, Begin(id, at), idleTimeoutMs).Some?
    ensures CommandInv(Act(t, Begin(id, at), idleTimeoutMs).value)
  {
    var next := Act(t, Begin(id, at), idleTimeoutMs).value;
    assert Marks(next, |t.commands|, id);
    forall b | b in next.busy
      ensures exists k: nat :: Marks(next, k, b)
    {
      if b != id {
        var k: nat :| Marks(t, k, b);
        assert Marks(next, k, b);
      }
    }
    forall k: nat | InFlight(next, k) && next.commands[k].id !in next.busy
      ensures LostItsMark(next.commands, k, next.steps)
    {
      assert InFlight(t, k);
      LosesWithoutIt(t, next, k, id);
    }
    forall n: nat, k: nat | Pending(next, n) && InFlight(next, k) && next.commands[k].id == next.stops[n].id && next.commands[k].begun < next.stops[n].issued
      ensures LostItsMark(next.commands, k, next.stops[n].issued)
    {
      assert Pending(t, n) && InFlight(t, k);
      MarkLossStays(t.commands, next.commands, k, t.stops[n].issued);
    }
  }

  lemma LosesWithoutIt(t: Tracker, next: Tracker, k: nat, id: string)
    requires StepsOk(t) && k < |t.commands| && LostItsMark(t.commands, k, t.steps) && t.commands[k].id != id
    requires next.commands == t.commands + [Command(id, t.steps, None)] && next.steps == t.steps + 1
    ensures LostItsMark(next.commands, k, next.steps)
  {
    var j: nat :| 0 <= j < |t.commands| && j != k && Unmarks(t.commands, k, j, t.steps);
    assert Unmarks(next.commands, k, j, next.steps);
  }

  lemma EndKeeps(t: Tracker, e: nat, idleTimeoutMs: int)
    requires CommandInv(t) && InFlight(t, e)
    ensures CommandInv(Act(t, End(e), idleTimeoutMs).value)
  {
    var next := Act(t, End(e), idleTimeoutMs).value;
    forall b | b in next.busy
      ensures exists k: nat :: Marks(next, k, b)
    {
      var k: nat :| Marks(t, k, b);
      assert Marks(next, k, b);
    }
    forall k: nat | InFlight(next, k) && next.commands[k].id !in next.busy
      ensures LostItsMark(next.commands, k, next.steps)
    {
      assert InFlight(t, k);
      if t.commands[k].id == t.commands[e].id {
        assert Unmarks(next.commands, k, e, next.steps);
      } else {
        MarkLossStays(t.commands, next.commands, k, t.steps);
        LaterLosesToo(next.commands, k, t.steps, next.steps);
      }
    }
    forall n: nat, k: nat | Pending(next, n) && InFlight(next, k) && next.commands[k].id == next.stops[n].id && next.commands[k].begun < next.stops[n].issued
      ensures LostItsMark(next.commands, k, next.stops[n].issued)
    {
      assert Pending(t, n) && InFlight(t, k);
      MarkLossStays(t.commands, next.commands, k, t.stops[n].issued);
    }
  }

  lemma RestKeeps(t: Tracker, a: Action, idleTimeoutMs: int)
    requires CommandInv(t) && Act(t, a, idleTimeoutMs).Some? && !a.Begin? && !a.End?
    ensures CommandInv(Act(t, a, idleTimeoutMs).value)
  {
    var next := Act(t, a, idleTimeoutMs).value;
    forall b | b in next.busy
      ensures exists k: nat :: Marks(next, k, b)
    {
      var k: nat :| Marks(t, k, b);
      assert Marks(next, k, b);
    }
    forall k: nat | InFlight(next, k) && next.commands[k].id !in next.busy
      ensures LostItsMark(next.commands, k, next.steps)
    {
      assert InFlight(t, k);
      LaterLosesToo(t.commands, k, t.steps, next.steps);
    }
    forall n: nat, k: nat | Pending(next, n) && InFlight(next, k) && next.commands[k].id == next.stops[n].id && next.commands[k].begun < next.stops[n].issued
      ensures LostItsMark(next.commands, k, next.stops[n].issued)
    {
      assert InFlight(t, k);
      if n < |t.stops| {
        assert Pending(t, n);
      } else {
        assert t.commands[k].id !in t.busy;
      }
    }
  }

  lemma {:induction false} CommandsStaySound(now: int, run: seq<Action>, idleTimeoutMs: int)
    requires Reached(now, run, idleTimeoutMs).Some?
    ensures CommandInv(Reached(now, run, idleTimeoutMs).value)
    decreases |run|
  {
    if run != [] {
      var init, a := run[..|run| - 1], run[|run| - 1];
      CommandsStaySound(now, init, idleTimeoutMs);
      var t := Reached(now, init, idleTimeoutMs).value;
      if a.Begin? {
        BeginKeeps(t, a.id, a.at, idleTimeoutMs);
      } else if a.End? {
        EndKeeps(t, a.command, idleTimeoutMs);
      } else {
        RestKeeps(t, a, idleTimeoutMs);
      }
    }
  }

  /** The command is on the stop's machine and in flight. */
  predicate Under(t: Tracker, n: nat, k: nat) {
    Pending(t, n) && InFlight(t, k) && t.commands[k].id == t.stops[n].id
  }

  /** In every run, a command a stop takes effect under began while the stop was pending, or had
      overlapped another whose end cleared the mark before the stop was issued; never both. */
  lemma CutOffBecause(now: int, run: seq<Action>, idleTimeoutMs: int, n: nat, k: nat)
    requires Reached(now, run, idleTimeoutMs).Some? && Under(Reached(now, run, idleTimeoutMs).value, n, k)
    ensures var t := Reached(now, run, idleTimeoutMs).value;
            t.commands[k].begun > t.stops[n].issued <==> !LostItsMark(t.commands, k, t.stops[n].issued)
  {
    CommandsStaySound(now, run, idleTimeoutMs);
    StepsApart(now, run, idleTimeoutMs);
  }

  /** In every reached state a machine is marked exactly while some command is in flight there since
      whose beginning no other has ended. */
  lemma MarkedWhen(now: int, run: seq<Action>, idleTimeoutMs: int, id: string)
    requires Reached(now, run, idleTimeoutMs).Some?
    ensures var t := Reached(now, run, idleTimeoutMs).value;
            id in t.busy <==> exists k: nat :: Marks(t, k, id)
  {
    CommandsStaySound(now, run, idleTimeoutMs);
  }

  /** A step that begins a command issues no stop. */
  lemma {:induction false} StepsApart(now: int, run: seq<Action>, idleTimeoutMs: int)
    requires Reached(now, run, idleTimeoutMs).Some?
    ensures var t := Reached(now, run, idleTimeoutMs).value;
            forall k, n :: 0 <= k < |t.commands| && 0 <= n < |t.stops| ==> t.commands[k].begun != t.stops[n].issued
    decreases |run|
  {
    if run != [] {
      StepsApart(now, run[..|run| - 1], idleTimeoutMs);
      CommandsStaySound(now, run[..|run| - 1], idleTimeoutMs);
    }
  }

  // ---- when a command can still be cut off ----

  /** No command begins or ends. */
  predicate Quiet(run: seq<Action>) {
    forall a :: a in run ==> !a.Begin? && !a.End?
  }

  ghost predicate StopPends(t: Tracker, id: string) {
    exists n: nat :: Pending(t, n) && t.stops[n].id == id
  }

  /** Some continuation, with no other command of any machine beginning or ending, ends with a stop
      of this machine about to come back. */
  ghost predicate CanBeCutOff(t: Tracker, id: string, idleTimeoutMs: int) {
    exists more :: Quiet(more) && Follow(t, more, idleTimeoutMs).Some? && StopPends(Follow(t, more, idleTimeoutMs).value, id)
  }

  lemma {:induction false} MarkedStaysSafe(t: Tracker, more: seq<Action>, id: string, idleTimeoutMs: int)
    requires id in t.busy && !StopPends(t, id) && Quiet(more) && Follow(t, more, idleTimeoutMs).Some?
    ensures var next := Follow(t, more, idleTimeoutMs).value; id in next.busy && !StopPends(next, id)
    decreases |more|
  {
    if more != [] {
      var init, a := more[..|more| - 1], more[|more| - 1];
      assert a in more && forall b :: b in init ==> b in more;
      MarkedStaysSafe(t, init, id, idleTimeoutMs);
      var before, next := Follow(t, init, idleTimeoutMs).value, Follow(t, more, idleTimeoutMs).value;
      forall n: nat | Pending(next, n)
        ensures next.stops[n].id != id
      {
        if n < |before.stops| {
          assert Pending(before, n) && next.stops[n].id == before.stops[n].id;
        }
      }
    }
  }

  /** With no idle timeout no stop is ever issued. */
  lemma {:induction false} UnsweptStaysSafe(t: Tracker, more: seq<Action>, id: string, idleTimeoutMs: int)
    requires idleTimeoutMs <= 0 && !StopPends(t, id) && Follow(t, more, idleTimeoutMs).Some?
    ensures !StopPends(Follow(t, more, idleTimeoutMs).value, id)
    decreases |more|
  {
    if more != [] {
      var init := more[..|more| - 1];
      UnsweptStaysSafe(t, init, id, idleTimeoutMs);
      var before, next := Follow(t, init, idleTimeoutMs).value, Follow(t, more, idleTimeoutMs).value;
      assert forall n: nat :: Pending(next, n) ==> Pending(before, n) && next.stops[n].id == before.stops[n].id;
    }
  }

  /** In every reached state a command can still be cut off exactly when a stop of its machine is
      pending, or an idle timeout is set and the machine is not marked: what a caller would have to
      look at, and does not. */
  lemma CanBeCutOffWhen(now: int, run: seq<Action>, idleTimeoutMs: int, id: string)
    requires Reached(now, run, idleTimeoutMs).Some?
    ensures var t := Reached(now, run, idleTimeoutMs).value;
            CanBeCutOff(t, id, idleTimeoutMs) <==> StopPends(t, id) || (0 < idleTimeoutMs && id !in t.busy)
  {
    var t := Reached(now, run, idleTimeoutMs).value;
    if StopPends(t, id) {
      assert Quiet([]) && Follow(t, [], idleTimeoutMs) == Some(t);
    } else if 0 < idleTimeoutMs && id !in t.busy {
      ClockStaysSound(now, run, idleTimeoutMs);
      var sweep := Consider(Listed(id, Running), t.clock, t.clock + idleTimeoutMs);
      OneMoreFrom(t, [], sweep, idleTimeoutMs, t);
      assert [] + [sweep] == [sweep];
      var next := Act(t, sweep, idleTimeoutMs).value;
      assert Pending(next, |t.stops|) && next.stops[|t.stops|].id == id;
      assert Quiet([sweep]);
    } else {
      forall more | Quiet(more) && Follow(t, more, idleTimeoutMs).Some?
        ensures !StopPends(Follow(t, more, idleTimeoutMs).value, id)
      {
        if 0 < idleTimeoutMs {
          MarkedStaysSafe(t, more, id, idleTimeoutMs);
        } else {
          UnsweptStaysSafe(t, more, id, idleTimeoutMs);
        }
      }
    }
  }

  /** No command begins on a machine while another is in flight there or a stop of it is pending. */
  ghost predicate Spaced(now: int, run: seq<Action>, idleTimeoutMs: int)
    decreases |run|
  {
    run == [] ||
    (var init, last := run[..|run| - 1], run[|run| - 1];
     && Spaced(now, init, idleTimeoutMs)
     && (last.Begin? && Reached(now, init, idleTimeoutMs).Some? ==>
           var t := Reached(now, init, idleTimeoutMs).value;
           !StopPends(t, last.id) && forall k: nat :: InFlight(t, k) ==> t.commands[k].id != last.id))
  }

  /** In a run where commands keep clear of each other and of pending stops, a machine is marked
      exactly while a command is in flight there, and no stop is ever pending on one. */
  lemma {:induction false} SpacedCommandsAreSafe(now: int, run: seq<Action>, idleTimeoutMs: int)
    requires Reached(now, run, idleTimeoutMs).Some? && Spaced(now, run, idleTimeoutMs)
    ensures var t := Reached(now, run, idleTimeoutMs).value;
            && (forall k: nat :: InFlight(t, k) ==> t.commands[k].id in t.busy && !StopPends(t, t.commands[k].id))
            && (forall i: nat, j: nat :: InFlight(t, i) && InFlight(t, j) && t.commands[i].id == t.commands[j].id ==> i == j)
    decreases |run|
  {
    if run != [] {
      var init, a := run[..|run| - 1], run[|run| - 1];
      SpacedCommandsAreSafe(now, init, idleTimeoutMs);
      SpacedStep(Reached(now, init, idleTimeoutMs).value, a, idleTimeoutMs);
    }
  }

  ghost predicate Safe(t: Tracker) {
    && (forall k: nat :: InFlight(t, k) ==> t.commands[k].id in t.busy && !StopPends(t, t.commands[k].id))
    && (forall i: nat, j: nat :: InFlight(t, i) && InFlight(t, j) && t.commands[i].id == t.commands[j].id ==> i == j)
  }

  lemma SpacedStep(t: Tracker, a: Action, idleTimeoutMs: int)
    requires Safe(t) && Act(t, a, idleTimeoutMs).Some?
    requires a.Begin? ==> !StopPends(t, a.id) && forall k: nat :: InFlight(t, k) ==> t.commands[k].id != a.id
    ensures Safe(Act(t, a, idleTimeoutMs).value)
  {
    var next := Act(t, a, idleTimeoutMs).value;
    assert forall k: nat :: InFlight(next, k) && k < |t.commands| ==> InFlight(t, k) && next.commands[k].id == t.commands[k].id;
    assert forall n: nat :: Pending(next, n) && n < |t.stops| ==> Pending(t, n) && next.stops[n].id == t.stops[n].id;
  }

  /** `busy` is a set, not a count: with every command marked, the end of one leaves the others so
      exactly when none of them is on its machine. */
  lemma EndKeepsTheMarkWhen(t: Tracker, e: nat, idleTimeoutMs: int)
    requires InFlight(t, e) && forall k: nat :: InFlight(t, k) ==> t.commands[k].id in t.busy
    ensures var next := Act(t, End(e), idleTimeoutMs).value;
            (forall k: nat :: InFlight(next, k) ==> next.commands[k].id in next.busy) <==>
            (forall k: nat :: InFlight(t, k) && t.commands[k].id == t.commands[e].id ==> k == e)
  {
    var next := Act(t, End(e), idleTimeoutMs).value;
    assert forall k: nat :: InFlight(next, k) <==> InFlight(t, k) && k != e;
  }

  lemma OneMoreFrom(t0: Tracker, run: seq<Action>, a: Action, idleTimeoutMs: int, t: Tracker)
    requires Follow(t0, run, idleTimeoutMs) == Some(t)
    ensures Follow(t0, run + [a], idleTimeoutMs) == Act(t, a, idleTimeoutMs)
  {
    assert (run + [a])[..|run|] == run;
  }

  /** Two overlapping commands, the first ends: the sweep parks the machine under the second. */
  lemma OverlapCutsACommandOff(idleTimeoutMs: int) returns (run: seq<Action>, t: Tracker)
    requires 0 < idleTimeoutMs
    ensures Reached(0, run, idleTimeoutMs) == Some(t) && Under(t, 0, 1) && t.commands[1].begun < t.stops[0].issued
  {
    run, t := [], Start(0);
    run, t := Then(0, run, t, Begin("c", 0), idleTimeoutMs);
    run, t := Then(0, run, t, Begin("c", 0), idleTimeoutMs);
    run, t := Then(0, run, t, End(0), idleTimeoutMs);
    run, t := Then(0, run, t, Consider(Listed("c", Running), idleTimeoutMs, idleTimeoutMs), idleTimeoutMs);
  }

  /** An idle machine's stop is under way when the only command there ever was begins: the stop
      takes effect under it. */
  lemma CommandUnderAPendingStop(idleTimeoutMs: int) returns (run: seq<Action>, t: Tracker)
    requires 0 < idleTimeoutMs
    ensures Reached(0, run, idleTimeoutMs) == Some(t) && |t.commands| == 1 && Under(t, 0, 0) && t.commands[0].begun > t.stops[0].issued
  {
    run, t := [], Start(0);
    run, t := Then(0, run, t, Touch("c", 0), idleTimeoutMs);
    run, t := Then(0, run, t, Consider(Listed("c", Running), idleTimeoutMs, idleTimeoutMs), idleTimeoutMs);
    run, t := Then(0, run, t, Begin("c", idleTimeoutMs), idleTimeoutMs);
  }

  lemma Then(now: int, run: seq<Action>, t: Tracker, a: Action, idleTimeoutMs: int) returns (longer: seq<Action>, next: Tracker)
    requires Reached(now, run, idleTimeoutMs) == Some(t) && Act(t, a, idleTimeoutMs).Some?
    ensures longer == run + [a] && Act(t, a, idleTimeoutMs) == Some(next) && Reached(now, longer, idleTimeoutMs) == Some(next)
  {
    longer, next := run + [a], Act(t, a, idleTimeoutMs).value;
    OneMoreFrom(Start(now), run, a, idleTimeoutMs, t);
  }

  // ---- the two loops ----

  datatype IdleStopReport = IdleStopReport(checked: nat, stopped: seq<string>, failed: seq<(string, string)>)

  datatype ReconciliationReport = ReconciliationReport(listed: nat, adopted: seq<string>, failed: seq<(string, string)>)

  /** What the provider answers: the failure's detail for each machine it fails for. */
  type Answer = map<string, string>

  function Of(answer: Answer, id: string): Option<string> {
    if id in answer then Some(answer[id]) else None
  }

  /** Whether a pass that reads the clock at `now` throughout parks a machine or tries to. */
  predicate IsDue(lastActivity: map<string, int>, busy: set<string>, m: Listed, now: int, idleTimeoutMs: int) {
    m.state == Running && m.id !in busy && m.id in lastActivity && now - lastActivity[m.id] >= idleTimeoutMs
  }

  /** The machines a pass looks at. */
  function Candidates(busy: set<string>, listed: seq<Listed>): seq<string> {
    if listed == [] then []
    else
      var m := listed[|listed| - 1];
      Candidates(busy, listed[..|listed| - 1]) + if m.state == Running && m.id !in busy then [m.id] else []
  }

  /** One turn of a pass: a machine that stopped is forgotten, one seen running for the first
      time is sighted now. */
  function Parked(lastActivity: map<string, int>, busy: set<string>, m: Listed, now: int, idleTimeoutMs: int, stop: Answer): map<string, int> {
    if IsDue(lastActivity, busy, m, now, idleTimeoutMs) then if Of(stop, m.id).None? then lastActivity - {m.id} else lastActivity
    else if m.state == Running && m.id !in busy && m.id !in lastActivity then lastActivity[m.id := now]
    else lastActivity
  }

  function Swept(lastActivity: map<string, int>, busy: set<string>, listed: seq<Listed>, now: int, idleTimeoutMs: int, stop: Answer): map<string, int> {
    if listed == [] then lastActivity
    else Parked(Swept(lastActivity, busy, listed[..|listed| - 1], now, idleTimeoutMs, stop), busy, listed[|listed| - 1], now, idleTimeoutMs, stop)
  }

  lemma {:induction false} SweptElsewhere(lastActivity: map<string, int>, busy: set<string>, listed: seq<Listed>, now: int, idleTimeoutMs: int, stop: Answer, id: string)
    requires forall i :: 0 <= i < |listed| ==> listed[i].id != id
    ensures Same(lastActivity, Swept(lastActivity, busy, listed, now, idleTimeoutMs, stop), id)
    decreases |listed|
  {
    if listed != [] {
      SweptElsewhere(lastActivity, busy, listed[..|listed| - 1], now, idleTimeoutMs, stop, id);
    }
  }

  /** A pass treats each listed machine by its own clock, and no other computer's changes. */
  lemma {:induction false} SweptEach(lastActivity: map<string, int>, busy: set<string>, listed: seq<Listed>, now: int, idleTimeoutMs: int, stop: Answer, m: Listed)
    requires 0 < idleTimeoutMs && DistinctIds(listed) && m in listed
    ensures Clocked(lastActivity, Swept(lastActivity, busy, listed, now, idleTimeoutMs, stop), busy, m, now, idleTimeoutMs, stop)
    decreases |listed|
  {
    var init, last := listed[..|listed| - 1], listed[|listed| - 1];
    if m == last {
      SweptElsewhere(lastActivity, busy, init, now, idleTimeoutMs, stop, m.id);
    } else {
      SweptEach(lastActivity, busy, init, now, idleTimeoutMs, stop, m);
    }
  }

  /** What a pass does to a listed machine's clock: a machine it stopped is forgotten, one it
      sees running for the first time is sighted now, any other is left alone. */
  ghost predicate Clocked(was: map<string, int>, after: map<string, int>, busy: set<string>, m: Listed, now: int, idleTimeoutMs: int, stop: Answer) {
    if IsDue(was, busy, m, now, idleTimeoutMs) && Of(stop, m.id).None? then m.id !in after
    else if m.state == Running && m.id !in busy && m.id !in was then m.id in after && after[m.id] == now
    else Same(was, after, m.id)
  }

  ghost predicate Same(a: map<string, int>, b: map<string, int>, id: string) {
    (id in a <==> id in b) && (id in a ==> a[id] == b[id])
  }

  function Due(lastActivity: map<string, int>, busy: set<string>, listed: seq<Listed>, now: int, idleTimeoutMs: int): seq<string> {
    if listed == [] then []
    else
      var m := listed[|listed| - 1];
      Due(lastActivity, busy, listed[..|listed| - 1], now, idleTimeoutMs) + if IsDue(lastActivity, busy, m, now, idleTimeoutMs) then [m.id] else []
  }

  /** One turn of the pass: the turns before it were of other machines. */
  lemma SweepStep(was: map<string, int>, busy: set<string>, listed: seq<Listed>, i: nat, now: int, idleTimeoutMs: int, stop: Answer)
    requires i < |listed| && DistinctIds(listed)
    ensures var m, swept := listed[i], Swept(was, busy, listed[..i], now, idleTimeoutMs, stop);
            && IsDue(swept, busy, m, now, idleTimeoutMs) == IsDue(was, busy, m, now, idleTimeoutMs)
            && Swept(was, busy, listed[..i + 1], now, idleTimeoutMs, stop) == Parked(swept, busy, m, now, idleTimeoutMs, stop)
            && Due(was, busy, listed[..i + 1], now, idleTimeoutMs) ==
               Due(was, busy, listed[..i], now, idleTimeoutMs) + (if IsDue(was, busy, m, now, idleTimeoutMs) then [m.id] else [])
            && Candidates(busy, listed[..i + 1]) == Candidates(busy, listed[..i]) + (if m.state == Running && m.id !in busy then [m.id] else [])
  {
    assert listed[..i + 1][..i] == listed[..i];
    SweptElsewhere(was, busy, listed[..i], now, idleTimeoutMs, stop, listed[i].id);
  }

  lemma SettledSnoc(ids: seq<string>, id: string, called: bool, answer: Answer)
    ensures var next := ids + if called then [id] else [];
            && Succeeding(next, answer) == Succeeding(ids, answer) + (if called && Of(answer, id).None? then [id] else [])
            && Failing(next, answer) == Failing(ids, answer) + (if called && Of(answer, id).Some? then [(id, Of(answer, id).value)] else [])
  {
    if called {
      assert (ids + [id])[..|ids|] == ids;
    } else {
      assert ids + [] == ids;
    }
  }

  function Succeeding(ids: seq<string>, answer: Answer): seq<string> {
    if ids == [] then []
    else Succeeding(ids[..|ids| - 1], answer) + if Of(answer, ids[|ids| - 1]).None? then [ids[|ids| - 1]] else []
  }

  function Failing(ids: seq<string>, answer: Answer): seq<(string, string)> {
    if ids == [] then []
    else Failing(ids[..|ids| - 1], answer) + if Of(answer, ids[|ids| - 1]).Some? then [(ids[|ids| - 1], Of(answer, ids[|ids| - 1]).value)] else []
  }

  ghost predicate DistinctIds(listed: seq<Listed>) {
    forall i, j :: 0 <= i < j < |listed| ==> listed[i].id != listed[j].id
  }

  function Ids(listed: seq<Listed>): (ids: seq<string>)
    ensures |ids| == |listed| && forall i :: 0 <= i < |ids| ==> ids[i] == listed[i].id
  {
    seq(|listed|, i requires 0 <= i < |listed| => listed[i].id)
  }

  /** Why adopting a machine fails: its network plan, or bringing it up unless it is parked. */
  function Refusal(m: Listed, isolation: Answer, ensure: Answer): Option<string> {
    if Of(isolation, m.id).Some? then Of(isolation, m.id) else if m.state != Stopped then Of(ensure, m.id) else None
  }

  class ComputerLifecycle {
    const idleTimeoutMs: int
    var lastActivity: map<string, int>
    var busy: set<string>
    /** The ids `provider.ensure` and `provider.stop` were called with. */
    var ensured: seq<string>
    var stopCalls: seq<string>

    constructor (idleTimeoutMs: int)
      ensures this.idleTimeoutMs == idleTimeoutMs && lastActivity == map[] && busy == {} && ensured == [] && stopCalls == []
    {
      this.idleTimeoutMs := idleTimeoutMs;
      lastActivity, busy, ensured, stopCalls := map[], {}, [], [];
    }

    /** An undisturbed sweep: it calls `stop` on exactly the idle machines, in listed order,
        forgets those that stopped and remembers the ones it sees for the first time. */
    method StopIdle(listed: seq<Listed>, now: int, stop: Answer) returns (report: IdleStopReport)
      requires DistinctIds(listed)
      modifies this
      ensures busy == old(busy) && ensured == old(ensured)
      ensures idleTimeoutMs <= 0 ==> report == IdleStopReport(0, [], []) && lastActivity == old(lastActivity) && stopCalls == old(stopCalls)
      ensures idleTimeoutMs > 0 ==>
                var due := Due(old(lastActivity), busy, listed, now, idleTimeoutMs);
                && stopCalls == old(stopCalls) + due
                && report == IdleStopReport(|Candidates(busy, listed)|, Succeeding(due, stop), Failing(due, stop))
                && lastActivity == Swept(old(lastActivity), busy, listed, now, idleTimeoutMs, stop)
    {
      if idleTimeoutMs <= 0 {
        return IdleStopReport(0, [], []);
      }
      var checked, stopped, failed := 0, [], [];
      ghost var due: seq<string>, was, calls := [], lastActivity, stopCalls;
      for i := 0 to |listed|
        invariant busy == old(busy) && ensured == old(ensured)
        invariant lastActivity == Swept(was, busy, listed[..i], now, idleTimeoutMs, stop)
        invariant checked == |Candidates(busy, listed[..i])|
        invariant due == Due(was, busy, listed[..i], now, idleTimeoutMs)
        invariant stopCalls == calls + due
        invariant stopped == Succeeding(due, stop) && failed == Failing(due, stop)
      {
        var m := listed[i];
        SweepStep(was, busy, listed, i, now, idleTimeoutMs, stop);
        SettledSnoc(due, m.id, IsDue(was, busy, m, now, idleTimeoutMs), stop);
        var candidate, answer := ParkIfIdle(m, now, stop);
        checked := checked + if candidate then 1 else 0;
        stopped := stopped + if answer.Some? && answer.value.None? then [m.id] else [];
        failed := failed + if answer.Some? && answer.value.Some? then [(m.id, answer.value.value)] else [];
        assert stopCalls == calls + (due + if answer.Some? then [m.id] else []);
        due := due + if answer.Some? then [m.id] else [];
      }
      assert listed[..|listed|] == listed;
      return IdleStopReport(checked, stopped, failed);
    }

    /** One turn of the sweep; the answer of `stop` if it was called. */
    method ParkIfIdle(m: Listed, now: int, stop: Answer) returns (candidate: bool, answer: Option<Option<string>>)
      requires idleTimeoutMs > 0
      modifies this
      ensures busy == old(busy) && ensured == old(ensured)
      ensures candidate == (m.state == Running && m.id !in busy)
      ensures answer == if IsDue(old(lastActivity), busy, m, now, idleTimeoutMs) then Some(Of(stop, m.id)) else None
      ensures stopCalls == if answer.Some? then old(stopCalls) + [m.id] else old(stopCalls)
      ensures lastActivity == Parked(old(lastActivity), busy, m, now, idleTimeoutMs, stop)
    {
      candidate, answer := m.state == Running && m.id !in busy, None;
      if candidate {
        var last := if m.id in lastActivity then lastActivity[m.id] else now;
        if m.id !in lastActivity {
          lastActivity := lastActivity[m.id := last];
        }
        if now - last >= idleTimeoutMs {
          stopCalls := stopCalls + [m.id];
          answer := Some(Of(stop, m.id));
          if answer.value.None? {
            lastActivity := lastActivity - {m.id};
          }
        }
      }
    }

    /** An undisturbed reconciliation: a listed machine is adopted unless its adoption is
        refused, and a stopped one is never brought up. */
    method Reconcile(listed: seq<Listed>, now: int, isolation: Answer, ensure: Answer) returns (report: ReconciliationReport)
      modifies this
      ensures busy == old(busy) && stopCalls == old(stopCalls)
      ensures report.listed == |listed|
      ensures report.adopted == Adopted(listed, isolation, ensure) && report.failed == NotAdopted(listed, isolation, ensure)
      ensures ensured == old(ensured) + BroughtUp(listed, isolation)
      ensures forall id :: id in report.adopted ==> id in lastActivity && lastActivity[id] == now
      ensures forall id :: id !in report.adopted ==> Same(old(lastActivity), lastActivity, id)
    {
      var adopted, failed := [], [];
      ghost var before := ensured;
      for i := 0 to |listed|
        invariant busy == old(busy) && stopCalls == old(stopCalls)
        invariant adopted == Adopted(listed[..i], isolation, ensure)
        invariant failed == NotAdopted(listed[..i], isolation, ensure)
        invariant ensured == before + BroughtUp(listed[..i], isolation)
        invariant forall id :: id in adopted ==> id in lastActivity && lastActivity[id] == now
        invariant forall id :: id !in adopted ==> Same(old(lastActivity), lastActivity, id)
      {
        var m := listed[i];
        ReconcileStep(listed, i, isolation, ensure);
        var failure := Of(isolation, m.id);
        if failure.None? && m.state != Stopped {
          assert ensured + [m.id] == before + (BroughtUp(listed[..i], isolation) + [m.id]);
          ensured := ensured + [m.id];
          failure := Of(ensure, m.id);
        }
        if failure.None? {
          lastActivity := lastActivity[m.id := now];
          adopted := adopted + [m.id];
        } else {
          failed := failed + [(m.id, failure.value)];
        }
      }
      assert listed[..|listed|] == listed;
      return ReconciliationReport(|listed|, adopted, failed);
    }
  }

  function Adopted(listed: seq<Listed>, isolation: Answer, ensure: Answer): seq<string> {
    if listed == [] then []
    else
      var m := listed[|listed| - 1];
      Adopted(listed[..|listed| - 1], isolation, ensure) + if Refusal(m, isolation, ensure).None? then [m.id] else []
  }

  function NotAdopted(listed: seq<Listed>, isolation: Answer, ensure: Answer): seq<(string, string)> {
    if listed == [] then []
    else
      var m := listed[|listed| - 1];
      NotAdopted(listed[..|listed| - 1], isolation, ensure) +
      if Refusal(m, isolation, ensure).Some? then [(m.id, Refusal(m, isolation, ensure).value)] else []
  }

  function BroughtUp(listed: seq<Listed>, isolation: Answer): seq<string> {
    if listed == [] then []
    else
      var m := listed[|listed| - 1];
      BroughtUp(listed[..|listed| - 1], isolation) + if Of(isolation, m.id).None? && m.state != Stopped then [m.id] else []
  }

  /** One turn of the loop. */
  lemma ReconcileStep(listed: seq<Listed>, i: nat, isolation: Answer, ensure: Answer)
    requires i < |listed|
    ensures var m, refusal := listed[i], Refusal(listed[i], isolation, ensure);
            && BroughtUp(listed[..i + 1], isolation) ==
               (if Of(isolation, m.id).None? && m.state != Stopped then BroughtUp(listed[..i], isolation) + [m.id] else BroughtUp(listed[..i], isolation))
            && Adopted(listed[..i + 1], isolation, ensure) ==
               (if refusal.None? then Adopted(listed[..i], isolation, ensure) + [m.id] else Adopted(listed[..i], isolation, ensure))
            && NotAdopted(listed[..i + 1], isolation, ensure) ==
               (if refusal.Some? then NotAdopted(listed[..i], isolation, ensure) + [(m.id, refusal.value)] else NotAdopted(listed[..i], isolation, ensure))
  {
    assert listed[..i + 1][..i] == listed[..i];
  }

  function Firsts(pairs: seq<(string, string)>): seq<string> {
    seq(|pairs|, i requires 0 <= i < |pairs| => pairs[i].0)
  }

  lemma FirstsSnoc(pairs: seq<(string, string)>, pair: (string, string))
    ensures Firsts(pairs + [pair]) == Firsts(pairs) + [pair.0]
  {
  }

  lemma OneSide(a: seq<string>, b: seq<string>, all: seq<string>, id: string)
    requires multiset(a) + multiset(b) == multiset(all)
    ensures multiset(a + [id]) + multiset(b) == multiset(all + [id])
    ensures multiset(a) + multiset(b + [id]) == multiset(all + [id])
  {
  }

  /** Reconciliation puts every listed machine in exactly one of adopted and failed. */
  lemma {:induction false} ReconcilePartitions(listed: seq<Listed>, isolation: Answer, ensure: Answer)
    ensures multiset(Adopted(listed, isolation, ensure)) + multiset(Firsts(NotAdopted(listed, isolation, ensure))) == multiset(Ids(listed))
    decreases |listed|
  {
    if listed == [] {
      assert Firsts([]) == [];
    } else {
      var init, m := listed[..|listed| - 1], listed[|listed| - 1];
      var adopted, failed, refusal := Adopted(init, isolation, ensure), NotAdopted(init, isolation, ensure), Refusal(m, isolation, ensure);
      ReconcilePartitions(init, isolation, ensure);
      assert Ids(listed) == Ids(init) + [m.id];
      OneSide(adopted, Firsts(failed), Ids(init), m.id);
      if refusal.Some? {
        FirstsSnoc(failed, (m.id, refusal.value));
        assert adopted + [] == adopted;
      } else {
        assert failed + [] == failed;
      }
    }
  }

  /** It never brings up a machine that was listed stopped. */
  lemma {:induction false} StoppedStaysStopped(listed: seq<Listed>, isolation: Answer, m: Listed)
    requires DistinctIds(listed) && m in listed && m.state == Stopped
    ensures m.id !in BroughtUp(listed, isolation)
    decreases |listed|
  {
    var init, last := listed[..|listed| - 1], listed[|listed| - 1];
    if m in init {
      StoppedStaysStopped(init, isolation, m);
    } else {
      NotBroughtUp(init, isolation, m.id);
    }
  }

  lemma {:induction false} NotBroughtUp(listed: seq<Listed>, isolation: Answer, id: string)
    requires forall i :: 0 <= i < |listed| ==> listed[i].id != id
    ensures id !in BroughtUp(listed, isolation)
    decreases |listed|
  {
    if listed != [] {
      NotBroughtUp(listed[..|listed| - 1], isolation, id);
    }
  }

  /** An undisturbed sweep stops exactly what the tracker's step stops. */
  lemma {:induction false} DueIsStops(t: Tracker, listed: seq<Listed>, now: int, idleTimeoutMs: int, m: Listed)
    requires 0 < idleTimeoutMs && DistinctIds(listed) && m in listed
    ensures m.id in Due(t.lastActivity, t.busy, listed, now, idleTimeoutMs) <==> Stops(t, m, now, now, idleTimeoutMs)
    decreases |listed|
  {
    var init, last := listed[..|listed| - 1], listed[|listed| - 1];
    DueOnlyListed(t, init, now, idleTimeoutMs);
    if m in init {
      DueIsStops(t, init, now, idleTimeoutMs, m);
    } else {
      assert m == last;
    }
  }

  lemma {:induction false} DueOnlyListed(t: Tracker, listed: seq<Listed>, now: int, idleTimeoutMs: int)
    ensures forall id :: id in Due(t.lastActivity, t.busy, listed, now, idleTimeoutMs) ==> exists i :: 0 <= i < |listed| && listed[i].id == id
    decreases |listed|
  {
    if listed != [] {
      var init := listed[..|listed| - 1];
      DueOnlyListed(t, init, now, idleTimeoutMs);
      forall id | id in Due(t.lastActivity, t.busy, listed, now, idleTimeoutMs)
        ensures exists i :: 0 <= i < |listed| && listed[i].id == id
      {
        if id in Due(t.lastActivity, t.busy, init, now, idleTimeoutMs) {
          var i :| 0 <= i < |init| && init[i].id == id;
          assert listed[i].id == id;
        } else {
          assert listed[|listed| - 1].id == id;
        }
      }
    }
  }

  // ---- where each listed machine comes out ----

  lemma SplitLast(a: seq<Listed>, b: seq<Listed>)
    requires b != []
    ensures (a + b)[..|a + b| - 1] == a + b[..|b| - 1] && (a + b)[|a + b| - 1] == b[|b| - 1]
  {
  }

  lemma {:induction false} BroughtUpJoin(a: seq<Listed>, b: seq<Listed>, isolation: Answer)
    ensures BroughtUp(a + b, isolation) == BroughtUp(a, isolation) + BroughtUp(b, isolation)
    decreases |b|
  {
    if b == [] {
      assert a + b == a;
    } else {
      SplitLast(a, b);
      BroughtUpJoin(a, b[..|b| - 1], isolation);
    }
  }

  lemma {:induction false} AdoptedJoin(a: seq<Listed>, b: seq<Listed>, isolation: Answer, ensure: Answer)
    ensures Adopted(a + b, isolation, ensure) == Adopted(a, isolation, ensure) + Adopted(b, isolation, ensure)
    decreases |b|
  {
    if b == [] {
      assert a + b == a;
    } else {
      SplitLast(a, b);
      AdoptedJoin(a, b[..|b| - 1], isolation, ensure);
    }
  }

  lemma {:induction false} NotAdoptedJoin(a: seq<Listed>, b: seq<Listed>, isolation: Answer, ensure: Answer)
    ensures NotAdopted(a + b, isolation, ensure) == NotAdopted(a, isolation, ensure) + NotAdopted(b, isolation, ensure)
    decreases |b|
  {
    if b == [] {
      assert a + b == a;
    } else {
      SplitLast(a, b);
      NotAdoptedJoin(a, b[..|b| - 1], isolation, ensure);
    }
  }

  lemma Three(a: seq<Listed>, m: Listed, b: seq<Listed>, isolation: Answer, ensure: Answer)
    ensures BroughtUp(a + [m] + b, isolation) == BroughtUp(a, isolation) + BroughtUp([m], isolation) + BroughtUp(b, isolation)
    ensures Adopted(a + [m] + b, isolation, ensure) == Adopted(a, isolation, ensure) + Adopted([m], isolation, ensure) + Adopted(b, isolation, ensure)
    ensures NotAdopted(a + [m] + b, isolation, ensure) ==
            NotAdopted(a, isolation, ensure) + NotAdopted([m], isolation, ensure) + NotAdopted(b, isolation, ensure)
  {
    BroughtUpJoin(a + [m], b, isolation);
    BroughtUpJoin(a, [m], isolation);
    AdoptedJoin(a + [m], b, isolation, ensure);
    AdoptedJoin(a, [m], isolation, ensure);
    NotAdoptedJoin(a + [m], b, isolation, ensure);
    NotAdoptedJoin(a, [m], isolation, ensure);
  }

  lemma ReconciledAlone(m: Listed, isolation: Answer, ensure: Answer)
    ensures BroughtUp([m], isolation) == if Of(isolation, m.id).None? && m.state != Stopped then [m.id] else []
    ensures Adopted([m], isolation, ensure) == if Of(isolation, m.id).None? && (m.state == Stopped || Of(ensure, m.id).None?) then [m.id] else []
    ensures NotAdopted([m], isolation, ensure) ==
            match Of(isolation, m.id)
            case Some(refusal) => [(m.id, refusal)]
            case None => if m.state != Stopped && Of(ensure, m.id).Some? then [(m.id, Of(ensure, m.id).value)] else []
  {
    assert [m][..0] == [];
  }

  /** Reconciliation takes the machines in listed order. One whose network plan is refused fails
      with that refusal; a stopped one is adopted as it is; any other is brought up, and is
      adopted or fails with what bringing it up answers. */
  lemma ReconciledInOrder(a: seq<Listed>, m: Listed, b: seq<Listed>, isolation: Answer, ensure: Answer)
    ensures BroughtUp(a + [m] + b, isolation) ==
            BroughtUp(a, isolation) + (if Of(isolation, m.id).None? && m.state != Stopped then [m.id] else []) + BroughtUp(b, isolation)
    ensures Adopted(a + [m] + b, isolation, ensure) ==
            Adopted(a, isolation, ensure)
            + (if Of(isolation, m.id).None? && (m.state == Stopped || Of(ensure, m.id).None?) then [m.id] else [])
            + Adopted(b, isolation, ensure)
    ensures NotAdopted(a + [m] + b, isolation, ensure) ==
            NotAdopted(a, isolation, ensure)
            + (match Of(isolation, m.id)
               case Some(refusal) => [(m.id, refusal)]
               case None => if m.state != Stopped && Of(ensure, m.id).Some? then [(m.id, Of(ensure, m.id).value)] else [])
            + NotAdopted(b, isolation, ensure)
  {
    Three(a, m, b, isolation, ensure);
    ReconciledAlone(m, isolation, ensure);
  }

  /** A machine is brought up exactly when it is listed not stopped and its network plan stands. */
  lemma {:induction false} BroughtUpWhen(listed: seq<Listed>, isolation: Answer, id: string)
    ensures id in BroughtUp(listed, isolation) <==>
            Of(isolation, id).None? && exists i :: 0 <= i < |listed| && listed[i].id == id && listed[i].state != Stopped
    decreases |listed|
  {
    if listed != [] {
      var init, last := listed[..|listed| - 1], listed[|listed| - 1];
      BroughtUpWhen(init, isolation, id);
      assert listed == init + [last];
      assert forall i :: 0 <= i < |init| ==> init[i] == listed[i];
    }
  }

  lemma {:induction false} DueJoin(lastActivity: map<string, int>, busy: set<string>, a: seq<Listed>, b: seq<Listed>, now: int, idleTimeoutMs: int)
    ensures Due(lastActivity, busy, a + b, now, idleTimeoutMs) == Due(lastActivity, busy, a, now, idleTimeoutMs) + Due(lastActivity, busy, b, now, idleTimeoutMs)
    decreases |b|
  {
    if b == [] {
      assert a + b == a;
    } else {
      SplitLast(a, b);
      DueJoin(lastActivity, busy, a, b[..|b| - 1], now, idleTimeoutMs);
    }
  }

  lemma {:induction false} CandidatesJoin(busy: set<string>, a: seq<Listed>, b: seq<Listed>)
    ensures Candidates(busy, a + b) == Candidates(busy, a) + Candidates(busy, b)
    decreases |b|
  {
    if b == [] {
      assert a + b == a;
    } else {
      SplitLast(a, b);
      CandidatesJoin(busy, a, b[..|b| - 1]);
    }
  }

  /** The sweep takes the machines in listed order: it looks at those running with no command, and
      stops those of them seen before and idle for the timeout. */
  lemma SweptInOrder(lastActivity: map<string, int>, busy: set<string>, a: seq<Listed>, m: Listed, b: seq<Listed>, now: int, idleTimeoutMs: int)
    ensures Candidates(busy, a + [m] + b) ==
            Candidates(busy, a) + (if m.state == Running && m.id !in busy then [m.id] else []) + Candidates(busy, b)
    ensures Due(lastActivity, busy, a + [m] + b, now, idleTimeoutMs) ==
            Due(lastActivity, busy, a, now, idleTimeoutMs)
            + (if m.state == Running && m.id !in busy && m.id in lastActivity && lastActivity[m.id] + idleTimeoutMs <= now then [m.id] else [])
            + Due(lastActivity, busy, b, now, idleTimeoutMs)
  {
    DueJoin(lastActivity, busy, a + [m], b, now, idleTimeoutMs);
    DueJoin(lastActivity, busy, a, [m], now, idleTimeoutMs);
    CandidatesJoin(busy, a + [m], b);
    CandidatesJoin(busy, a, [m]);
    assert [m][..0] == [];
  }

  lemma {:induction false} AnswersJoin(a: seq<string>, b: seq<string>, answer: Answer)
    ensures Succeeding(a + b, answer) == Succeeding(a, answer) + Succeeding(b, answer)
    ensures Failing(a + b, answer) == Failing(a, answer) + Failing(b, answer)
    decreases |b|
  {
    if b == [] {
      assert a + b == a;
    } else {
      assert (a + b)[..|a + b| - 1] == a + b[..|b| - 1];
      AnswersJoin(a, b[..|b| - 1], answer);
    }
  }

  /** Each stop is reported as done, or as failed with what it answered, in the order called. */
  lemma ReportedInOrder(a: seq<string>, id: string, b: seq<string>, answer: Answer)
    ensures Succeeding(a + [id] + b, answer) == Succeeding(a, answer) + (if Of(answer, id).None? then [id] else []) + Succeeding(b, answer)
    ensures Failing(a + [id] + b, answer) ==
            Failing(a, answer) + (match Of(answer, id) case None => [] case Some(detail) => [(id, detail)]) + Failing(b, answer)
  {
    AnswersJoin(a + [id], b, answer);
    AnswersJoin(a, [id], answer);
    assert [id][..0] == [];
  }

  // ---- the clock of one machine ----

  /** What one action does to a machine's clock: work there sets it, a sweep's first sighting of it
      running and unmarked sets it, a destroy and a stop that succeeded clear it; nothing else
      moves it. */
  lemma ClockMovesWhen(t: Tracker, a: Action, idleTimeoutMs: int, id: string)
    requires Act(t, a, idleTimeoutMs).Some?
    ensures var was, now := t.lastActivity, Act(t, a, idleTimeoutMs).value.lastActivity;
            var works := (a.Touch? || a.Begin?) && a.id == id;
            var sights := a.Consider? && a.machine == Listed(id, Running) && id !in t.busy && id !in was;
            var clears := (a.Forget? && a.id == id) || (a.SettleStop? && a.succeeded && t.stops[a.stop].id == id);
            && (works ==> id in now && now[id] == a.at)
            && (sights ==> id in now && now[id] == a.sightedAt)
            && (clears ==> id !in now)
            && (!works && !sights && !clears ==> Same(was, now, id))
  {
  }

  /** A look of the sweep stops a machine exactly when it is listed running, is unmarked, and was
      worked or sighted at least the timeout ago; with no timeout set there is no sweep. */
  lemma StopIsIssuedWhen(t: Tracker, m: Listed, sightedAt: int, checkedAt: int, idleTimeoutMs: int)
    ensures var next := Act(t, Consider(m, sightedAt, checkedAt), idleTimeoutMs);
            && (next.Some? <==> 0 < idleTimeoutMs && t.clock <= sightedAt <= checkedAt)
            && (next.Some? ==>
                  next.value.stops ==
                  if m.state == Running && m.id !in t.busy && idleTimeoutMs <= checkedAt - (if m.id in t.lastActivity then t.lastActivity[m.id] else sightedAt)
                  then t.stops + [StopCall(m.id, checkedAt, t.steps, false)] else t.stops)
  {
  }

  /** A stop comes back once, and no other stop or command with it. */
  lemma StopComesBackOnce(t: Tracker, n: nat, succeeded: bool, idleTimeoutMs: int)
    ensures var next := Act(t, SettleStop(n, succeeded), idleTimeoutMs);
            && (next.Some? <==> n < |t.stops| && !t.stops[n].settled)
            && (next.Some? ==>
                  && |next.value.stops| == |t.stops| && next.value.stops[n] == t.stops[n].(settled := true)
                  && (forall k :: 0 <= k < |t.stops| && k != n ==> next.value.stops[k] == t.stops[k])
                  && next.value.commands == t.commands && next.value.busy == t.busy
                  && Act(next.value, SettleStop(n, true), idleTimeoutMs).None?)
  {
  }

  /** Nothing works on the machine or destroys it, and no stop of it comes back. */
  ghost predicate LeftAlone(t: Tracker, run: seq<Action>, id: string, idleTimeoutMs: int)
    requires Follow(t, run, idleTimeoutMs).Some?
    decreases |run|
  {
    run == [] ||
    (var init, last := run[..|run| - 1], run[|run| - 1];
     var s := Follow(t, init, idleTimeoutMs).value;
     && LeftAlone(t, init, id, idleTimeoutMs)
     && ((last.Touch? || last.Begin? || last.Forget?) ==> last.id != id)
     && (last.SettleStop? ==> s.stops[last.stop].id != id))
  }

  lemma {:induction false} IdleClockStands(t: Tracker, run: seq<Action>, id: string, idleTimeoutMs: int)
    requires Follow(t, run, idleTimeoutMs).Some? && LeftAlone(t, run, id, idleTimeoutMs)
    requires id !in t.busy && id in t.lastActivity
    ensures var next := Follow(t, run, idleTimeoutMs).value;
            id !in next.busy && id in next.lastActivity && next.lastActivity[id] == t.lastActivity[id]
    decreases |run|
  {
    if run != [] {
      var init := run[..|run| - 1];
      IdleClockStands(t, init, id, idleTimeoutMs);
      ClockMovesWhen(Follow(t, init, idleTimeoutMs).value, run[|run| - 1], idleTimeoutMs, id);
    }
  }

  /** A machine the sweep sees running, and which is then left alone, is stopped by every look at
      least the timeout later. */
  lemma IdleMachineIsParked(now: int, run: seq<Action>, m: Listed, sightedAt: int, checkedAt: int, more: seq<Action>, later: int, laterChecked: int, idleTimeoutMs: int)
    requires Reached(now, run, idleTimeoutMs).Some? && m.state == Running && m.id !in Reached(now, run, idleTimeoutMs).value.busy
    requires Act(Reached(now, run, idleTimeoutMs).value, Consider(m, sightedAt, checkedAt), idleTimeoutMs).Some?
    requires var seen := Act(Reached(now, run, idleTimeoutMs).value, Consider(m, sightedAt, checkedAt), idleTimeoutMs).value;
             && Follow(seen, more, idleTimeoutMs).Some? && LeftAlone(seen, more, m.id, idleTimeoutMs)
             && Act(Follow(seen, more, idleTimeoutMs).value, Consider(m, later, laterChecked), idleTimeoutMs).Some?
    requires laterChecked - sightedAt >= idleTimeoutMs
    ensures var seen := Act(Reached(now, run, idleTimeoutMs).value, Consider(m, sightedAt, checkedAt), idleTimeoutMs).value;
            var t := Follow(seen, more, idleTimeoutMs).value;
            Act(t, Consider(m, later, laterChecked), idleTimeoutMs).value.stops == t.stops + [StopCall(m.id, laterChecked, t.steps, false)]
  {
    ClockStaysSound(now, run, idleTimeoutMs);
    var t := Reached(now, run, idleTimeoutMs).value;
    ClockMovesWhen(t, Consider(m, sightedAt, checkedAt), idleTimeoutMs, m.id);
    var seen := Act(t, Consider(m, sightedAt, checkedAt), idleTimeoutMs).value;
    IdleClockStands(seen, more, m.id, idleTimeoutMs);
    StopIsIssuedWhen(Follow(seen, more, idleTimeoutMs).value, m, later, laterChecked, idleTimeoutMs);
  }

  /** The `touched` of the sweep's guarantee is the clock of the last work on the machine. */
  lemma {:induction false} TouchedIsTheLastWork(t: Tracker, a: Action, more: seq<Action>, idleTimeoutMs: int)
    requires (a.Touch? || a.Begin?) && Follow(t, [a] + more, idleTimeoutMs).Some?
    requires forall i :: 0 <= i < |more| && (more[i].Touch? || more[i].Begin?) ==> more[i].id != a.id
    ensures var next := Follow(t, [a] + more, idleTimeoutMs).value; a.id in next.touched && next.touched[a.id] == a.at
    decreases |more|
  {
    var whole := [a] + more;
    if more == [] {
      assert whole[..|whole| - 1] == [] && whole[0] == a;
    } else {
      assert whole[..|whole| - 1] == [a] + more[..|more| - 1] && whole[|whole| - 1] == more[|more| - 1];
      TouchedIsTheLastWork(t, a, more[..|more| - 1], idleTimeoutMs);
    }
  }
}
