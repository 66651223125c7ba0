/**
 * The fenced life of one run: workers that claim, reclaim, adopt, renew and settle it, the
 * watchdog, the tool-call ledger and the computer lease (apps/worker/src/run-execution.ts,
 * apps/worker/src/jobs/run-execute.ts, apps/worker/src/jobs/lease-watchdog.ts,
 * packages/db/src/run-leases.ts, packages/db/src/computer-leases.ts).
 *
 * One action is one SQL statement, or one step inside a process. Any worker may stop, be
 * interrupted, lose its reply or crash between any two actions.
 */
module RunLease {
  import opened ByteStreams
  import opened EventReducer

  const TTL := 120

  datatype AttemptStatus = InProgress | AttemptCompleted | AttemptFailed | AttemptCancelled | Abandoned

  datatype EffectStatus = EffectPending | EffectRunning | EffectCompleted | EffectFailed

  /** A row of the tool-call ledger. `caller` is the execution whose begin inserted it, `seen` the run
      row's fence when it landed, `over` whether the run was terminal by then: history, but for
      `caller`, which is the execution that was told to go ahead. */
  datatype Effect = Effect(status: EffectStatus, caller: nat, seen: nat, over: bool)

  datatype Row = Row(status: RunStatus, owner: Option<string>, fence: nat, expiresAt: Option<int>)

  datatype Binding = Binding(runId: string, owner: string, fence: nat, expiresAt: int)

  datatype Db = Db(runId: string, row: Row, attempts: map<nat, AttemptStatus>, effects: map<string, Effect>,
                   computer: Option<Binding>, now: int)

  /** `FencedRunPatch`, without the columns that only describe. */
  datatype Patch = Patch(status: Option<RunStatus>, release: bool, attempt: Option<AttemptStatus>, settleInFlight: bool)

  // ---- the statements ----

  predicate Active(status: RunStatus) {
    status == Running || status == WaitingApproval
  }

  predicate InFlight(e: Effect) {
    e.status == EffectPending || e.status == EffectRunning
  }

  function Renewed(db: Db): Row {
    db.row.(expiresAt := Some(db.now + TTL))
  }

  function Acquired(db: Db, owner: string): Row {
    Renewed(db).(owner := Some(owner), fence := db.row.fence + 1)
  }

  function Claim(db: Db, expected: nat, owner: string): Option<Db> {
    if db.row.fence == expected && db.row.status == Queued && db.row.owner.None? && db.row.expiresAt.None? then
      Some(db.(row := Acquired(db, owner).(status := Running), attempts := db.attempts[db.row.fence + 1 := InProgress]))
    else None
  }

  function CloseAttempt(attempts: map<nat, AttemptStatus>, fence: nat, status: AttemptStatus): map<nat, AttemptStatus> {
    if fence in attempts && attempts[fence] == InProgress then attempts[fence := status] else attempts
  }

  function SettleEffects(effects: map<string, Effect>): map<string, Effect> {
    map k | k in effects :: if InFlight(effects[k]) then effects[k].(status := EffectFailed) else effects[k]
  }

  function Reclaim(db: Db, expected: nat, owner: string, recordAttempt: bool): Option<Db> {
    if db.row.fence == expected && Active(db.row.status) && db.row.owner.Some? && db.row.expiresAt.Some? && db.row.expiresAt.value <= db.now then
      var closed := CloseAttempt(db.attempts, expected, Abandoned);
      Some(db.(row := Acquired(db, owner), effects := SettleEffects(db.effects),
               attempts := if recordAttempt then closed[db.row.fence + 1 := InProgress] else closed))
    else None
  }

  function Adopt(db: Db, expected: nat, owner: string, previous: string): Option<Db> {
    if db.row.fence == expected && Active(db.row.status) && db.row.owner == Some(previous) && db.row.expiresAt.Some? && db.row.expiresAt.value > db.now then
      Some(db.(row := Acquired(db, owner), attempts := db.attempts[db.row.fence + 1 := InProgress]))
    else None
  }

  /** The guard of every fenced write. */
  predicate Holds(db: Db, owner: string, fence: nat) {
    db.row.owner == Some(owner) && db.row.fence == fence && db.row.expiresAt.Some? && db.row.expiresAt.value > db.now && Active(db.row.status)
  }

  predicate TransitionGuard(from: RunStatus, to: Option<RunStatus>) {
    match to
    case None => true
    case Some(Running) => from == WaitingApproval
    case Some(WaitingApproval) => from == Running
    case Some(Completed) => from == Running
    case Some(Failed) => Active(from)
    case Some(Cancelled) => Active(from)
    case Some(Queued) => false
  }

  function Update(db: Db, owner: string, fence: nat, p: Patch): Option<Db> {
    if Holds(db, owner, fence) && TransitionGuard(db.row.status, p.status) then
      Some(db.(row := Row(if p.status.Some? then p.status.value else db.row.status,
                          if p.release then None else db.row.owner, db.row.fence, if p.release then None else db.row.expiresAt),
               attempts := if p.attempt.Some? then CloseAttempt(db.attempts, fence, p.attempt.value) else db.attempts,
               effects := if p.settleInFlight then SettleEffects(db.effects) else db.effects))
    else None
  }

  function Hold(db: Db, runHeld: bool, runId: string, owner: string, fence: nat): Db {
    if runHeld && (db.computer.None? || db.computer.value.expiresAt <= db.now || SameHolder(db.computer.value, runId, owner, fence))
    then db.(computer := Some(Binding(runId, owner, fence, db.now + TTL))) else db
  }

  predicate SameHolder(b: Binding, runId: string, owner: string, fence: nat) {
    b.runId == runId && b.owner == owner && b.fence == fence
  }

  /** Clears the computer's binding if it is this holder's, lapsed or not. */
  function ReleaseComputer(db: Db, runId: string, owner: string, fence: nat): Db {
    if db.computer.Some? && SameHolder(db.computer.value, runId, owner, fence) then db.(computer := None) else db
  }

  // ---- the processes ----

  /** `Fetched` is the time between acquiring a run to resume and deciding whether it can be.
      `Revoking` awaits the revokes it has called; `unsettled` are those not yet answered. */
  datatype Phase = Fetched | Working | Settled | Finished | Lost | Revoking(lost: bool, unsettled: set<string>) | Over | Crashed

  /** `revokes` are the handles whose revoke was called, `refused` those whose revoke failed, and
      `late` those registered after the revokes were called; `issued` are the calls whose begin was
      sent to the ledger and has not landed. */
  datatype Execution = Execution(owner: string, phase: Phase, proxies: set<string>, revokes: set<string>, refused: set<string>, late: set<string>, issued: set<string>)

  datatype Settlement = Settlement(fence: nat, patch: Patch)

  /** `watch` holds the watchdog's acquisitions, `handoffs` those it queued a resume for, `scanned`
      the bindings its passes have read as lapsed and not yet deleted; `settled` is history: every
      write that moved the run to a terminal status. */
  datatype State = State(db: Db, execs: map<nat, Execution>, watch: map<nat, string>, handoffs: set<nat>, scanned: set<Binding>, settled: seq<Settlement>)

  datatype Ending = Succeeded | WasCancelled | WasFailed | Broke

  /** `settlement`, and the patch of a work failure. */
  function PatchOf(ending: Ending): Patch {
    match ending
    case Succeeded => Patch(Some(Completed), true, Some(AttemptCompleted), false)
    case WasCancelled => Patch(Some(Cancelled), true, Some(AttemptCancelled), true)
    case WasFailed => Patch(Some(RunStatus.Failed), true, Some(AttemptFailed), true)
    case Broke => Patch(Some(RunStatus.Failed), true, Some(AttemptFailed), false)
  }

  const RESUME_FAILURE := Patch(Some(RunStatus.Failed), false, Some(AttemptFailed), false)
  const WATCHDOG_FAILURE := Patch(Some(RunStatus.Failed), false, None, false)

  /** The patches that end a run. */
  predicate Known(p: Patch) {
    p == PatchOf(Succeeded) || p == PatchOf(WasCancelled) || p == PatchOf(WasFailed) || p == PatchOf(Broke)
    || p == RESUME_FAILURE || p == WATCHDOG_FAILURE
  }

  /** Whether a worker sees the answer to its write, and if not, whether the write landed. */
  datatype Reply = Heard | Dropped(landed: bool)

  datatype Action =
    | Tick(ms: nat)
    | ClaimRun(expected: nat, owner: string)
    | ReclaimRun(expected: nat, owner: string)
    | AdoptRun(expected: nat, owner: string)
    | Resume(fence: nat)
    | FailResume(fence: nat)
    | WatchdogReclaim(expected: nat, owner: string)
    | Handoff(fence: nat)
    | WatchdogFail(fence: nat)
    | Heartbeat(fence: nat)
    | Checkpoint(fence: nat, status: Option<RunStatus>)
    | Register(fence: nat, proxy: string)
    | IssueCall(fence: nat, callId: string)
    | BeginCall(fence: nat, callId: string)
    | SettleCall(fence: nat, callId: string, completed: bool)
    | HoldComputer(fence: nat)
    | ForeignHold(runId: string, owner: string, fence: nat)
    | EndWork(fence: nat, ending: Ending, reply: Reply)
    | Interrupt(fence: nat)
    | FreeComputer(fence: nat, reached: bool)
    | CallRevokes(fence: nat)
    | SettleRevoke(fence: nat, proxy: string, failed: bool)
    | AbandonOwn(fence: nat, reached: bool)
    | ScanComputers
    | DeleteScanned(binding: Binding)
    | Crash(fence: nat)

  function Land(s: State, owner: string, fence: nat, p: Patch): Option<State> {
    match Update(s.db, owner, fence, p)
    case None => None
    case Some(db) =>
      Some(s.(db := db, settled := if p.status.Some? && Terminal(p.status.value) then s.settled + [Settlement(fence, p)] else s.settled))
  }

  function OrElse(landed: Option<State>, s: State): State {
    if landed.Some? then landed.value else s
  }

  function Enter(s: State, fence: nat, phase: Phase): State
    requires fence in s.execs
  {
    s.(execs := s.execs[fence := s.execs[fence].(phase := phase)])
  }

  function Start(s: State, acquired: Option<Db>, owner: string, phase: Phase): Option<State> {
    match acquired
    case None => Some(s)
    case Some(db) => Some(s.(db := db, execs := s.execs[db.row.fence := Execution(owner, phase, {}, {}, {}, {}, {})]))
  }

  predicate InScope(p: Phase) {
    p == Working || p == Settled || p == Finished
  }

  predicate In(s: State, fence: nat, p: Phase) {
    fence in s.execs && s.execs[fence].phase == p
  }

  function EndOfWork(s: State, f: nat, p: Patch, reply: Reply): State
    requires f in s.execs
  {
    var landed := Land(s, s.execs[f].owner, f, p);
    match reply
    case Heard => if landed.Some? then Enter(landed.value, f, Settled) else Enter(s, f, Lost)
    case Dropped(true) => Enter(OrElse(landed, s), f, Lost)
    case Dropped(false) => Enter(s, f, Lost)
  }

  /** `registerProxy`, which nothing closes. */
  function Registered(e: Execution, proxy: string): Execution {
    e.(proxies := e.proxies + {proxy}, late := if e.phase.Revoking? || e.phase == Over then e.late + {proxy} else e.late)
  }

  /** `revokeProxies` calls every revoke before it awaits any. */
  function Called(e: Execution): Execution {
    e.(phase := Revoking(e.phase == Lost, e.proxies), revokes := e.proxies)
  }

  function Answer(e: Execution, proxy: string, failed: bool): Execution
    requires e.phase.Revoking?
  {
    e.(phase := e.phase.(unsettled := e.phase.unsettled - {proxy}), refused := if failed then e.refused + {proxy} else e.refused)
  }

  function Issuing(e: Execution, callId: string): Execution {
    e.(issued := e.issued + {callId})
  }

  function Begun(e: Execution, callId: string): Execution {
    e.(issued := e.issued - {callId})
  }

  /** `begin`: the insert binds the run, and not its lease. */
  function Inserted(db: Db, caller: nat, callId: string): map<string, Effect> {
    if callId in db.effects then db.effects
    else db.effects[callId := Effect(EffectRunning, caller, db.row.fence, Terminal(db.row.status))]
  }

  /** `complete` and `fail`, by the execution whose begin was admitted. */
  function Answered(effects: map<string, Effect>, callId: string, completed: bool): map<string, Effect>
    requires callId in effects
  {
    if effects[callId].status == EffectRunning
    then effects[callId := effects[callId].(status := if completed then EffectCompleted else EffectFailed)] else effects
  }

  /** One action; None when the process is not where the action starts. */
  function Act(s: State, a: Action): Option<State> {
    match a
    case Tick(ms) => Some(s.(db := s.db.(now := s.db.now + ms)))
    case ClaimRun(expected, owner) => Start(s, Claim(s.db, expected, owner), owner, Working)
    case ReclaimRun(expected, owner) => Start(s, Reclaim(s.db, expected, owner, true), owner, Fetched)
    case AdoptRun(expected, owner) =>
      if expected in s.handoffs && expected in s.watch then Start(s, Adopt(s.db, expected, owner, s.watch[expected]), owner, Fetched) else None
    case Resume(f) => if In(s, f, Fetched) then Some(Enter(s, f, Working)) else None
    case FailResume(f) => if In(s, f, Fetched) then Some(Enter(OrElse(Land(s, s.execs[f].owner, f, RESUME_FAILURE), s), f, Over)) else None
    case WatchdogReclaim(expected, owner) =>
      (match Reclaim(s.db, expected, owner, false)
       case None => Some(s)
       case Some(db) => Some(s.(db := db, watch := s.watch[db.row.fence := owner])))
    case Handoff(f) => if f in s.watch then Some(s.(handoffs := s.handoffs + {f})) else None
    case WatchdogFail(f) => if f in s.watch then Some(OrElse(Land(s, s.watch[f], f, WATCHDOG_FAILURE), s)) else None
    case Heartbeat(f) =>
      if f in s.execs && InScope(s.execs[f].phase) then
        if Holds(s.db, s.execs[f].owner, f) then Some(s.(db := s.db.(row := Renewed(s.db)))) else Some(Enter(s, f, Lost))
      else None
    case Checkpoint(f, status) =>
      if In(s, f, Working) && (status.None? || !Terminal(status.value)) then Some(OrElse(Land(s, s.execs[f].owner, f, Patch(status, false, None, false)), s)) else None
    case Register(f, proxy) =>
      if f in s.execs && s.execs[f].phase != Fetched && s.execs[f].phase != Crashed then Some(s.(execs := s.execs[f := Registered(s.execs[f], proxy)])) else None
    case IssueCall(f, callId) => if In(s, f, Working) then Some(s.(execs := s.execs[f := Issuing(s.execs[f], callId)])) else None
    case BeginCall(f, callId) =>
      if f in s.execs && callId in s.execs[f].issued
      then Some(s.(execs := s.execs[f := Begun(s.execs[f], callId)], db := s.db.(effects := Inserted(s.db, f, callId)))) else None
    case SettleCall(f, callId, completed) =>
      if callId in s.db.effects && s.db.effects[callId].caller == f then Some(s.(db := s.db.(effects := Answered(s.db.effects, callId, completed)))) else None
    case HoldComputer(f) =>
      if In(s, f, Working) then Some(s.(db := Hold(s.db, Holds(s.db, s.execs[f].owner, f), s.db.runId, s.execs[f].owner, f))) else None
    case ForeignHold(runId, owner, fence) => if runId == s.db.runId then None else Some(s.(db := Hold(s.db, true, runId, owner, fence)))
    case EndWork(f, ending, reply) => if In(s, f, Working) then Some(EndOfWork(s, f, PatchOf(ending), reply)) else None
    case Interrupt(f) => if f in s.execs && InScope(s.execs[f].phase) then Some(Enter(s, f, Lost)) else None
    case FreeComputer(f, reached) =>
      if In(s, f, Settled) then Some(Enter(if reached then s.(db := ReleaseComputer(s.db, s.db.runId, s.execs[f].owner, f)) else s, f, Finished)) else None
    case CallRevokes(f) => if In(s, f, Finished) || In(s, f, Lost) then Some(s.(execs := s.execs[f := Called(s.execs[f])])) else None
    case SettleRevoke(f, proxy, failed) =>
      if f in s.execs && s.execs[f].phase.Revoking? && proxy in s.execs[f].phase.unsettled
      then Some(s.(execs := s.execs[f := Answer(s.execs[f], proxy, failed)])) else None
    case AbandonOwn(f, reached) =>
      if In(s, f, Revoking(true, {})) then
        Some(Enter(if reached then s.(db := s.db.(attempts := CloseAttempt(s.db.attempts, f, Abandoned))) else s, f, Over))
      else if In(s, f, Revoking(false, {})) then Some(Enter(s, f, Over)) else None
    case ScanComputers =>
      Some(if s.db.computer.Some? && s.db.computer.value.expiresAt <= s.db.now then s.(scanned := s.scanned + {s.db.computer.value}) else s)
    case DeleteScanned(b) =>
      if b in s.scanned then Some(s.(db := ReleaseComputer(s.db, b.runId, b.owner, b.fence), scanned := s.scanned - {b})) else None
    case Crash(f) => if f in s.execs && s.execs[f].phase != Over then Some(Enter(s, f, Crashed)) else None
  }

  function Init(runId: string, computer: Option<Binding>, now: int): State {
    State(Db(runId, Row(Queued, None, 0, None), map[], map[], computer, now), map[], map[], {}, {}, [])
  }

  /** The computer may start out held by another run, for no longer than a lease lasts. */
  predicate Starts(runId: string, computer: Option<Binding>) {
    computer.Some? ==> computer.value.runId != runId
  }

  function Reached(runId: string, computer: Option<Binding>, now: int, run: seq<Action>): Option<State> {
    if run == [] then Some(Init(runId, computer, now))
    else
      match Reached(runId, computer, now, run[..|run| - 1])
      case None => None
      case Some(s) => Act(s, run[|run| - 1])
  }

  // ---- the invariant ----

  ghost predicate RowInv(db: Db) {
    && (db.row.owner.Some? <==> db.row.expiresAt.Some?)
    && (db.row.status == Queued ==> db.row.owner.None? && db.row.fence == 0)
    && (Active(db.row.status) ==> db.row.owner.Some?)
    && (db.row.expiresAt.Some? ==> db.row.expiresAt.value <= db.now + TTL)
    && (db.computer.Some? && db.computer.value.runId == db.runId ==> db.computer.value.fence <= db.row.fence)
  }

  /** A binding a pass has read as lapsed lapsed by now. */
  ghost predicate ScanInv(s: State) {
    forall b :: b in s.scanned ==> b.expiresAt <= s.db.now
  }

  /** Every acquisition has its own fence, and the newest one is the row's. */
  ghost predicate FenceInv(s: State) {
    && (forall f :: f in s.execs ==> f <= s.db.row.fence && f in s.db.attempts)
    && (forall f :: f in s.watch ==> f <= s.db.row.fence && f !in s.execs && f !in s.db.attempts)
    && (forall f :: f in s.db.attempts ==> f <= s.db.row.fence)
    && (s.db.row.owner.Some? ==>
          || (s.db.row.fence in s.execs && s.execs[s.db.row.fence].owner == s.db.row.owner.value)
          || (s.db.row.fence in s.watch && s.watch[s.db.row.fence] == s.db.row.owner.value))
    && (forall f :: f in s.db.attempts && s.db.attempts[f] == InProgress ==> f == s.db.row.fence && Active(s.db.row.status))
  }

  ghost predicate SettleInv(s: State) {
    && |s.settled| == (if Terminal(s.db.row.status) then 1 else 0)
    && (s.settled != [] ==>
          && s.settled[0].fence == s.db.row.fence
          && Known(s.settled[0].patch)
          && s.settled[0].patch.status == Some(s.db.row.status)
          && (s.db.row.owner.None? <==> s.settled[0].patch.release))
  }

  /** Once the revokes have been called every handle was called or came too late, and none is
      called before; an execution is over only when every call was answered. */
  ghost predicate RevokesOk(e: Execution) {
    && (e.phase.Revoking? || e.phase == Over ==> e.proxies == e.revokes + e.late && e.refused <= e.revokes)
    && (e.phase.Revoking? ==> e.phase.unsettled <= e.revokes && e.refused !! e.phase.unsettled)
    && (e.phase.Fetched? ==> e.proxies == {})
    && (!e.phase.Revoking? && e.phase != Over && e.phase != Crashed ==> e.revokes == e.late == e.refused == {})
  }

  ghost predicate PhaseInv(s: State) {
    forall f :: f in s.execs ==>
      && RevokesOk(s.execs[f])
      && (s.execs[f].phase == Settled || s.execs[f].phase == Finished ==>
            Terminal(s.db.row.status) && s.db.row.fence == f && s.settled != [] && s.settled[0].patch.release)
  }

  ghost predicate Inv(s: State) {
    RowInv(s.db) && FenceInv(s) && SettleInv(s) && PhaseInv(s) && ScanInv(s)
  }

  lemma AcquireKeeps(s: State, db: Db, owner: string, phase: Phase)
    requires Inv(s) && !Terminal(s.db.row.status) && (phase == Working || phase == Fetched)
    requires db.runId == s.db.runId && db.computer == s.db.computer && db.now == s.db.now
    requires db.row == Acquired(s.db, owner).(status := db.row.status) && Active(db.row.status)
    requires s.db.row.fence + 1 in db.attempts && db.attempts.Keys == s.db.attempts.Keys + {s.db.row.fence + 1}
    requires forall f :: f in s.db.attempts ==> db.attempts[f] != InProgress
    ensures Inv(s.(db := db, execs := s.execs[db.row.fence := Execution(owner, phase, {}, {}, {}, {}, {})]))
  {
  }

  lemma ClaimKeeps(s: State, expected: nat, owner: string)
    requires Inv(s)
    ensures Inv(Act(s, ClaimRun(expected, owner)).value)
  {
  }

  lemma ReclaimKeeps(s: State, expected: nat, owner: string)
    requires Inv(s)
    ensures Inv(Act(s, ReclaimRun(expected, owner)).value)
  {
    var c := Reclaim(s.db, expected, owner, true);
    if c.Some? {
      AcquireKeeps(s, c.value, owner, Fetched);
    }
  }

  /** Only the watchdog's lease is ever handed over, and it recorded no attempt. */
  lemma AdoptKeeps(s: State, expected: nat, owner: string)
    requires Inv(s) && Act(s, AdoptRun(expected, owner)).Some?
    ensures Inv(Act(s, AdoptRun(expected, owner)).value)
  {
    var c := Adopt(s.db, expected, owner, s.watch[expected]);
    if c.Some? {
      AcquireKeeps(s, c.value, owner, Fetched);
    }
  }

  lemma WatchdogReclaimKeeps(s: State, expected: nat, owner: string)
    requires Inv(s)
    ensures Inv(Act(s, WatchdogReclaim(expected, owner)).value)
  {
  }

  /** A landed write by an execution, or by the watchdog under its own acquisition. */
  lemma LandKeeps(s: State, owner: string, fence: nat, p: Patch)
    requires Inv(s) && Land(s, owner, fence, p).Some?
    requires Known(p) || p == Patch(p.status, false, None, false)
    requires p.status.Some? && Terminal(p.status.value) ==> Known(p)
    requires p.attempt.None? && Known(p) ==> fence in s.watch
    ensures Inv(Land(s, owner, fence, p).value)
  {
  }

  lemma EnterKeeps(s: State, f: nat, phase: Phase)
    requires Inv(s) && f in s.execs
    requires RevokesOk(s.execs[f].(phase := phase))
    requires phase in {Settled, Finished} ==> Terminal(s.db.row.status) && s.db.row.fence == f && s.settled != [] && s.settled[0].patch.release
    ensures Inv(Enter(s, f, phase))
  {
  }

  lemma EndWorkKeeps(s: State, f: nat, ending: Ending, reply: Reply)
    requires Inv(s) && In(s, f, Working)
    ensures Inv(EndOfWork(s, f, PatchOf(ending), reply))
  {
    var landed := Land(s, s.execs[f].owner, f, PatchOf(ending));
    if landed.Some? {
      LandKeeps(s, s.execs[f].owner, f, PatchOf(ending));
      EnterKeeps(landed.value, f, Lost);
      EnterKeeps(landed.value, f, Settled);
    }
    EnterKeeps(s, f, Lost);
  }

  /** A change of the computer, the clock or the ledger that leaves the run alone. */
  lemma BesideKeeps(s: State, db: Db)
    requires Inv(s) && db.row == s.db.row && db.attempts == s.db.attempts && db.runId == s.db.runId && db.now >= s.db.now
    requires db.computer.Some? && db.computer.value.runId == db.runId ==> db.computer.value.fence <= db.row.fence
    ensures Inv(s.(db := db))
  {
  }

  lemma CloseKeeps(s: State, f: nat)
    requires Inv(s)
    ensures Inv(s.(db := s.db.(attempts := CloseAttempt(s.db.attempts, f, Abandoned))))
  {
  }

  lemma AbandonKeeps(s: State, f: nat, reached: bool)
    requires Inv(s) && Act(s, AbandonOwn(f, reached)).Some?
    ensures Inv(Act(s, AbandonOwn(f, reached)).value)
  {
    if s.execs[f].phase.lost && reached {
      CloseKeeps(s, f);
      EnterKeeps(s.(db := s.db.(attempts := CloseAttempt(s.db.attempts, f, Abandoned))), f, Over);
    } else {
      EnterKeeps(s, f, Over);
    }
  }

  lemma FailResumeKeeps(s: State, f: nat)
    requires Inv(s) && In(s, f, Fetched)
    ensures Inv(Act(s, FailResume(f)).value)
  {
    var landed := Land(s, s.execs[f].owner, f, RESUME_FAILURE);
    if landed.Some? {
      LandKeeps(s, s.execs[f].owner, f, RESUME_FAILURE);
    }
    EnterKeeps(OrElse(landed, s), f, Over);
  }

  lemma WatchdogFailKeeps(s: State, f: nat)
    requires Inv(s) && f in s.watch
    ensures Inv(Act(s, WatchdogFail(f)).value)
  {
  }

  lemma CheckpointKeeps(s: State, f: nat, status: Option<RunStatus>)
    requires Inv(s) && Act(s, Checkpoint(f, status)).Some?
    ensures Inv(Act(s, Checkpoint(f, status)).value)
  {
    var p := Patch(status, false, None, false);
    if Land(s, s.execs[f].owner, f, p).Some? {
      LandKeeps(s, s.execs[f].owner, f, p);
    }
  }

  lemma ScanKeeps(s: State, scanned: set<Binding>)
    requires Inv(s) && forall b :: b in scanned ==> b.expiresAt <= s.db.now
    ensures Inv(s.(scanned := scanned))
  {
  }

  lemma BesideStepKeeps(s: State, a: Action)
    requires Inv(s) && Act(s, a).Some?
    requires a.Tick? || a.SettleCall? || a.HoldComputer? || a.ForeignHold? || a.ScanComputers? || a.DeleteScanned?
    ensures Inv(Act(s, a).value)
  {
    var t := Act(s, a).value;
    ScanKeeps(s, t.scanned);
    BesideKeeps(s.(scanned := t.scanned), t.db);
  }

  lemma FreeKeeps(s: State, f: nat, reached: bool)
    requires Inv(s) && In(s, f, Settled)
    ensures Inv(Act(s, FreeComputer(f, reached)).value)
  {
  }

  lemma HeartbeatKeeps(s: State, f: nat)
    requires Inv(s) && Act(s, Heartbeat(f)).Some?
    ensures Inv(Act(s, Heartbeat(f)).value)
  {
    if !Holds(s.db, s.execs[f].owner, f) {
      EnterKeeps(s, f, Lost);
    }
  }

  lemma ExecutionKeeps(s: State, f: nat, e: Execution)
    requires Inv(s) && f in s.execs && RevokesOk(e) && e.owner == s.execs[f].owner
    requires e.phase == Settled || e.phase == Finished ==> s.execs[f].phase == Settled || s.execs[f].phase == Finished
    ensures Inv(s.(execs := s.execs[f := e]))
  {
  }

  lemma CallKeeps(s: State, a: Action)
    requires Inv(s) && Act(s, a).Some? && (a.IssueCall? || a.BeginCall?)
    ensures Inv(Act(s, a).value)
  {
    var t := Act(s, a).value;
    ExecutionKeeps(s, a.fence, t.execs[a.fence]);
    BesideKeeps(s.(execs := t.execs), t.db);
  }

  lemma HandoffKeeps(s: State, f: nat)
    requires Inv(s)
    ensures Inv(s.(handoffs := s.handoffs + {f}))
  {
  }

  lemma AcquisitionKeeps(s: State, a: Action)
    requires Inv(s) && Act(s, a).Some? && (a.ClaimRun? || a.ReclaimRun? || a.AdoptRun? || a.WatchdogReclaim?)
    ensures Inv(Act(s, a).value)
  {
    match a
    case ClaimRun(expected, owner) => ClaimKeeps(s, expected, owner);
    case ReclaimRun(expected, owner) => ReclaimKeeps(s, expected, owner);
    case AdoptRun(expected, owner) => AdoptKeeps(s, expected, owner);
    case WatchdogReclaim(expected, owner) => WatchdogReclaimKeeps(s, expected, owner);
  }

  lemma RevocationKeeps(s: State, a: Action)
    requires Inv(s) && Act(s, a).Some? && (a.Register? || a.CallRevokes? || a.SettleRevoke? || a.AbandonOwn?)
    ensures Inv(Act(s, a).value)
  {
    match a
    case Register(f, proxy) => ExecutionKeeps(s, f, Registered(s.execs[f], proxy));
    case CallRevokes(f) => ExecutionKeeps(s, f, Called(s.execs[f]));
    case SettleRevoke(f, proxy, failed) => ExecutionKeeps(s, f, Answer(s.execs[f], proxy, failed));
    case AbandonOwn(f, reached) => AbandonKeeps(s, f, reached);
  }

  lemma WriteKeeps(s: State, a: Action)
    requires Inv(s) && Act(s, a).Some?
    requires a.FailResume? || a.WatchdogFail? || a.Checkpoint? || a.EndWork? || a.Heartbeat? || a.FreeComputer?
    ensures Inv(Act(s, a).value)
  {
    match a
    case FailResume(f) => FailResumeKeeps(s, f);
    case WatchdogFail(f) => WatchdogFailKeeps(s, f);
    case Checkpoint(f, status) => CheckpointKeeps(s, f, status);
    case EndWork(f, ending, reply) => EndWorkKeeps(s, f, ending, reply);
    case Heartbeat(f) => HeartbeatKeeps(s, f);
    case FreeComputer(f, reached) => FreeKeeps(s, f, reached);
  }

  lemma PhaseKeeps(s: State, a: Action)
    requires Inv(s) && Act(s, a).Some? && (a.Resume? || a.Interrupt? || a.Crash? || a.Handoff?)
    ensures Inv(Act(s, a).value)
  {
    match a
    case Resume(f) => EnterKeeps(s, f, Working);
    case Interrupt(f) => EnterKeeps(s, f, Lost);
    case Crash(f) => EnterKeeps(s, f, Crashed);
    case Handoff(f) => HandoffKeeps(s, f);
  }

  lemma ActKeeps(s: State, a: Action)
    requires Inv(s) && Act(s, a).Some?
    ensures Inv(Act(s, a).value)
  {
    if a.ClaimRun? || a.ReclaimRun? || a.AdoptRun? || a.WatchdogReclaim? {
      AcquisitionKeeps(s, a);
    } else if a.Register? || a.CallRevokes? || a.SettleRevoke? || a.AbandonOwn? {
      RevocationKeeps(s, a);
    } else if a.FailResume? || a.WatchdogFail? || a.Checkpoint? || a.EndWork? || a.Heartbeat? || a.FreeComputer? {
      WriteKeeps(s, a);
    } else if a.Resume? || a.Interrupt? || a.Crash? || a.Handoff? {
      PhaseKeeps(s, a);
    } else if a.IssueCall? || a.BeginCall? {
      CallKeeps(s, a);
    } else {
      BesideStepKeeps(s, a);
    }
  }

  lemma {:induction false} EveryStateIsFenced(runId: string, computer: Option<Binding>, now: int, run: seq<Action>)
    requires Starts(runId, computer) && Reached(runId, computer, now, run).Some?
    ensures Inv(Reached(runId, computer, now, run).value)
    decreases |run|
  {
    if run != [] {
      EveryStateIsFenced(runId, computer, now, run[..|run| - 1]);
      ActKeeps(Reached(runId, computer, now, run[..|run| - 1]).value, run[|run| - 1]);
    }
  }

  /** Some run of actions ends in `s`. */
  ghost predicate Reachable(s: State) {
    exists runId, computer, now, run :: Starts(runId, computer) && Reached(runId, computer, now, run) == Some(s)
  }

  lemma ReachableIsFenced(s: State)
    requires Reachable(s)
    ensures Inv(s)
  {
    var runId, computer, now, run :| Starts(runId, computer) && Reached(runId, computer, now, run) == Some(s);
    EveryStateIsFenced(runId, computer, now, run);
  }

  // ---- what the fence guarantees ----

  /** A run is settled at most once, and it is terminal exactly when it has been settled, by
      the newest acquisition. */
  lemma SettledAtMostOnce(s: State)
    requires Reachable(s)
    ensures |s.settled| <= 1 && (Terminal(s.db.row.status) <==> |s.settled| == 1)
    ensures s.settled != [] ==> s.settled[0].fence == s.db.row.fence && s.settled[0].patch.status == Some(s.db.row.status)
  {
    ReachableIsFenced(s);
  }

  /** The actions whose statements are guarded by an active, queued or held row. */
  predicate Guarded(a: Action) {
    a.ClaimRun? || a.ReclaimRun? || a.AdoptRun? || a.WatchdogReclaim? || a.FailResume? || a.WatchdogFail? || a.Heartbeat?
    || a.Checkpoint? || a.EndWork?
  }

  lemma GuardsRefuseTerminal(s: State, a: Action)
    requires Terminal(s.db.row.status) && Act(s, a).Some? && Guarded(a)
    ensures Act(s, a).value.db == s.db && Act(s, a).value.settled == s.settled
  {
  }

  lemma UnguardedLeaveTheRow(s: State, a: Action)
    requires FenceInv(s) && Act(s, a).Some? && !Guarded(a)
    ensures var t := Act(s, a).value; t.db.row == s.db.row && t.settled == s.settled
    ensures Terminal(s.db.row.status) ==> Act(s, a).value.db.attempts == s.db.attempts
  {
  }

  /** Nothing any worker does later touches a terminal row or its attempts. */
  lemma TerminalRowIsFinal(s: State, a: Action)
    requires Reachable(s) && Terminal(s.db.row.status) && Act(s, a).Some?
    ensures var t := Act(s, a).value; t.db.row == s.db.row && t.db.attempts == s.db.attempts && t.settled == s.settled
  {
    ReachableIsFenced(s);
    if Guarded(a) {
      GuardsRefuseTerminal(s, a);
    } else {
      UnguardedLeaveTheRow(s, a);
    }
  }

  /** The status moves along the run state machine, and a fence only grows. */
  lemma RowMovesLegally(s: State, a: Action)
    requires Act(s, a).Some?
    ensures var t := Act(s, a).value;
            && (t.db.row.status == s.db.row.status || t.db.row.status in Transitions(s.db.row.status))
            && s.db.row.fence <= t.db.row.fence <= s.db.row.fence + 1
  {
  }

  /** The execution an action belongs to. */
  function Actor(a: Action): Option<nat> {
    match a
    case Resume(f) => Some(f)
    case FailResume(f) => Some(f)
    case Heartbeat(f) => Some(f)
    case Checkpoint(f, _) => Some(f)
    case Register(f, _) => Some(f)
    case IssueCall(f, _) => Some(f)
    case BeginCall(f, _) => Some(f)
    case SettleCall(f, _, _) => Some(f)
    case HoldComputer(f) => Some(f)
    case EndWork(f, _, _) => Some(f)
    case Interrupt(f) => Some(f)
    case FreeComputer(f, _) => Some(f)
    case CallRevokes(f) => Some(f)
    case SettleRevoke(f, _, _) => Some(f)
    case AbandonOwn(f, _) => Some(f)
    case Crash(f) => Some(f)
    case _ => None
  }

  lemma MovedWritesNothing(s: State, a: Action, f: nat)
    requires Inv(s) && Act(s, a).Some? && Actor(a) == Some(f) && f in s.execs && f != s.db.row.fence && !a.BeginCall? && !a.SettleCall?
    ensures Act(s, a).value.db == s.db
  {
    assert !Holds(s.db, s.execs[f].owner, f);
    assert a.FreeComputer? ==> !In(s, f, Settled);
    assert f < s.db.row.fence;
    assert f in s.db.attempts && s.db.attempts[f] != InProgress;
  }

  /** An execution whose fence the row has left changes neither the run's row, nor an attempt, nor
      the computer lease, even when the row has come back to the same owner. All it still reaches
      is the tool-call ledger: a begin it sent, and the outcome of a call it began. */
  lemma MovedFenceWritesNothing(s: State, a: Action, f: nat)
    requires Reachable(s) && Act(s, a).Some? && Actor(a) == Some(f)
    requires f in s.execs && f != s.db.row.fence
    ensures var t := Act(s, a).value;
            && t.db == s.db.(effects := t.db.effects)
            && (t.db.effects != s.db.effects ==> a.BeginCall? || a.SettleCall?)
            && (forall c :: c in s.db.effects && s.db.effects[c].caller != f ==> c in t.db.effects && t.db.effects[c] == s.db.effects[c])
  {
    ReachableIsFenced(s);
    if !a.BeginCall? && !a.SettleCall? {
      MovedWritesNothing(s, a, f);
    }
  }

  /** While an execution's lease is live, no other worker, and no watchdog, changes the row. */
  lemma LiveLeaseIsExclusive(s: State, a: Action, f: nat)
    requires Reachable(s) && Act(s, a).Some? && Actor(a) != Some(f)
    requires f in s.execs && Holds(s.db, s.execs[f].owner, f)
    ensures Act(s, a).value.db.row == s.db.row
  {
    ReachableIsFenced(s);
    if !Guarded(a) {
      UnguardedLeaveTheRow(s, a);
    }
  }

  /** A lease that is not renewed is recoverable as soon as its time to live has passed, and
      the successor starts with no attempt and no call of its predecessor open. */
  lemma LapsedLeaseIsRecovered(s: State, owner: string)
    requires Reachable(s) && Active(s.db.row.status)
    ensures var late := Act(s, Tick(TTL)).value;
            var t := Act(late, ReclaimRun(s.db.row.fence, owner)).value;
            && t.db.row.fence == s.db.row.fence + 1 && t.db.row.owner == Some(owner)
            && (forall g :: g in t.db.attempts && t.db.attempts[g] == InProgress ==> g == t.db.row.fence)
            && (forall c :: c in t.db.effects ==> !InFlight(t.db.effects[c]))
  {
    ReachableIsFenced(s);
  }

  /** An attempt is in progress only for the newest fence of a run that is still active. */
  lemma OpenAttemptIsCurrent(s: State, f: nat)
    requires Reachable(s) && f in s.db.attempts && s.db.attempts[f] == InProgress
    ensures f == s.db.row.fence && Active(s.db.row.status) && f in s.execs
  {
    ReachableIsFenced(s);
  }

  // ---- the tool calls, whose ledger no fence guards ----

  ghost predicate CallOk(s: State, e: Effect) {
    && e.status != EffectPending
    && e.caller in s.execs && e.caller <= e.seen <= s.db.row.fence
    && (InFlight(e) && e.caller == e.seen ==> e.caller == s.db.row.fence)
    && (InFlight(e) && s.settled != [] && s.settled[0].patch.settleInFlight ==> e.over)
  }

  ghost predicate CallInv(s: State) {
    (forall f :: f in s.execs ==> f > 0) && (forall c :: c in s.db.effects ==> CallOk(s, s.db.effects[c]))
  }

  lemma CallsUntouched(s: State, t: State)
    requires CallInv(s) && t.db.effects == s.db.effects && t.db.row.fence == s.db.row.fence && t.settled == s.settled && t.execs.Keys == s.execs.Keys
    ensures CallInv(t)
  {
    assert forall c :: c in t.db.effects ==> CallOk(s, s.db.effects[c]);
  }

  lemma AcquiredCalls(s: State, t: State)
    requires Inv(s) && CallInv(s) && s.settled == [] && t.settled == [] && t.db.row.fence == s.db.row.fence + 1
    requires s.execs.Keys <= t.execs.Keys && forall f :: f in t.execs ==> f in s.execs || f > 0
    requires t.db.effects == SettleEffects(s.db.effects) || (t.db.effects == s.db.effects && s.db.row.fence !in s.execs)
    ensures CallInv(t)
  {
    forall c | c in t.db.effects
      ensures CallOk(t, t.db.effects[c])
    {
      assert CallOk(s, s.db.effects[c]);
    }
  }

  /** A run that is claimed has had no execution, and the lease that is handed over is the
      watchdog's own. */
  lemma AcquisitionKeepsCalls(s: State, a: Action)
    requires Inv(s) && CallInv(s) && Act(s, a).Some? && (a.ClaimRun? || a.ReclaimRun? || a.AdoptRun? || a.WatchdogReclaim?)
    ensures CallInv(Act(s, a).value)
  {
    var t := Act(s, a).value;
    if t.db.row.fence != s.db.row.fence {
      AcquiredCalls(s, t);
    }
  }

  lemma LandKeepsCalls(s: State, owner: string, fence: nat, p: Patch)
    requires Inv(s) && CallInv(s) && Land(s, owner, fence, p).Some?
    ensures CallInv(Land(s, owner, fence, p).value)
  {
    var t := Land(s, owner, fence, p).value;
    forall c | c in t.db.effects
      ensures CallOk(t, t.db.effects[c])
    {
      assert CallOk(s, s.db.effects[c]);
    }
  }

  lemma EndKeepsCalls(s: State, f: nat, ending: Ending, reply: Reply)
    requires Inv(s) && CallInv(s) && In(s, f, Working)
    ensures CallInv(EndOfWork(s, f, PatchOf(ending), reply))
  {
    var landed := Land(s, s.execs[f].owner, f, PatchOf(ending));
    if landed.Some? {
      LandKeepsCalls(s, s.execs[f].owner, f, PatchOf(ending));
      CallsUntouched(landed.value, Enter(landed.value, f, Settled));
      CallsUntouched(landed.value, Enter(landed.value, f, Lost));
    }
    CallsUntouched(s, Enter(s, f, Lost));
  }

  lemma WriteKeepsCalls(s: State, a: Action)
    requires Inv(s) && CallInv(s) && Act(s, a).Some? && (a.FailResume? || a.WatchdogFail? || a.Checkpoint? || a.EndWork?)
    ensures CallInv(Act(s, a).value)
  {
    match a
    case FailResume(f) =>
      if Land(s, s.execs[f].owner, f, RESUME_FAILURE).Some? {
        LandKeepsCalls(s, s.execs[f].owner, f, RESUME_FAILURE);
      }
      CallsUntouched(OrElse(Land(s, s.execs[f].owner, f, RESUME_FAILURE), s), Act(s, a).value);
    case WatchdogFail(f) =>
      if Land(s, s.watch[f], f, WATCHDOG_FAILURE).Some? {
        LandKeepsCalls(s, s.watch[f], f, WATCHDOG_FAILURE);
      }
    case Checkpoint(f, status) =>
      if Land(s, s.execs[f].owner, f, Patch(status, false, None, false)).Some? {
        LandKeepsCalls(s, s.execs[f].owner, f, Patch(status, false, None, false));
      }
    case EndWork(f, ending, reply) => EndKeepsCalls(s, f, ending, reply);
  }

  lemma LedgerKeepsCalls(s: State, a: Action)
    requires Inv(s) && CallInv(s) && Act(s, a).Some? && (a.BeginCall? || a.SettleCall?)
    ensures CallInv(Act(s, a).value)
  {
    var t := Act(s, a).value;
    forall c | c in t.db.effects
      ensures CallOk(t, t.db.effects[c])
    {
      assert c in s.db.effects ==> CallOk(s, s.db.effects[c]);
    }
  }

  /** The actions that neither acquire the run, nor write its row, nor reach the ledger. */
  predicate Aside(a: Action) {
    a.Tick? || a.Resume? || a.Handoff? || a.Heartbeat? || a.Register? || a.IssueCall? || a.HoldComputer? || a.ForeignHold? || a.Interrupt?
    || a.FreeComputer? || a.CallRevokes? || a.SettleRevoke? || a.AbandonOwn? || a.ScanComputers? || a.DeleteScanned? || a.Crash?
  }

  lemma AsideLeavesCalls(s: State, a: Action)
    requires Act(s, a).Some? && Aside(a)
    ensures var t := Act(s, a).value;
            t.db.effects == s.db.effects && t.db.row.fence == s.db.row.fence && t.settled == s.settled && t.execs.Keys == s.execs.Keys
  {
  }

  lemma ActKeepsCalls(s: State, a: Action)
    requires Inv(s) && CallInv(s) && Act(s, a).Some?
    ensures CallInv(Act(s, a).value)
  {
    if a.ClaimRun? || a.ReclaimRun? || a.AdoptRun? || a.WatchdogReclaim? {
      AcquisitionKeepsCalls(s, a);
    } else if a.FailResume? || a.WatchdogFail? || a.Checkpoint? || a.EndWork? {
      WriteKeepsCalls(s, a);
    } else if a.BeginCall? || a.SettleCall? {
      LedgerKeepsCalls(s, a);
    } else {
      AsideLeavesCalls(s, a);
      CallsUntouched(s, Act(s, a).value);
    }
  }

  lemma {:induction false} CallsStaySound(runId: string, computer: Option<Binding>, now: int, run: seq<Action>)
    requires Starts(runId, computer) && Reached(runId, computer, now, run).Some?
    ensures CallInv(Reached(runId, computer, now, run).value)
    decreases |run|
  {
    if run != [] {
      CallsStaySound(runId, computer, now, run[..|run| - 1]);
      EveryStateIsFenced(runId, computer, now, run[..|run| - 1]);
      ActKeepsCalls(Reached(runId, computer, now, run[..|run| - 1]).value, run[|run| - 1]);
    }
  }

  lemma ReachableCalls(s: State)
    requires Reachable(s)
    ensures CallInv(s)
  {
    var runId, computer, now, run :| Starts(runId, computer) && Reached(runId, computer, now, run) == Some(s);
    CallsStaySound(runId, computer, now, run);
  }

  /** A call in flight is another execution's than the one the row names exactly when its begin
      landed after the row had left the execution that sent it; and the row's own otherwise. */
  lemma ForeignCallWhen(s: State, c: string)
    requires Reachable(s) && c in s.db.effects && InFlight(s.db.effects[c])
    ensures var e := s.db.effects[c]; e.caller != s.db.row.fence <==> e.caller < e.seen
  {
    ReachableCalls(s);
    assert CallOk(s, s.db.effects[c]);
  }

  /** A call is in flight on a run whose last write settled the calls only if it began after. */
  lemma CallAfterTheEnd(s: State, c: string)
    requires Reachable(s) && Terminal(s.db.row.status) && c in s.db.effects && InFlight(s.db.effects[c])
    ensures s.settled != [] && (s.settled[0].patch.settleInFlight ==> s.db.effects[c].over)
  {
    ReachableIsFenced(s);
    ReachableCalls(s);
    assert CallOk(s, s.db.effects[c]);
  }

  /** The writes that settle every call in flight. */
  predicate Sweeps(s: State, a: Action) {
    || (a.ReclaimRun? && Reclaim(s.db, a.expected, a.owner, true).Some?)
    || (a.WatchdogReclaim? && Reclaim(s.db, a.expected, a.owner, false).Some?)
    || (a.EndWork? && In(s, a.fence, Working) && Holds(s.db, s.execs[a.fence].owner, a.fence)
        && (a.ending.WasCancelled? || a.ending.WasFailed?) && a.reply != Dropped(false))
  }

  /** Everything else leaves the ledger as it is. */
  lemma LedgerUntouched(s: State, a: Action)
    requires Act(s, a).Some? && !a.BeginCall? && !a.SettleCall? && !a.ReclaimRun? && !a.WatchdogReclaim? && !a.EndWork?
    ensures Act(s, a).value.db.effects == s.db.effects
  {
  }

  lemma AcquisitionSweeps(s: State, a: Action)
    requires Act(s, a).Some? && (a.ReclaimRun? || a.WatchdogReclaim?)
    ensures Act(s, a).value.db.effects == if Sweeps(s, a) then SettleEffects(s.db.effects) else s.db.effects
    ensures Terminal(s.db.row.status) ==> !Sweeps(s, a)
  {
  }

  lemma EndSweeps(s: State, a: Action)
    requires Act(s, a).Some? && a.EndWork?
    ensures Act(s, a).value.db.effects == if Sweeps(s, a) then SettleEffects(s.db.effects) else s.db.effects
    ensures Terminal(s.db.row.status) ==> !Sweeps(s, a)
  {
    var landed := Land(s, s.execs[a.fence].owner, a.fence, PatchOf(a.ending));
    assert landed.Some? ==> Holds(s.db, s.execs[a.fence].owner, a.fence);
  }

  /** A call leaves flight exactly by the outcome its own execution records, or by a write that
      settles them all; so once the run is terminal only the first is left. */
  lemma LeavesFlightWhen(s: State, a: Action, c: string)
    requires Reachable(s) && Act(s, a).Some? && c in s.db.effects && InFlight(s.db.effects[c])
    ensures var t := Act(s, a).value;
            && c in t.db.effects
            && (!InFlight(t.db.effects[c]) <==> (a.SettleCall? && a.callId == c && a.fence == s.db.effects[c].caller) || Sweeps(s, a))
            && (Terminal(s.db.row.status) ==> !Sweeps(s, a))
  {
    ReachableCalls(s);
    assert CallOk(s, s.db.effects[c]);
    SettleEffectsSettles(s.db.effects);
    if a.ReclaimRun? || a.WatchdogReclaim? {
      AcquisitionSweeps(s, a);
    } else if a.EndWork? {
      EndSweeps(s, a);
    } else if !a.BeginCall? && !a.SettleCall? {
      LedgerUntouched(s, a);
    }
  }

  // ---- what each write records ----

  /** An execution that is at work, or about to be, on a run that is still its own has its attempt open. */
  ghost predicate AttemptInv(s: State) {
    forall f :: f in s.execs && (s.execs[f].phase == Working || s.execs[f].phase == Fetched) && f == s.db.row.fence && Active(s.db.row.status) ==>
      f in s.db.attempts && s.db.attempts[f] == InProgress
  }

  lemma AcquisitionOpens(s: State, a: Action)
    requires Inv(s) && AttemptInv(s) && Act(s, a).Some? && (a.ClaimRun? || a.ReclaimRun? || a.AdoptRun? || a.WatchdogReclaim?)
    ensures AttemptInv(Act(s, a).value)
  {
  }

  lemma LandKeepsAttempts(s: State, owner: string, fence: nat, p: Patch)
    requires Inv(s) && AttemptInv(s) && Land(s, owner, fence, p).Some?
    requires p.attempt.Some? ==> p.status.Some? && Terminal(p.status.value)
    ensures AttemptInv(Land(s, owner, fence, p).value)
  {
  }

  lemma WriteKeepsAttempts(s: State, a: Action)
    requires Inv(s) && AttemptInv(s) && Act(s, a).Some? && (a.FailResume? || a.WatchdogFail? || a.Checkpoint?)
    ensures AttemptInv(Act(s, a).value)
  {
    match a
    case FailResume(f) =>
      if Land(s, s.execs[f].owner, f, RESUME_FAILURE).Some? {
        LandKeepsAttempts(s, s.execs[f].owner, f, RESUME_FAILURE);
      }
    case WatchdogFail(f) =>
      if Land(s, s.watch[f], f, WATCHDOG_FAILURE).Some? {
        LandKeepsAttempts(s, s.watch[f], f, WATCHDOG_FAILURE);
      }
    case Checkpoint(f, status) =>
      if Land(s, s.execs[f].owner, f, Patch(status, false, None, false)).Some? {
        LandKeepsAttempts(s, s.execs[f].owner, f, Patch(status, false, None, false));
      }
  }

  lemma EndKeepsAttempts(s: State, f: nat, ending: Ending, reply: Reply)
    requires Inv(s) && AttemptInv(s) && In(s, f, Working)
    ensures AttemptInv(EndOfWork(s, f, PatchOf(ending), reply))
  {
    var landed := Land(s, s.execs[f].owner, f, PatchOf(ending));
    if landed.Some? {
      LandKeepsAttempts(s, s.execs[f].owner, f, PatchOf(ending));
    }
  }

  lemma AbandonKeepsAttempts(s: State, f: nat, reached: bool)
    requires Inv(s) && AttemptInv(s) && Act(s, AbandonOwn(f, reached)).Some?
    ensures AttemptInv(Act(s, AbandonOwn(f, reached)).value)
  {
  }

  lemma ProcessLeavesTheRun(s: State, a: Action)
    requires Act(s, a).Some? && (a.Tick? || a.Resume? || a.Handoff? || a.Register? || a.IssueCall? || a.HoldComputer? || a.ForeignHold? || a.Interrupt?)
    ensures var t := Act(s, a).value; t.db.row == s.db.row && t.db.attempts == s.db.attempts && t.execs.Keys == s.execs.Keys
    ensures forall f :: f in s.execs ==> var was, now := s.execs[f].phase, Act(s, a).value.execs[f].phase;
              was == now || (now != Working && now != Fetched) || (was == Fetched && now == Working)
  {
  }

  lemma RestLeavesTheRun(s: State, a: Action)
    requires Act(s, a).Some?
    requires a.BeginCall? || a.SettleCall? || a.FreeComputer? || a.CallRevokes? || a.SettleRevoke? || a.ScanComputers? || a.DeleteScanned? || a.Crash?
    ensures var t := Act(s, a).value; t.db.row == s.db.row && t.db.attempts == s.db.attempts && t.execs.Keys == s.execs.Keys
    ensures forall f :: f in s.execs ==> var was, now := s.execs[f].phase, Act(s, a).value.execs[f].phase;
              was == now || (now != Working && now != Fetched)
  {
  }

  lemma ActKeepsAttempts(s: State, a: Action)
    requires Inv(s) && AttemptInv(s) && Act(s, a).Some?
    ensures AttemptInv(Act(s, a).value)
  {
    if a.ClaimRun? || a.ReclaimRun? || a.AdoptRun? || a.WatchdogReclaim? {
      AcquisitionOpens(s, a);
    } else if a.FailResume? || a.WatchdogFail? || a.Checkpoint? {
      WriteKeepsAttempts(s, a);
    } else if a.EndWork? {
      EndKeepsAttempts(s, a.fence, a.ending, a.reply);
    } else if a.AbandonOwn? {
      AbandonKeepsAttempts(s, a.fence, a.reached);
    } else if a.Heartbeat? {
    } else if a.BeginCall? || a.SettleCall? || a.FreeComputer? || a.CallRevokes? || a.SettleRevoke? || a.ScanComputers? || a.DeleteScanned? || a.Crash? {
      RestLeavesTheRun(s, a);
    } else {
      ProcessLeavesTheRun(s, a);
    }
  }

  lemma {:induction false} AttemptsStayOpen(runId: string, computer: Option<Binding>, now: int, run: seq<Action>)
    requires Starts(runId, computer) && Reached(runId, computer, now, run).Some?
    ensures AttemptInv(Reached(runId, computer, now, run).value)
    decreases |run|
  {
    if run != [] {
      AttemptsStayOpen(runId, computer, now, run[..|run| - 1]);
      EveryStateIsFenced(runId, computer, now, run[..|run| - 1]);
      ActKeepsAttempts(Reached(runId, computer, now, run[..|run| - 1]).value, run[|run| - 1]);
    }
  }

  lemma ReachableAttempts(s: State)
    requires Reachable(s)
    ensures AttemptInv(s)
  {
    var runId, computer, now, run :| Starts(runId, computer) && Reached(runId, computer, now, run) == Some(s);
    AttemptsStayOpen(runId, computer, now, run);
  }

  /** Whether the write that ends the work reaches the row: the lease is still the execution's, a
      success needs a run that is not waiting, and the statement was not lost on its way. */
  predicate EndLands(s: State, f: nat, ending: Ending, reply: Reply)
    requires f in s.execs
  {
    && reply != Dropped(false)
    && s.db.row.owner == Some(s.execs[f].owner) && s.db.row.fence == f && s.db.row.expiresAt.Some? && s.db.now < s.db.row.expiresAt.value
    && (s.db.row.status == Running || (s.db.row.status == WaitingApproval && !ending.Succeeded?))
  }

  /** What the statement that ends the work makes of the row and the attempt. */
  lemma EndingWrites(db: Db, owner: string, f: nat, ending: Ending)
    requires f in db.attempts && db.attempts[f] == InProgress
    ensures Update(db, owner, f, PatchOf(ending)).Some? <==>
            Holds(db, owner, f) && (db.row.status == Running || (db.row.status == WaitingApproval && !ending.Succeeded?))
    ensures Update(db, owner, f, PatchOf(ending)).Some? ==>
              var after := Update(db, owner, f, PatchOf(ending)).value;
              && (after.row.status == Completed <==> ending.Succeeded?)
              && (after.row.status == Cancelled <==> ending.WasCancelled?)
              && (after.row.status == RunStatus.Failed <==> ending.WasFailed? || ending.Broke?)
              && after.attempts == db.attempts[f := if ending.Succeeded? then AttemptCompleted else if ending.WasCancelled? then AttemptCancelled else AttemptFailed]
              && after.row.owner.None? && after.row.expiresAt.None? && after.row.fence == db.row.fence && Terminal(after.row.status)
  {
  }

  lemma EndSettles(s: State, f: nat, ending: Ending, reply: Reply)
    requires In(s, f, Working)
    ensures var landed, t := Update(s.db, s.execs[f].owner, f, PatchOf(ending)), EndOfWork(s, f, PatchOf(ending), reply);
            if landed.Some? && reply != Dropped(false) then t.db == landed.value && |t.settled| == |s.settled| + 1 else t.db == s.db && t.settled == s.settled
  {
  }

  lemma EndLandsWhen(s: State, f: nat, ending: Ending, reply: Reply)
    requires f in s.execs
    ensures EndLands(s, f, ending, reply) <==> reply != Dropped(false) && Update(s.db, s.execs[f].owner, f, PatchOf(ending)).Some?
  {
  }

  lemma OpenWhileHeld(s: State, f: nat)
    requires AttemptInv(s) && In(s, f, Working) && Holds(s.db, s.execs[f].owner, f)
    ensures f in s.db.attempts && s.db.attempts[f] == InProgress
  {
  }

  /** The end of an execution's work is recorded as it went, on the row and on its attempt, and gives
      the lease up; or, when the write does not land, nowhere. */
  lemma EndIsRecorded(s: State, f: nat, ending: Ending, reply: Reply)
    requires Reachable(s) && In(s, f, Working)
    ensures var t := Act(s, EndWork(f, ending, reply)).value;
            && (|t.settled| > |s.settled| <==> EndLands(s, f, ending, reply))
            && (!EndLands(s, f, ending, reply) ==> t.db == s.db)
            && (EndLands(s, f, ending, reply) ==>
                  && (t.db.row.status == Completed <==> ending.Succeeded?)
                  && (t.db.row.status == Cancelled <==> ending.WasCancelled?)
                  && (t.db.row.status == RunStatus.Failed <==> ending.WasFailed? || ending.Broke?)
                  && f in t.db.attempts
                  && (t.db.attempts[f] == AttemptCompleted <==> ending.Succeeded?)
                  && (t.db.attempts[f] == AttemptCancelled <==> ending.WasCancelled?)
                  && (t.db.attempts[f] == AttemptFailed <==> ending.WasFailed? || ending.Broke?)
                  && (forall g :: g in s.db.attempts && g != f ==> g in t.db.attempts && t.db.attempts[g] == s.db.attempts[g])
                  && t.db.row.owner.None? && t.db.row.expiresAt.None? && t.db.row.fence == f)
  {
    ReachableIsFenced(s);
    ReachableAttempts(s);
    EndSettles(s, f, ending, reply);
    EndLandsWhen(s, f, ending, reply);
    if EndLands(s, f, ending, reply) {
      OpenWhileHeld(s, f);
      EndingWrites(s.db, s.execs[f].owner, f, ending);
    }
  }

  /** A resume that finds nothing to resume, and a watchdog that gives up, record a failure under
      their own lease, and keep it; the watchdog has no attempt to close. */
  lemma GivingUpIsRecorded(s: State, f: nat, watchdog: bool)
    requires Reachable(s) && (if watchdog then f in s.watch else In(s, f, Fetched))
    ensures var owner := if watchdog then s.watch[f] else s.execs[f].owner;
            var t := Act(s, if watchdog then WatchdogFail(f) else FailResume(f)).value;
            if Holds(s.db, owner, f) then
              && t.db.row == s.db.row.(status := RunStatus.Failed)
              && t.db.attempts == (if watchdog then s.db.attempts else s.db.attempts[f := AttemptFailed])
              && t.db.effects == s.db.effects
            else t.db == s.db
  {
    ReachableIsFenced(s);
    ReachableAttempts(s);
  }

  /** A claim takes exactly a queued run that nobody leases, at the fence it expects: the run is then
      running under the claimer's own fence, for one lease, with one attempt. */
  lemma ClaimTakesWhen(s: State, expected: nat, owner: string)
    requires Reachable(s)
    ensures var t := Act(s, ClaimRun(expected, owner)).value;
            var free := s.db.row.status == Queued && s.db.row.fence == expected;
            && (t.db != s.db <==> free)
            && (free ==> t.db.row == Row(Running, Some(owner), expected + 1, Some(s.db.now + 120))
                         && t.db.attempts == s.db.attempts[expected + 1 := InProgress] && In(t, expected + 1, Working) && t.execs[expected + 1].owner == owner)
  {
    ReachableIsFenced(s);
  }

  /** A reclaim takes exactly an active run whose lease has lapsed, at the fence it expects: the old
      attempt is abandoned, every call in flight failed, and the status stays. The watchdog's own
      reclaim opens no attempt. */
  lemma ReclaimTakesWhen(s: State, expected: nat, owner: string, watchdog: bool)
    requires Reachable(s)
    ensures var t := Act(s, if watchdog then WatchdogReclaim(expected, owner) else ReclaimRun(expected, owner)).value;
            var lapsed := Active(s.db.row.status) && s.db.row.fence == expected && s.db.row.expiresAt.Some? && s.db.row.expiresAt.value <= s.db.now;
            && (t.db != s.db <==> lapsed)
            && (lapsed ==>
                  && t.db.row == Row(s.db.row.status, Some(owner), expected + 1, Some(s.db.now + 120))
                  && (expected in s.db.attempts && s.db.attempts[expected] == InProgress ==> t.db.attempts[expected] == Abandoned)
                  && (forall g :: g in s.db.attempts && s.db.attempts[g] != InProgress ==> g in t.db.attempts && t.db.attempts[g] == s.db.attempts[g])
                  && (expected + 1 in t.db.attempts <==> !watchdog) && (!watchdog ==> t.db.attempts[expected + 1] == InProgress)
                  && t.db.effects.Keys == s.db.effects.Keys
                  && (forall c :: c in s.db.effects ==>
                        t.db.effects[c] == if InFlight(s.db.effects[c]) then s.db.effects[c].(status := EffectFailed) else s.db.effects[c]))
  {
    ReachableIsFenced(s);
  }

  /** A worker adopts exactly the lease the watchdog still holds and has handed over. */
  lemma AdoptTakesWhen(s: State, expected: nat, owner: string)
    requires Reachable(s) && expected in s.handoffs && expected in s.watch
    ensures var t := Act(s, AdoptRun(expected, owner)).value;
            && (t.db != s.db <==> Holds(s.db, s.watch[expected], expected))
            && (Holds(s.db, s.watch[expected], expected) ==>
                  && t.db.row == Row(s.db.row.status, Some(owner), expected + 1, Some(s.db.now + 120))
                  && t.db.attempts == s.db.attempts[expected + 1 := InProgress] && t.db.effects == s.db.effects && In(t, expected + 1, Fetched))
  {
    ReachableIsFenced(s);
  }

  /** A heartbeat renews exactly a lease that is still live and still the execution's, for one more
      lease from now; otherwise the execution knows it has lost the run. */
  lemma HeartbeatRenewsWhen(s: State, f: nat)
    requires f in s.execs && InScope(s.execs[f].phase)
    ensures var t := Act(s, Heartbeat(f)).value;
            if s.db.row.owner == Some(s.execs[f].owner) && s.db.row.fence == f && s.db.row.expiresAt.Some? && s.db.now < s.db.row.expiresAt.value && Active(s.db.row.status)
            then t.db == s.db.(row := s.db.row.(expiresAt := Some(s.db.now + 120))) && t.execs == s.execs
            else t.db == s.db && In(t, f, Lost)
  {
  }

  /** A command holds the computer exactly when its run's lease is live and no other holder's binding
      of the computer is; it then has it for one lease. */
  lemma HoldTakesWhen(s: State, f: nat)
    requires In(s, f, Working)
    ensures var t := Act(s, HoldComputer(f)).value;
            var mine := Binding(s.db.runId, s.execs[f].owner, f, s.db.now + 120);
            if Holds(s.db, s.execs[f].owner, f)
               && (s.db.computer.Some? && s.db.now < s.db.computer.value.expiresAt ==> s.db.computer.value == mine.(expiresAt := s.db.computer.value.expiresAt))
            then t.db == s.db.(computer := Some(mine)) else t.db == s.db
  {
  }

  /** A call's outcome is recorded as it was, once, and only while the call is running. */
  lemma OutcomeIsRecorded(s: State, f: nat, c: string, completed: bool)
    requires Reachable(s) && c in s.db.effects && s.db.effects[c].caller == f
    ensures var t := Act(s, SettleCall(f, c, completed)).value;
            && t.db == s.db.(effects := t.db.effects) && t.db.effects.Keys == s.db.effects.Keys
            && (InFlight(s.db.effects[c]) ==> t.db.effects[c] == s.db.effects[c].(status := if completed then EffectCompleted else EffectFailed))
            && (!InFlight(s.db.effects[c]) ==> t.db.effects[c] == s.db.effects[c])
            && (forall d :: d in s.db.effects && d != c ==> t.db.effects[d] == s.db.effects[d])
  {
    ReachableCalls(s);
    assert CallOk(s, s.db.effects[c]);
  }

  /** A begin that lands first puts the call in flight; one whose call is there changes nothing. */
  lemma BeginIsRecorded(s: State, f: nat, c: string)
    requires f in s.execs && c in s.execs[f].issued
    ensures var t := Act(s, BeginCall(f, c)).value;
            && t.db == s.db.(effects := t.db.effects)
            && (c in s.db.effects ==> t.db.effects == s.db.effects)
            && (c !in s.db.effects ==> c in t.db.effects && InFlight(t.db.effects[c]) && t.db.effects[c].caller == f && t.db.effects == s.db.effects[c := t.db.effects[c]])
  {
  }

  /** An execution that lost its lease closes no attempt but its own, and only an open one. */
  lemma AbandonIsRecorded(s: State, f: nat)
    requires In(s, f, Revoking(true, {}))
    ensures Act(s, AbandonOwn(f, true)).value.db ==
            if f in s.db.attempts && s.db.attempts[f] == InProgress then s.db.(attempts := s.db.attempts[f := Abandoned]) else s.db
  {
  }

  /** A checkpoint moves a live run between running and waiting as it says, and is refused otherwise. */
  lemma CheckpointIsRecorded(s: State, f: nat, status: Option<RunStatus>)
    requires In(s, f, Working) && (status.None? || !Terminal(status.value))
    ensures var t := Act(s, Checkpoint(f, status)).value;
            && t.db == s.db.(row := t.db.row)
            && (t.db.row != s.db.row <==>
                  && Holds(s.db, s.execs[f].owner, f)
                  && ((status == Some(Running) && s.db.row.status == WaitingApproval) || (status == Some(WaitingApproval) && s.db.row.status == Running)))
            && (t.db.row != s.db.row ==> t.db.row == s.db.row.(status := status.value))
  {
  }

  /** The actions that touch the computer lease. */
  lemma ComputerMoves(s: State, a: Action)
    requires Act(s, a).Some? && !a.FreeComputer? && !a.HoldComputer? && !a.ForeignHold? && !a.DeleteScanned?
    ensures Act(s, a).value.db.computer == s.db.computer
  {
  }

  /** Whether an action takes a binding from its holder. */
  predicate Takes(s: State, a: Action, b: Binding) {
    Act(s, a).Some? && s.db.computer == Some(b)
    && var c := Act(s, a).value.db.computer; c.None? || !SameHolder(c.value, b.runId, b.owner, b.fence)
  }

  predicate Releases(s: State, a: Action, b: Binding) {
    a.FreeComputer? && a.reached && In(s, a.fence, Settled) && SameHolder(b, s.db.runId, s.execs[a.fence].owner, a.fence)
  }

  /** A pass read this holder's binding, and its delete is still to come. */
  predicate DeletesOld(s: State, a: Action, b: Binding) {
    a.DeleteScanned? && a.binding in s.scanned && SameHolder(b, a.binding.runId, a.binding.owner, a.binding.fence)
  }

  /** A computer lease that has not lapsed is given up exactly by the execution that holds it, at
      its release, or by the delete of a watchdog pass that read the holder's binding as lapsed. */
  lemma LiveComputerIsFreedWhen(s: State, a: Action)
    requires s.db.computer.Some? && s.db.computer.value.expiresAt > s.db.now
    ensures Takes(s, a, s.db.computer.value) <==> Releases(s, a, s.db.computer.value) || DeletesOld(s, a, s.db.computer.value)
  {
    if Act(s, a).Some? && !a.FreeComputer? && !a.HoldComputer? && !a.ForeignHold? && !a.DeleteScanned? {
      ComputerMoves(s, a);
    }
  }

  /** The release comes after the settlement, by the settling fence. */
  lemma ReleaseFollowsSettlement(s: State, a: Action, b: Binding)
    requires Reachable(s) && Releases(s, a, b)
    ensures Terminal(s.db.row.status) && s.settled != [] && s.settled[0].fence == a.fence
  {
    ReachableIsFenced(s);
  }

  /** And such a delete hits a binding its holder renewed after the pass read it. */
  lemma OldScanHitsARenewal(s: State, a: Action, b: Binding)
    requires Reachable(s) && b.expiresAt > s.db.now && DeletesOld(s, a, b)
    ensures a.binding.expiresAt <= s.db.now < b.expiresAt && b == a.binding.(expiresAt := b.expiresAt)
  {
    ReachableIsFenced(s);
  }

  /** However an execution ends (settled, refused, interrupted, lease lost), it has called the
      revoke of every proxy registered before its work ended and heard every answer, a refusal or
      not; a handle it missed was only registered after that. */
  lemma EveryExitRevokes(s: State, f: nat)
    requires Reachable(s) && f in s.execs && s.execs[f].phase == Over
    ensures var e := s.execs[f];
            e.proxies == e.revokes + e.late && e.refused <= e.revokes
  {
    ReachableIsFenced(s);
  }

  /** A refused revoke holds up no other: what is unanswered can still be answered, and the
      execution goes on once nothing is. */
  lemma RefusalStopsNothing(s: State, f: nat, proxy: string, failed: bool, reached: bool)
    requires f in s.execs && s.execs[f].phase.Revoking?
    ensures proxy in s.execs[f].phase.unsettled ==>
              Act(s, SettleRevoke(f, proxy, failed)).Some?
              && Act(s, SettleRevoke(f, proxy, failed)).value.execs[f].phase.unsettled == s.execs[f].phase.unsettled - {proxy}
    ensures Act(s, AbandonOwn(f, reached)).Some? <==> s.execs[f].phase.unsettled == {}
  {
  }

  // ---- where the code falls short of its documentation ----

  /** A terminal run is nobody's lease exactly when the session's end settled it: the two
      failures of a run with nothing to resume keep the owner and the deadline. */
  lemma TerminalRunIsUnleasedWhen(s: State)
    requires Reachable(s) && Terminal(s.db.row.status)
    ensures s.settled != []
    ensures s.db.row.owner.Some? <==> s.settled[0].patch == RESUME_FAILURE || s.settled[0].patch == WATCHDOG_FAILURE
    ensures s.db.row.owner.Some? <==> s.db.row.expiresAt.Some?
  {
    ReachableIsFenced(s);
  }

  /** Only a landed patch ends a run. */
  lemma EndingLands(s: State, a: Action) returns (owner: string, fence: nat, p: Patch)
    requires Act(s, a).Some? && |Act(s, a).value.settled| > |s.settled|
    ensures Land(s, owner, fence, p).Some? && p.status.Some? && Terminal(p.status.value)
    ensures var t := Act(s, a).value; t.db.effects == Land(s, owner, fence, p).value.db.effects && t.settled == s.settled + [Settlement(fence, p)]
  {
    owner, fence, p := "", 0, RESUME_FAILURE;
    match a
    case EndWork(f, ending, _) => owner, fence, p := s.execs[f].owner, f, PatchOf(ending);
    case FailResume(f) => owner, fence, p := s.execs[f].owner, f, RESUME_FAILURE;
    case WatchdogFail(f) => owner, fence, p := s.watch[f], f, WATCHDOG_FAILURE;
    case _ =>
  }

  lemma SettleEffectsSettles(effects: map<string, Effect>)
    ensures SettleEffects(effects).Keys == effects.Keys
    ensures forall c :: c in effects ==> !InFlight(SettleEffects(effects)[c])
  {
  }

  predicate AllSettled(effects: map<string, Effect>) {
    forall c :: c in effects ==> !InFlight(effects[c])
  }

  lemma LandSettlesCalls(s: State, owner: string, fence: nat, p: Patch)
    requires Land(s, owner, fence, p).Some?
    ensures AllSettled(Land(s, owner, fence, p).value.db.effects) <==> p.settleInFlight || AllSettled(s.db.effects)
  {
    SettleEffectsSettles(s.db.effects);
  }

  /** The write that ends a run leaves no call in flight exactly when its patch settles them or
      there were none. */
  lemma EndingSettlesCallsWhen(s: State, a: Action)
    requires Reachable(s) && Act(s, a).Some? && |Act(s, a).value.settled| > |s.settled|
    ensures |Act(s, a).value.settled| == 1
    ensures AllSettled(Act(s, a).value.db.effects) <==> Act(s, a).value.settled[0].patch.settleInFlight || AllSettled(s.db.effects)
  {
    SettledAtMostOnce(s);
    ReachableIsFenced(s);
    var owner, fence, p := EndingLands(s, a);
    OneEnding(s, a);
    LandSettlesCalls(s, owner, fence, p);
  }

  lemma OneEnding(s: State, a: Action)
    requires Inv(s) && Act(s, a).Some? && |Act(s, a).value.settled| > |s.settled|
    ensures s.settled == []
  {
    if Terminal(s.db.row.status) {
      if Guarded(a) {
        GuardsRefuseTerminal(s, a);
      } else {
        UnguardedLeaveTheRow(s, a);
      }
    }
  }

  lemma OneMore(runId: string, run: seq<Action>, a: Action, s: State)
    requires Reached(runId, None, 0, run) == Some(s)
    ensures Reached(runId, None, 0, run + [a]) == Act(s, a)
    ensures Reachable(s)
  {
    assert (run + [a])[..|run|] == run;
    assert Starts(runId, None);
  }

  /** A run claimed by `first` at time 0. */
  function Claimed(): State {
    State(Db("r", Row(Running, Some("first"), 1, Some(TTL)), map[1 := InProgress], map[], None, 0),
          map[1 := Execution("first", Working, {}, {}, {}, {}, {})], map[], {}, {}, [])
  }

  lemma FirstClaim()
    ensures Act(Init("r", None, 0), ClaimRun(0, "first")) == Some(Claimed())
  {
    var db := Claim(Init("r", None, 0).db, 0, "first").value;
    assert db == Claimed().db;
  }

  lemma ClaimedIsReached()
    ensures Reached("r", None, 0, [ClaimRun(0, "first")]) == Some(Claimed())
  {
    FirstClaim();
    OneMore("r", [], ClaimRun(0, "first"), Init("r", None, 0));
    assert [] + [ClaimRun(0, "first")] == [ClaimRun(0, "first")];
  }

  /** A binding of the first worker, and its own run under a lease that lasts longer. */
  function Bound(now: int, leased: int, bound: int, scanned: set<Binding>): State {
    Claimed().(db := Claimed().db.(now := now, row := Row(Running, Some("first"), 1, Some(leased)), computer := Some(Binding("r", "first", 1, bound))),
               scanned := scanned)
  }

  lemma BoundFirst()
    ensures Act(Claimed(), HoldComputer(1)) == Some(Bound(0, TTL, TTL, {}))
  {
    assert Act(Claimed(), HoldComputer(1)).value.db == Bound(0, TTL, TTL, {}).db;
  }

  lemma BoundMoves(now: int, leased: int, bound: int, scanned: set<Binding>)
    requires now < leased
    ensures Act(Bound(now, leased, bound, scanned), Tick(60)) == Some(Bound(now + 60, leased, bound, scanned))
    ensures Act(Bound(now, leased, bound, scanned), Heartbeat(1)) == Some(Bound(now, now + TTL, bound, scanned))
  {
    assert Holds(Bound(now, leased, bound, scanned).db, "first", 1);
  }

  lemma BoundRenews(now: int, leased: int, bound: int, scanned: set<Binding>)
    requires now < leased
    ensures Act(Bound(now, leased, bound, scanned), HoldComputer(1)) == Some(Bound(now, leased, now + TTL, scanned))
  {
    assert Holds(Bound(now, leased, bound, scanned).db, "first", 1);
  }

  lemma BoundIsScanned(leased: int, bound: int)
    ensures Act(Bound(bound, leased, bound, {}), ScanComputers) == Some(Bound(bound, leased, bound, {Binding("r", "first", 1, bound)}))
  {
    assert {} + {Binding("r", "first", 1, bound)} == {Binding("r", "first", 1, bound)};
  }

  /** One more action of a run that starts with no computer held at time 0. */
  lemma Then(run: seq<Action>, a: Action, s: State, t: State) returns (longer: seq<Action>)
    requires Reached("r", None, 0, run) == Some(s) && Act(s, a) == Some(t)
    ensures longer == run + [a] && Reached("r", None, 0, longer) == Some(t)
  {
    longer := run + [a];
    OneMore("r", run, a, s);
  }

  /** A binding lapses while its holder is between two commands, under a run whose lease is live. */
  lemma BindingLapses() returns (run: seq<Action>)
    ensures Reached("r", None, 0, run) == Some(Bound(TTL, 180, TTL, {}))
  {
    ClaimedIsReached();
    BoundFirst();
    run := Then([ClaimRun(0, "first")], HoldComputer(1), Claimed(), Bound(0, TTL, TTL, {}));
    BoundMoves(0, TTL, TTL, {});
    run := Then(run, Tick(60), Bound(0, TTL, TTL, {}), Bound(60, TTL, TTL, {}));
    BoundMoves(60, TTL, TTL, {});
    run := Then(run, Heartbeat(1), Bound(60, TTL, TTL, {}), Bound(60, 180, TTL, {}));
    BoundMoves(60, 180, TTL, {});
    run := Then(run, Tick(60), Bound(60, 180, TTL, {}), Bound(TTL, 180, TTL, {}));
  }

  /** A holder between two commands renews a binding that lapsed; the watchdog pass that read it
      lapsed then deletes the renewed one, under a run that is still at work. */
  lemma OldScanFreesALiveComputer() returns (run: seq<Action>, s: State, b: Binding)
    ensures Reached("r", None, 0, run) == Some(s)
    ensures Holds(s.db, "first", 1) && In(s, 1, Working) && s.settled == []
    ensures s.db.computer.Some? && s.db.computer.value.expiresAt == s.db.now + TTL
    ensures Takes(s, DeleteScanned(b), s.db.computer.value) && Act(s, DeleteScanned(b)).value.db.computer.None?
  {
    b := Binding("r", "first", 1, TTL);
    run := BindingLapses();
    BoundIsScanned(180, TTL);
    run := Then(run, ScanComputers, Bound(TTL, 180, TTL, {}), Bound(TTL, 180, TTL, {b}));
    BoundRenews(TTL, 180, TTL, {b});
    s := Bound(TTL, 180, 2 * TTL, {b});
    run := Then(run, HoldComputer(1), Bound(TTL, 180, TTL, {b}), s);
  }

  lemma SecondReclaims(s: State) returns (t: State)
    requires s == Claimed().(db := Claimed().db.(now := TTL))
    ensures Act(s, ReclaimRun(1, "second")) == Some(t)
    ensures t.db.row == Row(Running, Some("second"), 2, Some(2 * TTL)) && t.db.now == TTL && In(t, 2, Fetched) && t.execs[2].owner == "second"
  {
    t := Act(s, ReclaimRun(1, "second")).value;
  }

  lemma SecondGivesUp(t: State) returns (s: State)
    requires t.db.row == Row(Running, Some("second"), 2, Some(2 * TTL)) && t.db.now == TTL && In(t, 2, Fetched) && t.execs[2].owner == "second"
    ensures Act(t, FailResume(2)) == Some(s) && Terminal(s.db.row.status) && s.db.row.owner == Some("second") && s.db.row.expiresAt.Some?
  {
    assert Land(t, "second", 2, RESUME_FAILURE).Some?;
    s := Act(t, FailResume(2)).value;
  }

  /** A worker stops, its successor finds nothing to resume: the failed run still names the
      successor and its deadline. */
  lemma FailedRunStillLeased() returns (s: State)
    ensures Reachable(s) && Terminal(s.db.row.status) && s.db.row.owner == Some("second") && s.db.row.expiresAt.Some?
  {
    ClaimedIsReached();
    var run := [ClaimRun(0, "first")];
    s := Claimed();
    OneMore("r", run, Tick(TTL), s);
    run, s := run + [Tick(TTL)], s.(db := s.db.(now := TTL));
    OneMore("r", run, ReclaimRun(1, "second"), s);
    var t := SecondReclaims(s);
    run := run + [ReclaimRun(1, "second")];
    OneMore("r", run, FailResume(2), t);
    s := SecondGivesUp(t);
    OneMore("r", run + [FailResume(2)], Tick(0), s);
  }

  /** The first worker's lease has lapsed with a begin on its way, and a second has resumed the run. */
  lemma SecondResumes() returns (run: seq<Action>, s: State)
    ensures Reached("r", None, 0, run) == Some(s) && s.db.row == Row(Running, Some("second"), 2, Some(2 * TTL)) && s.db.now == TTL
    ensures s.db.effects == map[] && In(s, 2, Working) && s.execs[2].owner == "second" && 1 in s.execs && s.execs[1].issued == {"c"}
  {
    ClaimedIsReached();
    CallIsIssued();
    run := Then([ClaimRun(0, "first")], IssueCall(1, "c"), Claimed(), CallIssued());
    s := CallIssued().(db := Claimed().db.(now := TTL));
    run := Then(run, Tick(TTL), CallIssued(), s);
    var t := Act(s, ReclaimRun(1, "second")).value;
    assert t.db.row == Row(Running, Some("second"), 2, Some(2 * TTL)) && t.db.effects == map[] && t.execs[1] == s.execs[1];
    run := Then(run, ReclaimRun(1, "second"), s, t);
    s := Act(t, Resume(2)).value;
    assert s.execs[1] == t.execs[1];
    run := Then(run, Resume(2), t, s);
  }

  /** A begin sent by a worker that then stops lands after a successor has reclaimed and resumed
      the run: the call reads as in flight to the successor, which never began it. */
  lemma LateBeginReadsAsInFlight() returns (s: State)
    ensures Reachable(s) && Holds(s.db, "second", 2) && In(s, 2, Working)
    ensures "c" in s.db.effects && InFlight(s.db.effects["c"]) && s.db.effects["c"].caller == 1 && s.db.effects["c"].seen == 2
  {
    var run, t := SecondResumes();
    s := Act(t, BeginCall(1, "c")).value;
    run := Then(run, BeginCall(1, "c"), t, s);
    OneMore("r", run, Tick(0), s);
  }

  /** Then with a tool call sent to the ledger, and then with the call begun. */
  function CallIssued(): State {
    Claimed().(execs := map[1 := Issuing(Claimed().execs[1], "c")])
  }

  function CallOpen(): State {
    Claimed().(db := Claimed().db.(effects := map["c" := Effect(EffectRunning, 1, 1, false)]))
  }

  lemma CallIsIssued()
    ensures Act(Claimed(), IssueCall(1, "c")) == Some(CallIssued())
  {
    assert Claimed().execs[1 := Issuing(Claimed().execs[1], "c")] == CallIssued().execs;
  }

  lemma CallIsBegun()
    ensures Act(CallIssued(), BeginCall(1, "c")) == Some(CallOpen())
  {
    assert Begun(CallIssued().execs[1], "c") == Claimed().execs[1];
    assert CallIssued().execs[1 := Claimed().execs[1]] == Claimed().execs;
    assert Inserted(CallIssued().db, 1, "c") == map["c" := Effect(EffectRunning, 1, 1, false)];
  }

  lemma BrokenWork() returns (t: State)
    ensures Act(CallOpen(), EndWork(1, Broke, Heard)) == Some(t)
    ensures Terminal(t.db.row.status) && t.db.effects == map["c" := Effect(EffectRunning, 1, 1, false)]
  {
    var landed := Land(CallOpen(), "first", 1, PatchOf(Broke));
    assert landed.Some? && landed.value.db.row.status == RunStatus.Failed && landed.value.db.effects == map["c" := Effect(EffectRunning, 1, 1, false)];
    t := EndOfWork(CallOpen(), 1, PatchOf(Broke), Heard);
  }

  /** The work fails while a tool call is open: the run is terminal and the call reads as in
      flight. */
  lemma FailedWorkLeavesACallOpen() returns (s: State)
    ensures Reachable(s) && Terminal(s.db.row.status) && "c" in s.db.effects && InFlight(s.db.effects["c"])
  {
    ClaimedIsReached();
    CallIsIssued();
    var run := Then([ClaimRun(0, "first")], IssueCall(1, "c"), Claimed(), CallIssued());
    CallIsBegun();
    run := Then(run, BeginCall(1, "c"), CallIssued(), CallOpen());
    s := BrokenWork();
    run := Then(run, EndWork(1, Broke, Heard), CallOpen(), s);
    OneMore("r", run, Tick(0), s);
  }
}
