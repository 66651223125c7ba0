/**
 * One nightly backup and its restore drill, with every dump, storage, prune, restore and ledger
 * step free to fail (apps/backup/src/run.ts, apps/backup/src/drill.ts,
 * packages/core/src/backup-policy.ts, packages/db/src/backup-store.ts); a ledger write may land and
 * still fail for its caller.
 *
 * What each step answers is a parameter (`Oracle`); the backup destination, the server's
 * databases and the run's ledger row are the host's fields. `settles` is history: every
 * settlement of the row that was written.
 */
module BackupRun {
  import opened ByteStreams

  type Code = string

  const DAY := 24 * 60 * 60 * 1000

  datatype RunStatus = Running | Succeeded | Failed

  datatype Stored = Stored(key: string, size: nat, checksum: string)

  datatype Drill = Drill(status: RunStatus, canaryVerified: bool, errorCode: Option<Code>)

  datatype RunRow = RunRow(id: string, canaryToken: string, status: RunStatus, dump: Option<Stored>, homesCount: nat, homesBytes: nat,
                           prunedObjects: nat, errorCode: Option<Code>, drill: Option<Drill>)

  /** A listed home: gone by the time it is read, not copyable, copied though the storage then
      failed, or copied. */
  datatype HomeRead = Vanished | Unreadable(code: Code) | Unanswered(size: nat, checksum: string, code: Code) | Copied(size: nat, checksum: string)

  datatype Home = Home(sourceKey: string, read: HomeRead)

  /** A listed backup object; None when its date cannot be parsed. */
  datatype Aged = Aged(key: string, modified: Option<int>)

  /** What a restored database answers. */
  datatype Restored = Restored(tables: nat, canary: Option<string>)

  /** What comes of creating a free name. */
  datatype Create = Created | NotCreated | CreatedUnheard

  /** A drop that lands is no failure here, heard of or not: its answer is never used. */
  datatype DrillOracle = DrillOracle(scratch: string, create: Create, restore: Result<Restored, Code>, firstDropFails: bool, lastDropFails: bool)

  /** What comes of a ledger write: it lands and answers, it does not land, or it lands and the
      caller sees a failure all the same. */
  datatype Write = Landed | Unwritten(code: Code) | ReplyLost(code: Code)

  datatype LedgerOracle = LedgerOracle(begin: Write, canary: Write, settle: Write, beginDrill: Write, settleDrill: Write, failDrill: Write, fail: Write)

  /** A dump that nothing was stored of, one whose client failed after its bytes were stored, or
      one that was stored whole. */
  datatype Dump = Refused(code: Code) | Broken(size: nat, checksum: string, code: Code) | Whole(size: nat, checksum: string)

  /** The removal that fails, by its place, and whether its object is gone all the same. */
  datatype Removal = Removal(at: nat, landed: bool)

  datatype Oracle = Oracle(ledger: LedgerOracle, dump: Dump, homes: Result<seq<Home>, Code>,
                           listing: Result<seq<Aged>, Code>, removeFails: Option<Removal>, drill: DrillOracle)

  datatype Policy = Policy(now: int, retentionDays: int, drillIntervalDays: int, forceDrill: bool, lastDrillAt: Option<int>)

  const ALL_WRITTEN := LedgerOracle(Landed, Landed, Landed, Landed, Landed, Landed, Landed)

  function Thrown(w: Write): Option<Code> {
    if w.Landed? then None else Some(w.code)
  }

  /** One dump, no homes, nothing listed, and a drill that would fail. */
  const QUIET := Oracle(ALL_WRITTEN, Whole(1, "c"), Success([]), Success([]), None, DrillOracle("s", Created, Failure("restore_failed"), false, false))

  // ---- keys ----

  function PostgresKey(runId: string): string {
    "backups/postgres/" + runId + ".dump.enc"
  }

  function HomesKey(runId: string, sourceKey: string): string {
    "backups/homes/" + runId + "/" + sourceKey + ".enc"
  }

  /** No home's copy takes the dump's place, and two homes never share one. */
  lemma KeysAreApart(runId: string, sourceKey: string, other: string)
    ensures PostgresKey(runId) != HomesKey(runId, sourceKey)
    ensures HomesKey(runId, sourceKey) == HomesKey(runId, other) <==> sourceKey == other
  {
    var one, two := HomesKey(runId, sourceKey), HomesKey(runId, other);
    assert PostgresKey(runId)[8] == 'p' && one[8] == 'h';
    if one == two {
      var at := |"backups/homes/" + runId + "/"|;
      assert |sourceKey| == |other|;
      assert one[at..|one| - 4] == sourceKey && two[at..|two| - 4] == other;
    }
  }

  // ---- retention ----

  predicate Readable(listing: seq<Aged>) {
    forall i :: 0 <= i < |listing| ==> listing[i].modified.Some?
  }

  function Expired(listing: seq<Aged>, cutoff: int, protect: set<string>): (expired: seq<string>)
    requires Readable(listing)
    ensures forall k :: k in expired ==> k !in protect
  {
    if listing == [] then []
    else
      var o := listing[|listing| - 1];
      Expired(listing[..|listing| - 1], cutoff, protect) + if o.modified.value < cutoff && o.key !in protect then [o.key] else []
  }

  /** A listed object that is older than the instant and that nothing protects. */
  predicate Old(o: Aged, cutoff: int, protect: set<string>) {
    o.modified.Some? && o.modified.value < cutoff && o.key !in protect
  }

  lemma ReadableParts(a: seq<Aged>, o: Aged, b: seq<Aged>)
    requires Readable(a + [o] + b)
    ensures Readable(a) && o.modified.Some? && Readable(b)
  {
    var all := a + [o] + b;
    assert all[|a|] == o;
    assert forall i :: 0 <= i < |a| ==> all[i] == a[i];
    assert forall i :: 0 <= i < |b| ==> all[|a| + 1 + i] == b[i];
  }

  /** Selecting keeps the listing's order: each old object's key stands where its object does. */
  lemma {:induction false} SelectsInOrder(a: seq<Aged>, o: Aged, b: seq<Aged>, cutoff: int, protect: set<string>)
    requires Readable(a + [o] + b)
    ensures Readable(a) && Readable(b) && o.modified.Some?
    ensures Expired(a + [o] + b, cutoff, protect) ==
            Expired(a, cutoff, protect) + (if o.modified.value < cutoff && o.key !in protect then [o.key] else []) + Expired(b, cutoff, protect)
    decreases |b|
  {
    ReadableParts(a, o, b);
    var all := a + [o] + b;
    if b == [] {
      assert all[..|all| - 1] == a && all[|all| - 1] == o;
    } else {
      assert all[..|all| - 1] == a + [o] + b[..|b| - 1];
      SelectsInOrder(a, o, b[..|b| - 1], cutoff, protect);
    }
  }

  lemma {:induction false} ExpiredWhen(listing: seq<Aged>, cutoff: int, protect: set<string>, key: string)
    requires Readable(listing)
    ensures key in Expired(listing, cutoff, protect) <==> exists i :: 0 <= i < |listing| && listing[i].key == key && Old(listing[i], cutoff, protect)
    decreases |listing|
  {
    if listing != [] {
      var n := |listing| - 1;
      ExpiredWhen(listing[..n], cutoff, protect, key);
      assert forall i :: 0 <= i < n ==> listing[..n][i] == listing[i];
    }
  }

  lemma ExpiredKeys(listing: seq<Aged>, cutoff: int, protect: set<string>)
    requires Readable(listing)
    ensures forall k :: k in Expired(listing, cutoff, protect) <==>
              exists i :: 0 <= i < |listing| && listing[i].key == k && k !in protect && listing[i].modified.value < cutoff
  {
    forall k
      ensures k in Expired(listing, cutoff, protect) <==>
              exists i :: 0 <= i < |listing| && listing[i].key == k && k !in protect && listing[i].modified.value < cutoff
    {
      ExpiredWhen(listing, cutoff, protect, k);
      assert forall i :: 0 <= i < |listing| ==> (Old(listing[i], cutoff, protect) <==> listing[i].modified.value < cutoff && listing[i].key !in protect);
    }
  }

  /** `selectExpiredBackupKeys`: a refusal of a window or a date that is none, or the keys of the
      unprotected objects older than the window, in listing order. */
  method SelectExpired(listing: seq<Aged>, now: int, retentionDays: int, protect: set<string>) returns (r: Result<seq<string>, Code>)
    ensures r.Failure? <==> retentionDays < 1 || exists i :: 0 <= i < |listing| && listing[i].modified.None?
    ensures r.Failure? ==> r.error == "internal_error"
    ensures r.Success? ==> forall k :: k in r.value <==>
              exists i :: 0 <= i < |listing| && listing[i].key == k && k !in protect && listing[i].modified.value < now - retentionDays * 86_400_000
    ensures r == if retentionDays < 1 || !Readable(listing) then Failure("internal_error")
                 else Success(Expired(listing, now - retentionDays * DAY, protect))
  {
    if retentionDays < 1 {
      return Failure("internal_error");
    }
    var cutoff := now - retentionDays * DAY;
    var expired: seq<string> := [];
    for i := 0 to |listing|
      invariant Readable(listing[..i]) && expired == Expired(listing[..i], cutoff, protect)
    {
      assert listing[..i + 1][..i] == listing[..i];
      if listing[i].modified.None? {
        return Failure("internal_error");
      }
      if listing[i].modified.value < cutoff && listing[i].key !in protect {
        expired := expired + [listing[i].key];
      }
    }
    assert listing[..|listing|] == listing;
    ExpiredKeys(listing, cutoff, protect);
    return Success(expired);
  }

  // ---- the drill ----

  /** `isDrillDue`; None when the interval is not a positive whole number of days. */
  function DrillDue(p: Policy): Option<bool> {
    if p.forceDrill then Some(true)
    else if p.drillIntervalDays < 1 then None
    else if p.lastDrillAt.None? then Some(true)
    else Some(p.now - p.lastDrillAt.value >= p.drillIntervalDays * DAY)
  }

  /** The restore by itself; `taken` says that the scratch name was in use. */
  function RestoreOutcome(o: DrillOracle, taken: bool): Result<Restored, Code> {
    if taken || !o.create.Created? then Failure("scratch_database_failed")
    else if o.restore.Failure? then o.restore
    else if o.restore.value.tables == 0 then Failure("restore_failed")
    else o.restore
  }

  /** A drill passes exactly when tables came back and the canary is the run's own. */
  function DrillOutcome(o: DrillOracle, taken: bool, dump: Option<Stored>, canaryToken: string): (r: Result<nat, Code>)
    ensures r.Success? <==>
            dump.Some? && !taken && o.create.Created? && o.restore.Success? && o.restore.value.tables > 0 && o.restore.value.canary == Some(canaryToken)
  {
    if dump.None? then Failure("restore_failed")
    else
      match RestoreOutcome(o, taken)
      case Failure(code) => Failure(code)
      case Success(restored) => if restored.canary != Some(canaryToken) then Failure("canary_mismatch") else Success(restored.tables)
  }

  /** The databases a drill leaves: its own is dropped by either of two tries, and the last one
      drops the name even when the drill did not create it. So the server is as it was with a name
      that was free and a drop that works, when the first try already dropped what was created, or
      when nothing was; a name that was taken is dropped from under its owner. */
  function DatabasesAfterDrill(o: DrillOracle, databases: set<string>): (after: set<string>)
    ensures after == databases <==>
            if o.scratch in databases then o.lastDropFails
            else !o.lastDropFails || o.create.NotCreated? || (o.create.Created? && (o.restore.Failure? || o.restore.value.tables == 0) && !o.firstDropFails)
  {
    if o.scratch in databases || o.create.NotCreated? then
      if o.lastDropFails then databases else databases - {o.scratch}
    else if (o.create.Created? && RestoreOutcome(o, false).Failure? && !o.firstDropFails) || !o.lastDropFails then databases - {o.scratch}
    else databases + {o.scratch}
  }

  // ---- what a run writes ----

  predicate Fails(read: HomeRead) {
    read.Unreadable? || read.Unanswered?
  }

  predicate Stores(read: HomeRead) {
    read.Copied? || read.Unanswered?
  }

  /** The failure of the first home that cannot be copied. */
  function HomesFailure(homes: seq<Home>): Option<Code> {
    if homes == [] then None
    else
      var earlier := HomesFailure(homes[..|homes| - 1]);
      if earlier.Some? then earlier
      else if Fails(homes[|homes| - 1].read) then Some(homes[|homes| - 1].read.code) else None
  }

  /** The copies that reach the destination, in listing order. */
  function Copies(runId: string, homes: seq<Home>): seq<Stored> {
    if homes == [] then []
    else
      var h := homes[|homes| - 1];
      Copies(runId, homes[..|homes| - 1]) + if Stores(h.read) then [Stored(HomesKey(runId, h.sourceKey), h.read.size, h.read.checksum)] else []
  }

  function KeysOf(copies: seq<Stored>): set<string> {
    set c | c in copies :: c.key
  }

  function TotalSize(copies: seq<Stored>): nat {
    if copies == [] then 0 else TotalSize(copies[..|copies| - 1]) + copies[|copies| - 1].size
  }

  function Protected(runId: string, homes: seq<Home>): set<string> {
    KeysOf(Copies(runId, homes)) + {PostgresKey(runId)}
  }

  /** The homes up to the first that fails, that one included. */
  function ReadHomes(homes: seq<Home>): seq<Home> {
    if homes == [] || HomesFailure(homes[..|homes| - 1]).None? then homes else ReadHomes(homes[..|homes| - 1])
  }

  function Deposit(objects: map<string, Stored>, copies: seq<Stored>): map<string, Stored> {
    if copies == [] then objects
    else Deposit(objects, copies[..|copies| - 1])[copies[|copies| - 1].key := copies[|copies| - 1]]
  }

  /** The expired keys a pass removes: those before the removal that fails, if one does, and that
      one's if it landed. */
  function Pruned(o: Oracle, p: Policy, protect: set<string>): (keys: seq<string>)
    ensures forall k :: k in keys ==> k !in protect
  {
    if o.listing.Failure? || p.retentionDays < 1 || !Readable(o.listing.value) then []
    else
      var expired := Expired(o.listing.value, p.now - p.retentionDays * DAY, protect);
      if o.removeFails.Some? && o.removeFails.value.at < |expired|
      then expired[..o.removeFails.value.at + if o.removeFails.value.landed then 1 else 0] else expired
  }

  function Less(objects: map<string, Stored>, keys: seq<string>): map<string, Stored> {
    objects - (set k | k in keys)
  }

  /** The destination after a run's steps, however far they got. */
  function Destination(objects: map<string, Stored>, o: Oracle, p: Policy, runId: string): map<string, Stored> {
    if !o.ledger.canary.Landed? || o.dump.Refused? then objects
    else
      var dumped := objects[PostgresKey(runId) := DumpOf(o, runId)];
      if o.dump.Broken? || o.homes.Failure? then dumped
      else
        var copied := Deposit(dumped, Copies(runId, ReadHomes(o.homes.value)));
        if HomesFailure(o.homes.value).Some? then copied else Less(copied, Pruned(o, p, Protected(runId, o.homes.value)))
  }

  function DumpOf(o: Oracle, runId: string): Stored
    requires !o.dump.Refused?
  {
    Stored(PostgresKey(runId), o.dump.size, o.dump.checksum)
  }

  function PruneFailure(o: Oracle, p: Policy, runId: string, homes: seq<Home>): Option<Code> {
    if o.listing.Failure? then Some(o.listing.error)
    else if p.retentionDays < 1 || !Readable(o.listing.value) then Some("internal_error")
    else
      var expired := Expired(o.listing.value, p.now - p.retentionDays * DAY, Protected(runId, homes));
      if o.removeFails.Some? && o.removeFails.value.at < |expired| then Some("retention_failed") else None
  }

  /** The failure of a run's steps before its settlement, if any. */
  function StepsFailure(o: Oracle, p: Policy, runId: string): Option<Code> {
    if !o.ledger.canary.Landed? then Thrown(o.ledger.canary)
    else if !o.dump.Whole? then Some(o.dump.code)
    else if o.homes.Failure? then Some(o.homes.error)
    else if HomesFailure(o.homes.value).Some? then HomesFailure(o.homes.value)
    else PruneFailure(o, p, runId, o.homes.value)
  }

  /** What escapes `drillIfDue`: a bad interval, or a ledger write that fails. A success whose reply
      is lost is written over as a failure, which the ledger refuses: the drill no longer runs. */
  function DrillThrows(o: Oracle, p: Policy, passed: bool): Option<Code> {
    if DrillDue(p).None? then Some("internal_error")
    else if !DrillDue(p).value then None
    else if !o.ledger.beginDrill.Landed? then Thrown(o.ledger.beginDrill)
    else if passed && o.ledger.settleDrill.Landed? then None
    else if passed && o.ledger.settleDrill.ReplyLost? && o.ledger.failDrill.Landed? then Some("internal_error")
    else Thrown(o.ledger.failDrill)
  }

  /** The drill's columns after `drillIfDue`, given what the drill came to. */
  function DrillAfter(o: Oracle, p: Policy, outcome: Result<nat, Code>, before: Option<Drill>): Option<Drill> {
    if DrillDue(p) != Some(true) || o.ledger.beginDrill.Unwritten? then before
    else if o.ledger.beginDrill.ReplyLost? then Some(Drill(Running, false, None))
    else if outcome.Success? && !o.ledger.settleDrill.Unwritten? then Some(Drill(Succeeded, true, None))
    else if o.ledger.failDrill.Unwritten? then Some(Drill(Running, false, None))
    else Some(Drill(Failed, false, if outcome.Failure? then Some(outcome.error) else Thrown(o.ledger.settleDrill)))
  }

  function ServerAfter(o: Oracle, p: Policy, databases: set<string>): set<string> {
    if DrillDue(p) == Some(true) && o.ledger.beginDrill.Landed? then DatabasesAfterDrill(o.drill, databases) else databases
  }

  /** What a drill of a run's dump comes to. */
  function Drilled(o: Oracle, databases: set<string>, runId: string, canaryToken: string): Result<nat, Code> {
    DrillOutcome(o.drill, o.drill.scratch in databases, if o.dump.Whole? then Some(DumpOf(o, runId)) else None, canaryToken)
  }

  /** The backup is recorded succeeded, whether or not the run hears of it. */
  predicate BackupRecorded(o: Oracle, p: Policy, runId: string) {
    StepsFailure(o, p, runId).None? && !o.ledger.settle.Unwritten?
  }

  /** The run goes on to its drill. */
  predicate BackupSettles(o: Oracle, p: Policy, runId: string) {
    StepsFailure(o, p, runId).None? && o.ledger.settle.Landed?
  }

  function OpenRow(runId: string, canaryToken: string): RunRow {
    RunRow(runId, canaryToken, Running, None, 0, 0, 0, None, None)
  }

  function RecordedRow(o: Oracle, p: Policy, runId: string, canaryToken: string): RunRow
    requires BackupRecorded(o, p, runId)
  {
    var homes := o.homes.value;
    RunRow(runId, canaryToken, Succeeded, Some(DumpOf(o, runId)), |Copies(runId, homes)|, TotalSize(Copies(runId, homes)),
           |Pruned(o, p, Protected(runId, homes))|, None, None)
  }

  /** The row when the try block ends, and what leaves it. */
  function TryRow(o: Oracle, p: Policy, databases: set<string>, runId: string, canaryToken: string): RunRow {
    if BackupSettles(o, p, runId) then
      RecordedRow(o, p, runId, canaryToken).(drill := DrillAfter(o, p, Drilled(o, databases, runId, canaryToken), None))
    else if BackupRecorded(o, p, runId) then RecordedRow(o, p, runId, canaryToken)
    else OpenRow(runId, canaryToken)
  }

  function TryThrows(o: Oracle, p: Policy, databases: set<string>, runId: string, canaryToken: string): Option<Code> {
    if BackupSettles(o, p, runId) then DrillThrows(o, p, Drilled(o, databases, runId, canaryToken).Success?)
    else if StepsFailure(o, p, runId).Some? then StepsFailure(o, p, runId)
    else Thrown(o.ledger.settle)
  }

  /** The ledger row a run leaves behind, if its insert landed; one whose insert lost its reply
      stays as it was opened. */
  function RowAfter(o: Oracle, p: Policy, databases: set<string>, runId: string, canaryToken: string): Option<RunRow> {
    match o.ledger.begin
    case Unwritten(_) => None
    case ReplyLost(_) => Some(OpenRow(runId, canaryToken))
    case Landed =>
      var row, thrown := TryRow(o, p, databases, runId, canaryToken), TryThrows(o, p, databases, runId, canaryToken);
      Some(if thrown.Some? && !o.ledger.fail.Unwritten? then row.(status := Failed, errorCode := thrown) else row)
  }

  /** Every settlement a run writes, in order. */
  function SettleLog(o: Oracle, p: Policy, runId: string, passed: bool): seq<RunStatus> {
    if !o.ledger.begin.Landed? then []
    else
      var failed := !BackupSettles(o, p, runId) || DrillThrows(o, p, passed).Some?;
      (if BackupRecorded(o, p, runId) then [Succeeded] else []) + (if failed && !o.ledger.fail.Unwritten? then [Failed] else [])
  }

  // ---- the same in terms of the calls that fail ----

  /** Every step before the settlement does what it should. */
  ghost predicate StepsPass(o: Oracle, p: Policy, runId: string) {
    && o.ledger.canary.Landed? && o.dump.Whole?
    && o.homes.Success? && (forall h :: h in o.homes.value ==> !Fails(h.read))
    && o.listing.Success? && 1 <= p.retentionDays && Readable(o.listing.value)
    && (o.removeFails.Some? ==> |Expired(o.listing.value, p.now - p.retentionDays * DAY, Protected(runId, o.homes.value))| <= o.removeFails.value.at)
  }

  lemma {:induction false} HomesRead(homes: seq<Home>)
    ensures HomesFailure(homes).None? <==> forall h :: h in homes ==> !Fails(h.read)
    decreases |homes|
  {
    if homes != [] {
      HomesRead(homes[..|homes| - 1]);
      assert homes == homes[..|homes| - 1] + [homes[|homes| - 1]];
    }
  }

  lemma StepsPassWhen(o: Oracle, p: Policy, runId: string)
    ensures StepsFailure(o, p, runId).None? <==> StepsPass(o, p, runId)
  {
    if o.homes.Success? {
      HomesRead(o.homes.value);
    }
  }

  /** Whether `isDrillDue` or the caller's force makes a drill run. */
  predicate Due(p: Policy) {
    p.forceDrill || (1 <= p.drillIntervalDays && (p.lastDrillAt.None? || p.now - p.lastDrillAt.value >= p.drillIntervalDays * DAY))
  }

  predicate DrillGoesWell(o: DrillOracle, databases: set<string>, canaryToken: string) {
    && o.scratch !in databases && o.create.Created?
    && o.restore.Success? && o.restore.value.tables > 0 && o.restore.value.canary == Some(canaryToken)
  }

  /** A due drill that is opened ends in a throw: a good one whose record loses its reply, or is
      refused like the failure written in its place, and a bad one whose failure is not answered for. */
  predicate DrillGoesUnanswered(o: Oracle, databases: set<string>, canaryToken: string) {
    if DrillGoesWell(o.drill, databases, canaryToken)
    then o.ledger.settleDrill.ReplyLost? || (o.ledger.settleDrill.Unwritten? && !o.ledger.failDrill.Landed?)
    else !o.ledger.failDrill.Landed?
  }

  /** A run is settled twice, succeeded and then failed, exactly when its insert was answered for,
      every step passed, its success landed, its failure could be written too, and either the
      success lost its reply, or the drill, inside the same try, met an interval that is no number
      of days, could not be opened, or ended in a throw. Otherwise it is settled at most once. */
  lemma SettlesTwiceWhen(o: Oracle, p: Policy, databases: set<string>, runId: string, canaryToken: string)
    ensures var log := SettleLog(o, p, runId, Drilled(o, databases, runId, canaryToken).Success?);
            && (log == [Succeeded, Failed] <==>
                  && o.ledger.begin.Landed? && StepsPass(o, p, runId) && !o.ledger.settle.Unwritten? && !o.ledger.fail.Unwritten?
                  && (|| o.ledger.settle.ReplyLost?
                      || (!p.forceDrill && p.drillIntervalDays < 1)
                      || (Due(p) && (!o.ledger.beginDrill.Landed? || DrillGoesUnanswered(o, databases, canaryToken)))))
            && (log != [Succeeded, Failed] ==> |log| <= 1)
  {
    StepsPassWhen(o, p, runId);
  }

  /** A backup that was taken, stored and recorded reads as failed because its drill could not be
      opened in the ledger. */
  lemma GoodBackupReadsAsFailed() returns (o: Oracle, p: Policy)
    ensures StepsPass(o, p, "r") && SettleLog(o, p, "r", false) == [Succeeded, Failed]
  {
    o := QUIET.(ledger := ALL_WRITTEN.(beginDrill := Unwritten("internal_error")));
    p := Policy(0, 30, 30, false, None);
  }

  /** And because the ledger's answer to its success was lost, with no drill due at all. */
  lemma LostReplyReadsAsFailed() returns (o: Oracle, p: Policy)
    ensures StepsPass(o, p, "r") && !Due(p) && SettleLog(o, p, "r", false) == [Succeeded, Failed]
  {
    o := QUIET.(ledger := ALL_WRITTEN.(settle := ReplyLost("internal_error")));
    p := Policy(0, 30, 30, false, Some(0));
  }

  lemma {:induction false} Deposited(objects: map<string, Stored>, copies: seq<Stored>, k: string)
    ensures k !in KeysOf(copies) ==> (k in Deposit(objects, copies) <==> k in objects) && (k in objects ==> Deposit(objects, copies)[k] == objects[k])
    ensures k in KeysOf(copies) ==> k in Deposit(objects, copies) && Deposit(objects, copies)[k] in copies && Deposit(objects, copies)[k].key == k
    decreases |copies|
  {
    if copies != [] {
      Deposited(objects, copies[..|copies| - 1], k);
      assert copies == copies[..|copies| - 1] + [copies[|copies| - 1]];
    }
  }

  lemma {:induction false} CopiesAreHomes(runId: string, homes: seq<Home>)
    ensures PostgresKey(runId) !in KeysOf(Copies(runId, homes))
    decreases |homes|
  {
    if homes != [] {
      CopiesAreHomes(runId, homes[..|homes| - 1]);
      KeysAreApart(runId, homes[|homes| - 1].sourceKey, "");
    }
  }

  /** A run recorded succeeded has its dump in the destination after pruning, and a copy of its
      own under every home's key; its counts are those of the copies. */
  lemma SucceededIsStored(o: Oracle, p: Policy, objects: map<string, Stored>, databases: set<string>, runId: string, canaryToken: string)
    requires var row := RowAfter(o, p, databases, runId, canaryToken); row.Some? && row.value.status == Succeeded
    ensures var row, after := RowAfter(o, p, databases, runId, canaryToken).value, Destination(objects, o, p, runId);
            && o.homes.Success? && HomesFailure(o.homes.value).None?
            && row.dump.Some? && PostgresKey(runId) in after && after[PostgresKey(runId)] == row.dump.value
            && var copies := Copies(runId, o.homes.value);
               && row.homesCount == |copies| && row.homesBytes == TotalSize(copies)
               && forall k :: k in KeysOf(copies) ==> k in after && after[k] in copies && after[k].key == k
  {
    var copies := Copies(runId, o.homes.value);
    var dumped := objects[PostgresKey(runId) := DumpOf(o, runId)];
    CopiesAreHomes(runId, o.homes.value);
    Deposited(dumped, copies, PostgresKey(runId));
    forall k | k in KeysOf(copies)
      ensures var after := Destination(objects, o, p, runId); k in after && after[k] in copies && after[k].key == k
    {
      Deposited(dumped, copies, k);
    }
  }

  /** Whatever fails, a run touches only its own keys and the expired objects it prunes. */
  lemma OthersKept(o: Oracle, p: Policy, objects: map<string, Stored>, runId: string, k: string)
    requires k != PostgresKey(runId) && (o.homes.Success? ==> k !in KeysOf(Copies(runId, ReadHomes(o.homes.value))))
    requires o.homes.Success? ==> k !in Pruned(o, p, Protected(runId, o.homes.value))
    ensures k in Destination(objects, o, p, runId) <==> k in objects
    ensures k in objects ==> Destination(objects, o, p, runId)[k] == objects[k]
  {
    if !o.dump.Refused? && o.homes.Success? {
      Deposited(objects[PostgresKey(runId) := DumpOf(o, runId)], Copies(runId, ReadHomes(o.homes.value)), k);
    }
  }

  /** A dump is left under the run's key exactly when the canary was written and the archive
      stored bytes for it: also by a run that failed, and when the dump's client failed after them. */
  lemma DumpStaysWhen(o: Oracle, p: Policy, objects: map<string, Stored>, runId: string)
    requires PostgresKey(runId) !in objects
    ensures var key, after := PostgresKey(runId), Destination(objects, o, p, runId);
            && (key in after <==> o.ledger.canary.Landed? && !o.dump.Refused?)
            && (key in after ==> after[key] == DumpOf(o, runId))
  {
    if o.ledger.canary.Landed? && o.dump.Whole? && o.homes.Success? {
      CopiesAreHomes(runId, ReadHomes(o.homes.value));
      Deposited(objects[PostgresKey(runId) := DumpOf(o, runId)], Copies(runId, ReadHomes(o.homes.value)), PostgresKey(runId));
    }
  }

  /** A dump cut short by its client is stored, and nothing removes it when the run fails. */
  lemma BrokenDumpIsStored(runId: string, size: nat, checksum: string, code: Code) returns (o: Oracle, p: Policy)
    ensures RowAfter(o, p, {}, runId, "token").Some? && RowAfter(o, p, {}, runId, "token").value.status == Failed
    ensures Destination(map[], o, p, runId) == map[PostgresKey(runId) := Stored(PostgresKey(runId), size, checksum)]
  {
    o := QUIET.(dump := Broken(size, checksum, code));
    p := Policy(0, 30, 30, false, None);
    assert map[][PostgresKey(runId) := DumpOf(o, runId)] == map[PostgresKey(runId) := DumpOf(o, runId)];
  }

  /** What a run's row says: the last settlement written, and a drill recorded succeeded exactly
      when a settled backup's drill was due, could be recorded, and went well. A run whose ledger
      writes are all answered for is settled once, as its steps went. */
  ghost predicate RowTells(o: Oracle, p: Policy, databases: set<string>, runId: string, canaryToken: string, row: Option<RunRow>, settles: seq<RunStatus>) {
    && (row.Some? ==> row.value.status == if settles == [] then Running else settles[|settles| - 1])
    && (o.ledger == ALL_WRITTEN && (p.forceDrill || 1 <= p.drillIntervalDays) ==>
          settles == [if StepsPass(o, p, runId) then Succeeded else Failed])
    && ((row.Some? && row.value.drill.Some? && row.value.drill.value.status == Succeeded) <==>
          && o.ledger.begin.Landed? && StepsPass(o, p, runId) && o.ledger.settle.Landed?
          && Due(p) && o.ledger.beginDrill.Landed? && !o.ledger.settleDrill.Unwritten? && DrillGoesWell(o.drill, databases, canaryToken))
  }

  lemma RowMeans(o: Oracle, p: Policy, databases: set<string>, runId: string, canaryToken: string)
    ensures RowTells(o, p, databases, runId, canaryToken, RowAfter(o, p, databases, runId, canaryToken),
                     SettleLog(o, p, runId, Drilled(o, databases, runId, canaryToken).Success?))
  {
    StepsPassWhen(o, p, runId);
  }

  datatype Night = Night(o: Oracle, p: Policy, runId: string, canaryToken: string)

  datatype Site = Site(objects: map<string, Stored>, databases: set<string>, rows: seq<RunRow>)

  function NightAfter(site: Site, n: Night): Site {
    var row := RowAfter(n.o, n.p, site.databases, n.runId, n.canaryToken);
    if row.None? then site
    else if n.o.ledger.begin.ReplyLost? then site.(rows := site.rows + [row.value])
    else
      Site(Destination(site.objects, n.o, n.p, n.runId),
           if BackupSettles(n.o, n.p, n.runId) then ServerAfter(n.o, n.p, site.databases) else site.databases,
           site.rows + [row.value])
  }

  /** A drill's columns: there from when its opening lands, succeeded with the canary read back and no
      code, failed with a code and without it, and still running when neither outcome landed. */
  lemma DrillTells(o: Oracle, p: Policy, databases: set<string>, runId: string, canaryToken: string)
    ensures var row := RowAfter(o, p, databases, runId, canaryToken);
            && (row.Some? && row.value.drill.Some? <==>
                  o.ledger.begin.Landed? && StepsPass(o, p, runId) && o.ledger.settle.Landed? && Due(p) && !o.ledger.beginDrill.Unwritten?)
            && (row.Some? && row.value.drill.Some? ==>
                  var d, well := row.value.drill.value, DrillGoesWell(o.drill, databases, canaryToken);
                  && (d.status == Succeeded <==> o.ledger.beginDrill.Landed? && well && !o.ledger.settleDrill.Unwritten?)
                  && (d.status == Failed <==> o.ledger.beginDrill.Landed? && (!well || o.ledger.settleDrill.Unwritten?) && !o.ledger.failDrill.Unwritten?)
                  && (d.canaryVerified <==> d.status == Succeeded) && (d.errorCode.Some? <==> d.status == Failed))
  {
    StepsPassWhen(o, p, runId);
  }

  /** A drill whose success went unheard throws the ledger's refusal to write a failure over it, or
      what the write of that failure throws itself. */
  lemma UnheardDrillThrows(o: Oracle, p: Policy)
    requires Due(p) && o.ledger.beginDrill.Landed? && o.ledger.settleDrill.ReplyLost?
    ensures DrillThrows(o, p, true) ==
            match o.ledger.failDrill
            case Landed => Some("internal_error")
            case Unwritten(code) => Some(code)
            case ReplyLost(code) => Some(code)
  {
  }

  /** The server's databases are a drill's to change, and a run whose insert did not answer leaves
      nothing but its open row, if that. */
  lemma RestOfTheSite(site: Site, n: Night)
    ensures var after := NightAfter(site, n);
            && after.databases == (if n.o.ledger.begin.Landed? && StepsPass(n.o, n.p, n.runId) && n.o.ledger.settle.Landed? && Due(n.p) && n.o.ledger.beginDrill.Landed?
                                   then DatabasesAfterDrill(n.o.drill, site.databases) else site.databases)
            && (n.o.ledger.begin.Unwritten? ==> after == site)
            && (n.o.ledger.begin.ReplyLost? ==>
                  after == site.(rows := site.rows + [RunRow(n.runId, n.canaryToken, Running, None, 0, 0, 0, None, None)]))
            && (n.o.ledger.begin.Landed? ==>
                  && |after.rows| == |site.rows| + 1 && site.rows <= after.rows
                  && after.rows[|site.rows|].id == n.runId && after.rows[|site.rows|].canaryToken == n.canaryToken
                  && (after.rows[|site.rows|].errorCode.Some? <==> after.rows[|site.rows|].status == Failed))
  {
    StepsPassWhen(n.o, n.p, n.runId);
  }

  // ---- what the retention window keeps ----

  /** An object is listed with a date before the window. */
  predicate BeforeTheWindow(o: Oracle, p: Policy, key: string) {
    o.listing.Success? && exists i :: 0 <= i < |o.listing.value| && o.listing.value[i].key == key
                                      && o.listing.value[i].modified.Some? && o.listing.value[i].modified.value < p.now - p.retentionDays * 86_400_000
  }

  predicate PruneWorks(o: Oracle, p: Policy, protect: set<string>) {
    && o.listing.Success? && 1 <= p.retentionDays && Readable(o.listing.value)
    && (o.removeFails.Some? ==> |Expired(o.listing.value, p.now - p.retentionDays * DAY, protect)| <= o.removeFails.value.at)
  }

  lemma PrunedAreOld(o: Oracle, p: Policy, protect: set<string>, key: string)
    ensures key in Pruned(o, p, protect) ==> BeforeTheWindow(o, p, key) && key !in protect
    ensures PruneWorks(o, p, protect) && BeforeTheWindow(o, p, key) && key !in protect ==> key in Pruned(o, p, protect)
  {
    if o.listing.Success? && 1 <= p.retentionDays && Readable(o.listing.value) {
      var cutoff := p.now - p.retentionDays * DAY;
      ExpiredWhen(o.listing.value, cutoff, protect, key);
      assert forall i :: 0 <= i < |o.listing.value| ==>
        (Old(o.listing.value[i], cutoff, protect) <==> o.listing.value[i].modified.value < cutoff && o.listing.value[i].key !in protect);
    }
  }

  /** Whatever fails, no run removes an object that is not listed with a date before the window. */
  lemma YoungObjectsStay(o: Oracle, p: Policy, objects: map<string, Stored>, runId: string, key: string)
    requires key in objects && !BeforeTheWindow(o, p, key)
    ensures key in Destination(objects, o, p, runId)
  {
    if o.ledger.canary.Landed? && !o.dump.Refused? && o.homes.Success? {
      var dumped := objects[PostgresKey(runId) := DumpOf(o, runId)];
      Deposited(dumped, Copies(runId, ReadHomes(o.homes.value)), key);
      PrunedAreOld(o, p, Protected(runId, o.homes.value), key);
    }
  }

  /** A run whose steps all work leaves exactly its own objects and those others that are not listed
      with a date before the window. */
  lemma RetentionExactly(o: Oracle, p: Policy, objects: map<string, Stored>, runId: string, key: string)
    requires StepsPass(o, p, runId)
    ensures key in Destination(objects, o, p, runId) <==> key in Protected(runId, o.homes.value) || (key in objects && !BeforeTheWindow(o, p, key))
  {
    StepsPassWhen(o, p, runId);
    var copies := Copies(runId, o.homes.value);
    var dumped := objects[PostgresKey(runId) := DumpOf(o, runId)];
    Deposited(dumped, copies, key);
    PrunedAreOld(o, p, Protected(runId, o.homes.value), key);
  }

  /** Of the expired objects, those before the removal that fails are gone, and that one's if the
      removal landed; the others stay. */
  lemma FailedRemoval(o: Oracle, p: Policy, objects: map<string, Stored>, runId: string, j: nat)
    requires o.ledger.canary.Landed? && o.dump.Whole? && o.homes.Success? && HomesFailure(o.homes.value).None?
    requires o.listing.Success? && 1 <= p.retentionDays && Readable(o.listing.value) && o.removeFails.Some?
    requires var expired := Expired(o.listing.value, p.now - p.retentionDays * DAY, Protected(runId, o.homes.value));
             j < |expired| && o.removeFails.value.at < |expired| && expired[j] in objects
             && forall a, b :: 0 <= a < b < |expired| ==> expired[a] != expired[b]
    ensures var key := Expired(o.listing.value, p.now - p.retentionDays * DAY, Protected(runId, o.homes.value))[j];
            key in Destination(objects, o, p, runId) <==> o.removeFails.value.at < j || (o.removeFails.value.at == j && !o.removeFails.value.landed)
  {
    var expired := Expired(o.listing.value, p.now - p.retentionDays * DAY, Protected(runId, o.homes.value));
    var key, n := expired[j], o.removeFails.value.at + if o.removeFails.value.landed then 1 else 0;
    Deposited(objects[PostgresKey(runId) := DumpOf(o, runId)], Copies(runId, o.homes.value), key);
    assert Pruned(o, p, Protected(runId, o.homes.value)) == expired[..n];
    assert key in expired[..n] <==> j < n;
  }

  // ---- retention over any sequence of nights ----

  function After(site: Site, ns: seq<Night>): Site
    decreases |ns|
  {
    if ns == [] then site else NightAfter(After(site, ns[..|ns| - 1]), ns[|ns| - 1])
  }

  /** The newest row recorded succeeded. */
  function Newest(rows: seq<RunRow>): (newest: Option<RunRow>)
    ensures newest.Some? ==> newest.value in rows && newest.value.status == Succeeded
    ensures newest.None? ==> forall r :: r in rows ==> r.status != Succeeded
  {
    if rows == [] then None
    else if rows[|rows| - 1].status == Succeeded then Some(rows[|rows| - 1])
    else Newest(rows[..|rows| - 1])
  }

  ghost predicate FreshIds(ns: seq<Night>) {
    forall i, j :: 0 <= i < j < |ns| ==> ns[i].runId != ns[j].runId
  }

  /** Whether a night gets as far as removing an object. */
  ghost predicate Removes(n: Night, key: string) {
    && n.o.ledger.begin.Landed? && n.o.ledger.canary.Landed? && n.o.dump.Whole?
    && n.o.homes.Success? && (forall h :: h in n.o.homes.value ==> !Fails(h.read))
    && key in Pruned(n.o, n.p, Protected(n.runId, n.o.homes.value))
  }

  /** Since the last run recorded succeeded, one that was not has removed its dump. */
  ghost predicate Lost(site: Site, ns: seq<Night>)
    decreases |ns|
  {
    ns != []
    && var init, n := ns[..|ns| - 1], ns[|ns| - 1];
       var before := After(site, init);
       var row := RowAfter(n.o, n.p, before.databases, n.runId, n.canaryToken);
       && !(row.Some? && row.value.status == Succeeded)
       && (Lost(site, init) || (Newest(before.rows).Some? && Removes(n, PostgresKey(Newest(before.rows).value.id))))
  }

  ghost predicate NewestIsStored(site: Site) {
    var newest := Newest(site.rows);
    newest.Some? ==>
      newest.value.dump.Some? && PostgresKey(newest.value.id) in site.objects && site.objects[PostgresKey(newest.value.id)] == newest.value.dump.value
  }

  lemma PostgresKeysAreApart(runId: string, other: string)
    ensures PostgresKey(runId) == PostgresKey(other) <==> runId == other
  {
    var n := |"backups/postgres/"|;
    if PostgresKey(runId) == PostgresKey(other) {
      assert PostgresKey(runId)[n..|PostgresKey(runId)| - 9] == runId && PostgresKey(other)[n..|PostgresKey(other)| - 9] == other;
    }
  }

  lemma {:induction false} NoHomesKeyIsADump(runId: string, homes: seq<Home>, other: string)
    ensures PostgresKey(other) !in KeysOf(Copies(runId, homes))
    decreases |homes|
  {
    if homes != [] {
      NoHomesKeyIsADump(runId, homes[..|homes| - 1], other);
      assert PostgresKey(other)[8] == 'p' && HomesKey(runId, homes[|homes| - 1].sourceKey)[8] == 'h';
    }
  }

  /** What a night does to an earlier run's dump: it removes it or leaves it. */
  lemma EarlierDump(site: Site, n: Night, id: string)
    requires n.runId != id
    ensures var key, after := PostgresKey(id), NightAfter(site, n).objects;
            && (key in after <==> key in site.objects && !Removes(n, key))
            && (key in after ==> after[key] == site.objects[key])
  {
    PostgresKeysAreApart(n.runId, id);
    if n.o.homes.Success? && n.o.ledger.canary.Landed? && n.o.dump.Whole? {
      HomesRead(n.o.homes.value);
      NoHomesKeyIsADump(n.runId, ReadHomes(n.o.homes.value), id);
      Deposited(site.objects[PostgresKey(n.runId) := DumpOf(n.o, n.runId)], Copies(n.runId, ReadHomes(n.o.homes.value)), PostgresKey(id));
    }
  }

  /** Rows belong to nights that began. */
  lemma {:induction false} RowsAreNights(site: Site, ns: seq<Night>, r: RunRow)
    requires site.rows == [] && r in After(site, ns).rows
    ensures exists i :: 0 <= i < |ns| && ns[i].runId == r.id
    decreases |ns|
  {
    var init, n := ns[..|ns| - 1], ns[|ns| - 1];
    if r in After(site, init).rows {
      RowsAreNights(site, init, r);
      var i :| 0 <= i < |init| && init[i].runId == r.id;
      assert ns[i].runId == r.id;
    } else {
      assert ns[|ns| - 1].runId == r.id;
    }
  }

  /** Over any sequence of nights, whatever fails in each, the newest backup recorded succeeded
      still has its dump, unchanged, exactly when no later run that was not itself recorded
      succeeded has removed it: the prune protects only the running run's keys, and the
      settlement comes after it. */
  lemma {:induction false} NewestSuccessKeptWhen(site: Site, ns: seq<Night>)
    requires site.rows == [] && FreshIds(ns)
    ensures NewestIsStored(After(site, ns)) <==> !Lost(site, ns)
    ensures Lost(site, ns) ==> Newest(After(site, ns).rows).Some? && PostgresKey(Newest(After(site, ns).rows).value.id) !in After(site, ns).objects
    decreases |ns|
  {
    if ns != [] {
      var init, n := ns[..|ns| - 1], ns[|ns| - 1];
      NewestSuccessKeptWhen(site, init);
      var before := After(site, init);
      var row := RowAfter(n.o, n.p, before.databases, n.runId, n.canaryToken);
      if row.Some? && row.value.status == Succeeded {
        SuccessIsNewest(before, n);
      } else if Newest(before.rows).Some? {
        RowsAreNights(site, init, Newest(before.rows).value);
        NightKeepsNewest(before, n);
        EarlierDump(before, n, Newest(before.rows).value.id);
      } else {
        NightKeepsNewest(before, n);
      }
    }
  }

  lemma SuccessIsNewest(before: Site, n: Night)
    requires var row := RowAfter(n.o, n.p, before.databases, n.runId, n.canaryToken); row.Some? && row.value.status == Succeeded
    ensures NewestIsStored(NightAfter(before, n))
  {
    SucceededIsStored(n.o, n.p, before.objects, before.databases, n.runId, n.canaryToken);
  }

  lemma NightKeepsNewest(before: Site, n: Night)
    requires var row := RowAfter(n.o, n.p, before.databases, n.runId, n.canaryToken); !(row.Some? && row.value.status == Succeeded)
    ensures Newest(NightAfter(before, n).rows) == Newest(before.rows)
  {
    var row := RowAfter(n.o, n.p, before.databases, n.runId, n.canaryToken);
    if row.Some? {
      assert (before.rows + [row.value])[..|before.rows|] == before.rows;
    }
  }

  function FirstNight(): Night {
    Night(QUIET, Policy(0, 30, 30, false, Some(0)), "a", "token")
  }

  /** A month later: the prune works, the settlement after it does not. */
  function UnsettledNight(): Night {
    Night(QUIET.(ledger := ALL_WRITTEN.(settle := Unwritten("internal_error")), listing := Success([Aged(PostgresKey("a"), Some(0))])),
          Policy(31 * DAY, 30, 30, false, Some(31 * DAY)), "b", "token")
  }

  lemma FirstNightSucceeds(site: Site)
    requires site == Site(map[], {}, [])
    ensures NightAfter(site, FirstNight()).rows == [RowAfter(QUIET, FirstNight().p, {}, "a", "token").value]
    ensures Newest(NightAfter(site, FirstNight()).rows).Some? && Newest(NightAfter(site, FirstNight()).rows).value.id == "a"
  {
    assert BackupSettles(QUIET, FirstNight().p, "a");
  }

  lemma UnsettledNightPrunes()
    ensures Removes(UnsettledNight(), PostgresKey("a"))
    ensures RowAfter(UnsettledNight().o, UnsettledNight().p, {}, "b", "token").Some?
    ensures RowAfter(UnsettledNight().o, UnsettledNight().p, {}, "b", "token").value.status == Failed
  {
    var n := UnsettledNight();
    PostgresKeysAreApart("a", "b");
    assert Protected("b", []) == {PostgresKey("b")};
    assert n.o.listing.value[..0] == [];
    assert Expired(n.o.listing.value, DAY, Protected("b", [])) == [PostgresKey("a")];
  }

  /** Two nights after which the ledger's newest success has no dump. */
  lemma PruneBeforeSettlementLosesTheNewest()
    ensures !NewestIsStored(After(Site(map[], {}, []), [FirstNight(), UnsettledNight()]))
  {
    var site, ns := Site(map[], {}, []), [FirstNight(), UnsettledNight()];
    assert ns[..1] == [FirstNight()] && ns[..1][..0] == [];
    FirstNightSucceeds(site);
    UnsettledNightPrunes();
    assert After(site, ns[..1]) == NightAfter(site, FirstNight());
    assert Lost(site, ns);
    NewestSuccessKeptWhen(site, ns);
  }

  // ---- the run, in place ----

  class BackupHost {
    var objects: map<string, Stored>
    var databases: set<string>
    /** The ledger: the rows of earlier runs, and the newest run's, which is all a run touches. */
    var earlier: seq<RunRow>
    var row: Option<RunRow>
    var settles: seq<RunStatus>

    constructor (objects: map<string, Stored>, databases: set<string>)
      ensures Now() == Site(objects, databases, []) && settles == []
    {
      this.objects, this.databases, this.earlier, this.row, this.settles := objects, databases, [], None, [];
    }

    ghost function Now(): Site
      reads this
    {
      Site(objects, databases, earlier + if row.Some? then [row.value] else [])
    }

    method RestoreBackupInto(o: DrillOracle) returns (r: Result<Restored, Code>)
      modifies `databases
      ensures r == RestoreOutcome(o, o.scratch in old(databases))
      ensures databases == if o.scratch in old(databases) || o.create.NotCreated? then old(databases)
                           else if o.create.CreatedUnheard? then old(databases) + {o.scratch}
                           else if r.Failure? && !o.firstDropFails then old(databases) - {o.scratch}
                           else old(databases) + {o.scratch}
    {
      if o.scratch in databases || o.create.NotCreated? {
        return Failure("scratch_database_failed");
      }
      databases := databases + {o.scratch};
      if o.create.CreatedUnheard? {
        return Failure("scratch_database_failed");
      }
      if o.restore.Success? && o.restore.value.tables > 0 {
        return o.restore;
      }
      if !o.firstDropFails {
        databases := databases - {o.scratch};
      }
      return if o.restore.Failure? then o.restore else Failure("restore_failed");
    }

    method PerformRestoreDrill(o: DrillOracle, dump: Option<Stored>, canaryToken: string) returns (r: Result<nat, Code>)
      modifies `databases
      ensures r == DrillOutcome(o, o.scratch in old(databases), dump, canaryToken)
      ensures r.Success? <==> dump.Some? && DrillGoesWell(o, old(databases), canaryToken)
      ensures databases == if dump.None? then old(databases) else DatabasesAfterDrill(o, old(databases))
      ensures o.scratch !in old(databases) && !o.lastDropFails ==> databases == old(databases)
    {
      if dump.None? {
        return Failure("restore_failed");
      }
      var outcome := RestoreBackupInto(o);
      if outcome.Failure? {
        r := Failure(outcome.error);
      } else if outcome.value.canary.None? {
        r := Failure("canary_mismatch");
      } else if outcome.value.canary.value != canaryToken {
        r := Failure("canary_mismatch");
      } else {
        r := Success(outcome.value.tables);
      }
      if !o.lastDropFails {
        databases := databases - {o.scratch};
      }
    }

    /** `drillIfDue`; a failure is what it throws. */
    method DrillIfDue(o: Oracle, p: Policy) returns (thrown: Option<Code>)
      requires row.Some? && row.value.status == Succeeded && row.value.dump.Some?
      modifies `databases, `row
      ensures var was := old(row.value);
              var outcome := DrillOutcome(o.drill, o.drill.scratch in old(databases), was.dump, was.canaryToken);
              && thrown == DrillThrows(o, p, outcome.Success?)
              && row == Some(was.(drill := DrillAfter(o, p, outcome, was.drill)))
      ensures databases == ServerAfter(o, p, old(databases))
    {
      var due := DrillDue(p);
      if due.None? {
        return Some("internal_error");
      }
      if !due.value {
        return None;
      }
      if !o.ledger.beginDrill.Unwritten? {
        row := Some(row.value.(drill := Some(Drill(Running, false, None))));
      }
      if !o.ledger.beginDrill.Landed? {
        return Thrown(o.ledger.beginDrill);
      }
      var outcome := PerformRestoreDrill(o.drill, row.value.dump, row.value.canaryToken);
      if outcome.Success? && !o.ledger.settleDrill.Unwritten? {
        row := Some(row.value.(drill := Some(Drill(Succeeded, true, None))));
      }
      if outcome.Success? && o.ledger.settleDrill.Landed? {
        return None;
      }
      var code := if outcome.Failure? then Some(outcome.error) else Thrown(o.ledger.settleDrill);
      thrown := Thrown(o.ledger.failDrill);
      if row.value.drill.value.status == Running {
        if !o.ledger.failDrill.Unwritten? {
          row := Some(row.value.(drill := Some(Drill(Failed, false, code))));
        }
      } else if thrown.None? {
        thrown := Some("internal_error");
      }
    }

    method CopyHomes(runId: string, homes: seq<Home>) returns (thrown: Option<Code>, count: nat, bytes: nat, keys: set<string>)
      modifies `objects
      ensures thrown == HomesFailure(homes)
      ensures thrown.None? ==> count == |Copies(runId, homes)| && bytes == TotalSize(Copies(runId, homes)) && keys == KeysOf(Copies(runId, homes))
      ensures objects == Deposit(old(objects), Copies(runId, ReadHomes(homes)))
    {
      thrown, count, bytes, keys := None, 0, 0, {};
      ghost var copies: seq<Stored> := [];
      for i := 0 to |homes|
        invariant thrown.None? && HomesFailure(homes[..i]).None? && copies == Copies(runId, homes[..i])
        invariant count == |copies| && bytes == TotalSize(copies) && keys == KeysOf(copies)
        invariant objects == Deposit(old(objects), copies)
      {
        CopiesStep(runId, homes, i);
        if Stores(homes[i].read) {
          var stored := Stored(HomesKey(runId, homes[i].sourceKey), homes[i].read.size, homes[i].read.checksum);
          CopiesSnoc(copies, stored);
          objects := objects[stored.key := stored];
          if homes[i].read.Copied? {
            keys := keys + {stored.key};
            count := count + 1;
            bytes := bytes + stored.size;
          }
          copies := copies + [stored];
        }
        if Fails(homes[i].read) {
          FailsFrom(homes, i);
          thrown := Some(homes[i].read.code);
          return;
        }
      }
      assert homes[..|homes|] == homes;
    }

    method Prune(o: Oracle, p: Policy, protect: set<string>) returns (r: Result<nat, Code>)
      modifies `objects
      ensures objects == Less(old(objects), Pruned(o, p, protect))
      ensures r.Failure? <==> o.listing.Failure? || p.retentionDays < 1 || !Readable(o.listing.value)
                              || (o.removeFails.Some? && o.removeFails.value.at < |Expired(o.listing.value, p.now - p.retentionDays * DAY, protect)|)
      ensures r.Success? ==> r.value == |Expired(o.listing.value, p.now - p.retentionDays * DAY, protect)|
      ensures r.Failure? ==> r.error == if o.listing.Failure? then o.listing.error
                                        else if p.retentionDays < 1 || !Readable(o.listing.value) then "internal_error" else "retention_failed"
    {
      if o.listing.Failure? {
        return Failure(o.listing.error);
      }
      var expired := SelectExpired(o.listing.value, p.now, p.retentionDays, protect);
      if expired.Failure? {
        return Failure(expired.error);
      }
      var removed := 0;
      for i := 0 to |expired.value|
        invariant removed == i && (o.removeFails.Some? ==> i <= o.removeFails.value.at)
        invariant objects == Less(old(objects), expired.value[..i])
      {
        LessSnoc(old(objects), expired.value, i);
        if o.removeFails.Some? && o.removeFails.value.at == i {
          if o.removeFails.value.landed {
            objects := objects - {expired.value[i]};
          }
          return Failure("retention_failed");
        }
        objects := objects - {expired.value[i]};
        removed := removed + 1;
      }
      assert expired.value[..|expired.value|] == expired.value;
      return Success(removed);
    }

    /** The steps before the settlement. */
    method TakeBackup(o: Oracle, p: Policy, runId: string) returns (r: Result<(Stored, nat, nat, nat), Code>)
      modifies `objects
      ensures objects == Destination(old(objects), o, p, runId)
      ensures r.Failure? ==> Some(r.error) == StepsFailure(o, p, runId)
      ensures r.Success? ==>
                && StepsFailure(o, p, runId).None?
                && var copies := Copies(runId, o.homes.value);
                   r.value == (DumpOf(o, runId), |copies|, TotalSize(copies), |Pruned(o, p, Protected(runId, o.homes.value))|)
    {
      if !o.ledger.canary.Landed? {
        return Failure(o.ledger.canary.code);
      }
      if o.dump.Refused? {
        return Failure(o.dump.code);
      }
      var dump := Stored(PostgresKey(runId), o.dump.size, o.dump.checksum);
      objects := objects[dump.key := dump];
      if o.dump.Broken? {
        return Failure(o.dump.code);
      }
      if o.homes.Failure? {
        return Failure(o.homes.error);
      }
      var thrown, count, bytes, keys := CopyHomes(runId, o.homes.value);
      if thrown.Some? {
        return Failure(thrown.value);
      }
      var pruned := Prune(o, p, keys + {dump.key});
      if pruned.Failure? {
        return Failure(pruned.error);
      }
      return Success((dump, count, bytes, pruned.value));
    }

    /** The try block of a run; the failure it throws. */
    method TryBackup(o: Oracle, p: Policy, runId: string, canaryToken: string) returns (thrown: Option<Code>)
      requires row == Some(OpenRow(runId, canaryToken)) && settles == []
      modifies `objects, `databases, `row, `settles
      ensures row == Some(TryRow(o, p, old(databases), runId, canaryToken)) && thrown == TryThrows(o, p, old(databases), runId, canaryToken)
      ensures settles == if BackupRecorded(o, p, runId) then [Succeeded] else []
      ensures objects == Destination(old(objects), o, p, runId)
      ensures databases == if BackupSettles(o, p, runId) then ServerAfter(o, p, old(databases)) else old(databases)
    {
      var taken := TakeBackup(o, p, runId);
      if taken.Failure? {
        return Some(taken.error);
      }
      if o.ledger.settle.Unwritten? {
        return Thrown(o.ledger.settle);
      }
      row := Some(row.value.(status := Succeeded, dump := Some(taken.value.0), homesCount := taken.value.1, homesBytes := taken.value.2, prunedObjects := taken.value.3));
      settles := settles + [Succeeded];
      if o.ledger.settle.ReplyLost? {
        return Thrown(o.ledger.settle);
      }
      thrown := DrillIfDue(o, p);
    }

    /** The catch block of a run: None when the settlement's answer is a failure. */
    method SettleFailed(fail: Write, code: Code) returns (r: Option<RunRow>)
      requires row.Some?
      modifies `row, `settles
      ensures row == if fail.Unwritten? then old(row) else Some(old(row.value).(status := Failed, errorCode := Some(code)))
      ensures settles == if fail.Unwritten? then old(settles) else old(settles) + [Failed]
      ensures r == if fail.Landed? then row else None
    {
      if !fail.Unwritten? {
        row := Some(row.value.(status := Failed, errorCode := Some(code)));
        settles := settles + [Failed];
      }
      return if fail.Landed? then row else None;
    }

    /** `performBackupRun`; None when a ledger write it cannot do without escapes. */
    method PerformBackupRun(o: Oracle, p: Policy, runId: string, canaryToken: string) returns (r: Option<RunRow>)
      modifies this
      ensures Now() == NightAfter(old(Now()), Night(o, p, runId, canaryToken))
      ensures row == RowAfter(o, p, old(databases), runId, canaryToken)
      ensures settles == SettleLog(o, p, runId, Drilled(o, old(databases), runId, canaryToken).Success?)
      ensures RowTells(o, p, old(databases), runId, canaryToken, row, settles)
      ensures r == if !o.ledger.begin.Landed? || (!o.ledger.fail.Landed? && TryThrows(o, p, old(databases), runId, canaryToken).Some?) then None else row
    {
      RowMeans(o, p, databases, runId, canaryToken);
      earlier, row, settles := earlier + (if row.Some? then [row.value] else []), None, [];
      if !o.ledger.begin.Unwritten? {
        row := Some(OpenRow(runId, canaryToken));
      }
      if !o.ledger.begin.Landed? {
        return None;
      }
      var thrown := TryBackup(o, p, runId, canaryToken);
      if thrown.None? {
        return row;
      }
      r := SettleFailed(o.ledger.fail, thrown.value);
    }
  }

  lemma CopiesStep(runId: string, homes: seq<Home>, i: nat)
    requires i < |homes|
    ensures Copies(runId, homes[..i + 1]) == if Stores(homes[i].read)
                                             then Copies(runId, homes[..i]) + [Stored(HomesKey(runId, homes[i].sourceKey), homes[i].read.size, homes[i].read.checksum)]
                                             else Copies(runId, homes[..i])
    ensures HomesFailure(homes[..i]).None? && !Fails(homes[i].read) ==> HomesFailure(homes[..i + 1]).None?
  {
    assert homes[..i + 1][..i] == homes[..i];
    assert Copies(runId, homes[..i]) + [] == Copies(runId, homes[..i]);
  }

  lemma CopiesSnoc(copies: seq<Stored>, c: Stored)
    ensures TotalSize(copies + [c]) == TotalSize(copies) + c.size && KeysOf(copies + [c]) == KeysOf(copies) + {c.key}
  {
  }

  lemma LessSnoc(objects: map<string, Stored>, keys: seq<string>, i: nat)
    requires i < |keys|
    ensures Less(objects, keys[..i + 1]) == Less(objects, keys[..i]) - {keys[i]}
  {
    assert keys[..i + 1] == keys[..i] + [keys[i]];
  }

  /** The first failure decides. */
  lemma {:induction false} FailsFrom(homes: seq<Home>, i: nat)
    requires i < |homes| && HomesFailure(homes[..i]).None? && Fails(homes[i].read)
    ensures HomesFailure(homes) == Some(homes[i].read.code) && ReadHomes(homes) == homes[..i + 1]
    decreases |homes|
  {
    var init := homes[..|homes| - 1];
    if i < |homes| - 1 {
      assert init[..i] == homes[..i] && init[..i + 1] == homes[..i + 1];
      FailsFrom(init, i);
    }
  }
}
