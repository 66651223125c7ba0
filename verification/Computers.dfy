/**
 * The emulated computer provider: instances, snapshots and generations, with each instance's
 * files and browser as objects of their own (packages/adapters/src/computer-emulator.ts).
 *
 * What a shell command does to a home, what the archive of a home is and how it is hashed are
 * parameters; a file's content is a value. A snapshot id is drawn fresh.
 */
module Computers {
  import opened ByteStreams

  datatype Node = Directory | File(content: Bytes)

  datatype Ref = Ref(computerId: string, botId: string)

  /** What a snapshot captures: the files and the browser session. */
  datatype Home = Home(files: map<string, Node>, currentUrl: Option<string>, typed: map<string, string>, typedBuffer: string)

  datatype Handle = Handle(snapshotId: string, key: string, size: nat, checksum: string)

  datatype ProviderError = Gone | NotFound | BadTimeout

  datatype Status = Status(running: bool, generation: nat) | NotProvisioned

  /** What stays fixed: the empty home, the archive, its hash, and the key of a snapshot. */
  datatype Provider = Provider(empty: Home, archive: Home -> Bytes, hash: Bytes -> string, key: (Ref, string) -> string)

  /** A key names its snapshot. */
  ghost predicate WellKeyed(p: Provider) {
    forall c, id, c', id' :: p.key(c, id) == p.key(c', id') ==> id == id'
  }

  const SCOPE_LENGTH := 16

  /** `computerSnapshotKey`, over the scope of a computer. */
  function SnapshotKey(scope: string, snapshotId: string): string {
    "computer-snapshots/" + scope + "/" + snapshotId + ".tar"
  }

  /** Scopes are all of one length, so the key the code derives names its scope and its id. */
  lemma SnapshotKeyNames(scope: string, id: string, scope': string, id': string)
    requires |scope| == SCOPE_LENGTH == |scope'|
    ensures SnapshotKey(scope, id) == SnapshotKey(scope', id') <==> scope == scope' && id == id'
  {
    var one, two := SnapshotKey(scope, id), SnapshotKey(scope', id');
    if one == two {
      var at := |"computer-snapshots/"|;
      assert one[at..at + SCOPE_LENGTH] == scope && two[at..at + SCOPE_LENGTH] == scope';
      assert |id| == |id'|;
      assert one[at + SCOPE_LENGTH + 1..|one| - 4] == id && two[at + SCOPE_LENGTH + 1..|two| - 4] == id';
    }
  }

  lemma DerivedKeysAreWellKeyed(empty: Home, archive: Home -> Bytes, hash: Bytes -> string, scope: Ref -> string)
    requires forall c: Ref :: |scope(c)| == SCOPE_LENGTH
    ensures WellKeyed(Provider(empty, archive, hash, (c: Ref, id: string) => SnapshotKey(scope(c), id)))
  {
    var p := Provider(empty, archive, hash, (c: Ref, id: string) => SnapshotKey(scope(c), id));
    forall c, id, c', id' | p.key(c, id) == p.key(c', id')
      ensures id == id'
    {
      SnapshotKeyNames(scope(c), id, scope(c'), id');
    }
  }

  // ---- the world, on values ----

  datatype Machine = Machine(running: bool, generation: nat, home: Home)

  datatype Shot = Shot(snapshotId: string, home: Home, size: nat, checksum: string)

  datatype World = World(machines: map<string, Machine>, botIds: map<string, string>, shots: map<string, Shot>, next: nat)

  const START := World(map[], map[], map[], 1)

  function Ensured(p: Provider, w: World, c: Ref): World {
    var named := w.(botIds := w.botIds[c.computerId := c.botId]);
    if c.computerId !in w.machines then named.(machines := w.machines[c.computerId := Machine(true, w.next, p.empty)], next := w.next + 1)
    else if !w.machines[c.computerId].running then
      named.(machines := w.machines[c.computerId := w.machines[c.computerId].(running := true, generation := w.next)], next := w.next + 1)
    else named
  }

  function Stopped(w: World, c: Ref): World {
    if c.computerId in w.machines then w.(machines := w.machines[c.computerId := w.machines[c.computerId].(running := false)]) else w
  }

  predicate IsRunning(w: World, c: Ref) {
    c.computerId in w.machines && w.machines[c.computerId].running
  }

  function HandleOf(p: Provider, c: Ref, snapshotId: string, home: Home): Handle {
    Handle(snapshotId, p.key(c, snapshotId), |p.archive(home)|, p.hash(p.archive(home)))
  }

  function Snapped(p: Provider, w: World, c: Ref, snapshotId: string): (World, Result<Handle, ProviderError>) {
    if !IsRunning(w, c) then (w, Failure(Gone))
    else
      var home := w.machines[c.computerId].home;
      var handle := HandleOf(p, c, snapshotId, home);
      (w.(shots := w.shots[handle.key := Shot(snapshotId, home, handle.size, handle.checksum)]), Success(handle))
  }

  predicate Accepts(p: Provider, w: World, c: Ref, h: Handle) {
    h.key in w.shots && h.key == p.key(c, h.snapshotId) && w.shots[h.key].snapshotId == h.snapshotId
    && w.shots[h.key].size == h.size && w.shots[h.key].checksum == h.checksum
  }

  function Restored(p: Provider, w: World, c: Ref, h: Handle): (World, Result<Status, ProviderError>) {
    if !Accepts(p, w, c, h) then (w, Failure(NotFound))
    else
      (World(w.machines[c.computerId := Machine(true, w.next, w.shots[h.key].home)], w.botIds[c.computerId := c.botId], w.shots, w.next + 1),
       Success(Status(true, w.next)))
  }

  function Destroyed(w: World, c: Ref): World {
    w.(machines := w.machines - {c.computerId}, botIds := w.botIds - {c.computerId})
  }

  /** A command, or operator input: a change of the running machine's home. */
  function Executed(w: World, c: Ref, timeoutMs: int, command: Home -> Home): (World, Result<(), ProviderError>) {
    if timeoutMs <= 0 then (w, Failure(BadTimeout))
    else if !IsRunning(w, c) then (w, Failure(Gone))
    else (w.(machines := w.machines[c.computerId := w.machines[c.computerId].(home := command(w.machines[c.computerId].home))]), Success(()))
  }

  function Pressed(w: World, c: Ref, text: string): (World, Result<(), ProviderError>) {
    if !IsRunning(w, c) then (w, Failure(Gone))
    else
      var m := w.machines[c.computerId];
      (w.(machines := w.machines[c.computerId := m.(home := m.home.(typedBuffer := m.home.typedBuffer + text))]), Success(()))
  }

  // ---- the emulator, on objects ----

  class FileMap {
    var nodes: map<string, Node>

    constructor (nodes: map<string, Node>)
      ensures this.nodes == nodes
    {
      this.nodes := nodes;
    }
  }

  class BrowserSession {
    var currentUrl: Option<string>
    var typed: map<string, string>
    var typedBuffer: string

    constructor (currentUrl: Option<string>, typed: map<string, string>, typedBuffer: string)
      ensures this.currentUrl == currentUrl && this.typed == typed && this.typedBuffer == typedBuffer
    {
      this.currentUrl, this.typed, this.typedBuffer := currentUrl, typed, typedBuffer;
    }
  }

  class Instance {
    var running: bool
    var generation: nat
    const files: FileMap
    const browser: BrowserSession

    constructor (running: bool, generation: nat, files: FileMap, browser: BrowserSession)
      ensures this.running == running && this.generation == generation && this.files == files && this.browser == browser
    {
      this.running, this.generation, this.files, this.browser := running, generation, files, browser;
    }

    function HomeNow(): Home
      reads files, browser
    {
      Home(files.nodes, browser.currentUrl, browser.typed, browser.typedBuffer)
    }

    function Now(): Machine
      reads this, files, browser
    {
      Machine(running, generation, HomeNow())
    }

    /** `cloneInstance`: every mutable part is a new object. */
    method Clone() returns (copy: Instance)
      ensures fresh(copy) && fresh(copy.files) && fresh(copy.browser)
      ensures copy.Now() == Now()
    {
      var files' := new FileMap(files.nodes);
      var browser' := new BrowserSession(browser.currentUrl, browser.typed, browser.typedBuffer);
      copy := new Instance(running, generation, files', browser');
    }
  }

  datatype Saved = Saved(snapshotId: string, instance: Instance, size: nat, checksum: string)

  ghost predicate Apart(a: Instance, b: Instance) {
    a != b && a.files != b.files && a.browser != b.browser
  }

  class ComputerEmulator {
    const provider: Provider
    var instances: map<string, Instance>
    var botIds: map<string, string>
    var snapshots: map<string, Saved>
    var nextGeneration: nat
    ghost var Repr: set<object>

    ghost predicate Holds(i: Instance)
      reads `Repr
    {
      i in Repr && i.files in Repr && i.browser in Repr
    }

    ghost predicate Held()
      reads this
    {
      && this in Repr
      && (forall a :: a in instances ==> Holds(instances[a]))
      && (forall k :: k in snapshots ==> Holds(snapshots[k].instance))
    }

    /** No two machines share a part, and no machine shares one with a snapshot. */
    ghost predicate Separate()
      reads this
    {
      && (forall a, b :: a in instances && b in instances && a != b ==> Apart(instances[a], instances[b]))
      && (forall a, k :: a in instances && k in snapshots ==> Apart(instances[a], snapshots[k].instance))
    }

    ghost predicate Valid()
      reads this
    {
      Held() && Separate()
    }

    ghost function Machines(): map<string, Machine>
      requires Held()
      reads this, Repr
    {
      map a | a in instances :: instances[a].Now()
    }

    ghost function Shots(): map<string, Shot>
      requires Held()
      reads this, Repr
    {
      map k | k in snapshots :: Shot(snapshots[k].snapshotId, snapshots[k].instance.HomeNow(), snapshots[k].size, snapshots[k].checksum)
    }

    ghost function View(): World
      requires Held()
      reads this, Repr
    {
      World(Machines(), botIds, Shots(), nextGeneration)
    }

    constructor (provider: Provider)
      ensures this.provider == provider && Valid() && fresh(Repr) && View() == START
    {
      this.provider := provider;
      instances, botIds, snapshots, nextGeneration := map[], map[], map[], 1;
      Repr := {this};
    }

    twostate lemma ShotsKept()
      requires old(Held()) && Held() && snapshots == old(snapshots)
      requires forall k :: k in snapshots ==> snapshots[k].instance.HomeNow() == old(snapshots[k].instance.HomeNow())
      ensures Shots() == old(Shots())
    {
    }

    twostate lemma MachineChanged(id: string)
      requires old(Held()) && Held() && id in instances
      requires instances.Keys == old(instances).Keys + {id}
      requires forall a :: a in old(instances) && a != id ==> instances[a].Now() == old(instances[a].Now())
      ensures Machines() == old(Machines())[id := instances[id].Now()]
    {
    }

    /** A step that leaves the snapshots and every machine but one alone. */
    twostate lemma OneChanged(id: string)
      requires old(Held()) && Held() && id in instances && snapshots == old(snapshots)
      requires forall k :: k in snapshots ==> snapshots[k].instance.HomeNow() == old(snapshots[k].instance.HomeNow())
      requires instances.Keys == old(instances).Keys + {id}
      requires forall a :: a in old(instances) && a != id ==> instances[a].Now() == old(instances[a].Now())
      ensures View() == World(old(Machines())[id := instances[id].Now()], botIds, old(Shots()), nextGeneration)
    {
      MachineChanged(id);
      ShotsKept();
    }

    twostate lemma MachinesKept()
      requires old(Held()) && Held() && instances == old(instances)
      requires forall a :: a in instances ==> instances[a].Now() == old(instances[a].Now())
      ensures Machines() == old(Machines())
    {
    }

    /** A step that stores one snapshot and keeps the others. */
    twostate lemma ShotAdded(key: string)
      requires old(Held()) && Held() && key in snapshots
      requires snapshots == old(snapshots)[key := snapshots[key]]
      requires forall k :: k in old(snapshots) && k != key ==> snapshots[k].instance.HomeNow() == old(snapshots[k].instance.HomeNow())
      ensures var saved := snapshots[key];
              Shots() == old(Shots())[key := Shot(saved.snapshotId, saved.instance.HomeNow(), saved.size, saved.checksum)]
    {
    }

    /** The parts of one machine are no part of another, nor of a snapshot. */
    lemma OthersApart(id: string)
      requires Valid() && id in instances
      ensures forall a :: a in instances && a != id ==> Apart(instances[id], instances[a])
      ensures forall k :: k in snapshots ==> Apart(instances[id], snapshots[k].instance)
    {
    }

    /** `#createInstance`, at the next generation. */
    method CreateInstance() returns (i: Instance)
      ensures fresh(i) && fresh(i.files) && fresh(i.browser)
      ensures i.Now() == Machine(true, nextGeneration, provider.empty)
    {
      var files := new FileMap(provider.empty.files);
      var browser := new BrowserSession(provider.empty.currentUrl, provider.empty.typed, provider.empty.typedBuffer);
      var template := new Instance(true, nextGeneration, files, browser);
      i := template.Clone();
    }

    /** A snapshot's copy, running at the next generation. */
    method Reboot(saved: Instance) returns (i: Instance)
      ensures fresh(i) && fresh(i.files) && fresh(i.browser)
      ensures i.Now() == Machine(true, nextGeneration, saved.HomeNow())
    {
      i := saved.Clone();
      i.running := true;
      i.generation := nextGeneration;
    }

    /** Puts a new instance, sharing nothing, in a computer's place and moves the counter on. */
    method Install(c: Ref, i: Instance)
      requires Valid() && {i, i.files, i.browser} !! Repr
      modifies this
      ensures Valid() && Repr == old(Repr) + {i, i.files, i.browser}
      ensures View() == World(old(Machines())[c.computerId := i.Now()], old(botIds)[c.computerId := c.botId], old(Shots()), old(nextGeneration) + 1)
    {
      ApartFromAll(i);
      instances := instances[c.computerId := i];
      botIds := botIds[c.computerId := c.botId];
      Repr := Repr + {i, i.files, i.browser};
      nextGeneration := nextGeneration + 1;
      MachineChanged(c.computerId);
      ShotsKept();
    }

    lemma ApartFromAll(i: Instance)
      requires Valid() && {i, i.files, i.browser} !! Repr
      ensures forall a :: a in instances ==> Apart(i, instances[a]) && Apart(instances[a], i)
      ensures forall k :: k in snapshots ==> Apart(i, snapshots[k].instance)
    {
    }

    method Start(c: Ref)
      requires Valid() && c.computerId in instances
      modifies Repr
      ensures Valid() && Repr == old(Repr)
      ensures View() == World(old(Machines())[c.computerId := old(instances[c.computerId].Now()).(running := true, generation := old(nextGeneration))],
                              old(botIds)[c.computerId := c.botId], old(Shots()), old(nextGeneration) + 1)
    {
      OthersApart(c.computerId);
      var existing := instances[c.computerId];
      botIds := botIds[c.computerId := c.botId];
      existing.running := true;
      existing.generation := nextGeneration;
      nextGeneration := nextGeneration + 1;
      OneChanged(c.computerId);
    }

    method Ensure(c: Ref)
      requires Valid()
      modifies Repr
      ensures Valid() && fresh(Repr - old(Repr))
      ensures View() == Ensured(provider, old(View()), c)
    {
      if c.computerId !in instances {
        var i := CreateInstance();
        Install(c, i);
        assert c.computerId !in old(View()).machines;
      } else if !instances[c.computerId].running {
        Start(c);
        assert old(View()).machines[c.computerId] == old(instances[c.computerId].Now());
      } else {
        botIds := botIds[c.computerId := c.botId];
        MachinesKept();
        ShotsKept();
      }
    }

    method Stop(c: Ref)
      requires Valid()
      modifies Repr
      ensures Valid() && Repr == old(Repr)
      ensures View() == Stopped(old(View()), c)
    {
      if c.computerId in instances {
        OthersApart(c.computerId);
        instances[c.computerId].running := false;
        OneChanged(c.computerId);
      }
    }

    method Snapshot(c: Ref, snapshotId: string) returns (r: Result<Handle, ProviderError>)
      requires Valid()
      modifies Repr
      ensures Valid() && fresh(Repr - old(Repr))
      ensures (View(), r) == Snapped(provider, old(View()), c, snapshotId)
    {
      if c.computerId !in instances || !instances[c.computerId].running {
        return Failure(Gone);
      }
      var instance := instances[c.computerId];
      var archive := provider.archive(instance.HomeNow());
      var key := provider.key(c, snapshotId);
      var copy := instance.Clone();
      snapshots := snapshots[key := Saved(snapshotId, copy, |archive|, provider.hash(archive))];
      Repr := Repr + {copy, copy.files, copy.browser};
      ShotAdded(key);
      MachinesKept();
      return Success(Handle(snapshotId, key, |archive|, provider.hash(archive)));
    }

    /** The id, the key, the size and the checksum all name one stored snapshot. */
    method IsStored(c: Ref, h: Handle) returns (stored: bool)
      requires Held()
      ensures stored == Accepts(provider, View(), c, h)
      ensures stored ==> h.key in snapshots && View().shots[h.key].home == snapshots[h.key].instance.HomeNow()
    {
      stored := h.key in snapshots && h.key == provider.key(c, h.snapshotId) && snapshots[h.key].snapshotId == h.snapshotId
                && snapshots[h.key].size == h.size && snapshots[h.key].checksum == h.checksum;
    }

    method BringBack(c: Ref, key: string) returns (generation: nat)
      requires Valid() && key in snapshots
      modifies this
      ensures Valid() && fresh(Repr - old(Repr)) && generation == old(nextGeneration)
      ensures View() == World(old(Machines())[c.computerId := Machine(true, generation, old(Shots())[key].home)],
                              old(botIds)[c.computerId := c.botId], old(Shots()), generation + 1)
    {
      generation := nextGeneration;
      ghost var was, home := View(), Shots()[key].home;
      var instance := Reboot(snapshots[key].instance);
      assert Valid() && View() == was && instance.Now() == Machine(true, generation, home);
      Install(c, instance);
    }

    method Restore(c: Ref, h: Handle) returns (r: Result<Status, ProviderError>)
      requires Valid()
      modifies Repr
      ensures Valid() && fresh(Repr - old(Repr))
      ensures (View(), r) == Restored(provider, old(View()), c, h)
    {
      ghost var before := View();
      var stored := IsStored(c, h);
      if !stored {
        assert Restored(provider, before, c, h) == (before, Failure(NotFound));
        return Failure(NotFound);
      }
      var generation := BringBack(c, h.key);
      assert Restored(provider, before, c, h).1 == Success(Status(true, generation));
      return Success(Status(true, generation));
    }

    method Destroy(c: Ref)
      requires Valid()
      modifies Repr
      ensures Valid() && Repr == old(Repr)
      ensures View() == Destroyed(old(View()), c)
    {
      instances := instances - {c.computerId};
      botIds := botIds - {c.computerId};
      ShotsKept();
      assert Machines() == old(Machines()) - {c.computerId};
    }

    /** The command writes the instance's own file map and browser, in place. */
    method Exec(c: Ref, timeoutMs: int, command: Home -> Home) returns (r: Result<(), ProviderError>)
      requires Valid()
      modifies Repr
      ensures Valid() && Repr == old(Repr)
      ensures (View(), r) == Executed(old(View()), c, timeoutMs, command)
    {
      if timeoutMs <= 0 {
        return Failure(BadTimeout);
      }
      if c.computerId !in instances || !instances[c.computerId].running {
        return Failure(Gone);
      }
      OthersApart(c.computerId);
      var instance := instances[c.computerId];
      var after := command(instance.HomeNow());
      instance.files.nodes := after.files;
      instance.browser.currentUrl := after.currentUrl;
      instance.browser.typed := after.typed;
      instance.browser.typedBuffer := after.typedBuffer;
      OneChanged(c.computerId);
      return Success(());
    }

    method Input(c: Ref, text: string) returns (r: Result<(), ProviderError>)
      requires Valid()
      modifies Repr
      ensures Valid() && Repr == old(Repr)
      ensures (View(), r) == Pressed(old(View()), c, text)
    {
      if c.computerId !in instances || !instances[c.computerId].running {
        return Failure(Gone);
      }
      OthersApart(c.computerId);
      var browser := instances[c.computerId].browser;
      browser.typedBuffer := browser.typedBuffer + text;
      OneChanged(c.computerId);
      return Success(());
    }
  }

  // ---- runs ----

  datatype Action =
    | Ensure(c: Ref)
    | Stop(c: Ref)
    | Snapshot(c: Ref, snapshotId: string)
    | Restore(c: Ref, handle: Handle)
    | Destroy(c: Ref)
    | Exec(c: Ref, timeoutMs: int, command: Home -> Home)
    | Input(c: Ref, text: string)

  predicate Drawn(w: World, snapshotId: string) {
    exists k :: k in w.shots && w.shots[k].snapshotId == snapshotId
  }

  /** One operation; None for a snapshot id that was drawn before. */
  function Act(p: Provider, w: World, a: Action): Option<World> {
    match a
    case Ensure(c) => Some(Ensured(p, w, c))
    case Stop(c) => Some(Stopped(w, c))
    case Snapshot(c, snapshotId) => if Drawn(w, snapshotId) then None else Some(Snapped(p, w, c, snapshotId).0)
    case Restore(c, handle) => Some(Restored(p, w, c, handle).0)
    case Destroy(c) => Some(Destroyed(w, c))
    case Exec(c, timeoutMs, command) => Some(Executed(w, c, timeoutMs, command).0)
    case Input(c, text) => Some(Pressed(w, c, text).0)
  }

  function After(p: Provider, w: World, run: seq<Action>): Option<World>
    decreases |run|
  {
    if run == [] then Some(w)
    else
      match After(p, w, run[..|run| - 1])
      case None => None
      case Some(v) => Act(p, v, run[|run| - 1])
  }

  /** Every stored snapshot is filed under the key its id gives some computer. */
  ghost predicate Filed(p: Provider, w: World) {
    forall k :: k in w.shots ==> exists c: Ref :: k == p.key(c, w.shots[k].snapshotId)
  }

  ghost predicate Generations(w: World) {
    && (forall a :: a in w.machines ==> w.machines[a].generation < w.next)
    && (forall a, b :: a in w.machines && b in w.machines && a != b ==> w.machines[a].generation != w.machines[b].generation)
  }

  ghost predicate Sound(p: Provider, w: World) {
    Filed(p, w) && Generations(w)
  }

  lemma SnapKeeps(p: Provider, w: World, c: Ref, snapshotId: string)
    requires WellKeyed(p) && Filed(p, w) && !Drawn(w, snapshotId)
    ensures Filed(p, Snapped(p, w, c, snapshotId).0)
    ensures forall k :: k in w.shots ==> k in Snapped(p, w, c, snapshotId).0.shots && Snapped(p, w, c, snapshotId).0.shots[k] == w.shots[k]
  {
  }

  lemma GenerationsKept(p: Provider, w: World, a: Action)
    requires Generations(w) && Act(p, w, a).Some?
    ensures Generations(Act(p, w, a).value) && w.next <= Act(p, w, a).value.next
  {
  }

  lemma ShotsKept(p: Provider, w: World, a: Action)
    requires WellKeyed(p) && Filed(p, w) && Act(p, w, a).Some?
    ensures Filed(p, Act(p, w, a).value)
    ensures forall k :: k in w.shots ==> k in Act(p, w, a).value.shots && Act(p, w, a).value.shots[k] == w.shots[k]
  {
    if a.Snapshot? {
      SnapKeeps(p, w, a.c, a.snapshotId);
    }
  }

  lemma ActKeeps(p: Provider, w: World, a: Action)
    requires WellKeyed(p) && Sound(p, w) && Act(p, w, a).Some?
    ensures Sound(p, Act(p, w, a).value)
    ensures w.next <= Act(p, w, a).value.next
    ensures forall k :: k in w.shots ==> k in Act(p, w, a).value.shots && Act(p, w, a).value.shots[k] == w.shots[k]
  {
    GenerationsKept(p, w, a);
    ShotsKept(p, w, a);
  }

  /** Over every run: live machines have distinct generations below the next one, and a snapshot
      once stored is never changed or lost. */
  lemma {:induction false} RunKeeps(p: Provider, w: World, run: seq<Action>)
    requires WellKeyed(p) && Sound(p, w) && After(p, w, run).Some?
    ensures Sound(p, After(p, w, run).value)
    ensures w.next <= After(p, w, run).value.next
    ensures forall k :: k in w.shots ==> k in After(p, w, run).value.shots && After(p, w, run).value.shots[k] == w.shots[k]
    decreases |run|
  {
    if run != [] {
      RunKeeps(p, w, run[..|run| - 1]);
      ActKeeps(p, After(p, w, run[..|run| - 1]).value, run[|run| - 1]);
    }
  }

  lemma GenerationsAreDistinct(p: Provider, run: seq<Action>)
    requires WellKeyed(p) && After(p, START, run).Some?
    ensures Generations(After(p, START, run).value)
  {
    RunKeeps(p, START, run);
  }

  /** A restart is a new instance: its generation is past every one there was before. */
  lemma RestartIsNew(p: Provider, w: World, run: seq<Action>, a: Action, id: string)
    requires WellKeyed(p) && Sound(p, w) && id in w.machines && After(p, w, run).Some? && Act(p, After(p, w, run).value, a).Some?
    requires var v, t := After(p, w, run).value, Act(p, After(p, w, run).value, a).value;
             id in t.machines && t.machines[id].running && (id in v.machines ==> !v.machines[id].running)
    ensures Act(p, After(p, w, run).value, a).value.machines[id].generation > w.machines[id].generation
  {
    RunKeeps(p, w, run);
  }

  /** No operation on one computer touches another's machine. */
  lemma OthersAreUntouched(p: Provider, w: World, a: Action, other: string)
    requires Act(p, w, a).Some? && other != a.c.computerId
    ensures var t := Act(p, w, a).value;
            && (other in t.machines <==> other in w.machines)
            && (other in w.machines ==> t.machines[other] == w.machines[other])
            && (other in t.botIds <==> other in w.botIds) && (other in w.botIds ==> t.botIds[other] == w.botIds[other])
  {
  }

  /** Restoring a snapshot brings back exactly the home it captured, whatever ran in between, on
      a running machine with a generation of its own. */
  lemma RestoreBringsBack(p: Provider, before: seq<Action>, c: Ref, snapshotId: string, between: seq<Action>)
    requires WellKeyed(p) && After(p, START, before).Some?
    requires var w := After(p, START, before).value; IsRunning(w, c) && !Drawn(w, snapshotId)
    requires After(p, Snapped(p, After(p, START, before).value, c, snapshotId).0, between).Some?
    ensures var w := After(p, START, before).value;
            var (shot, handle) := Snapped(p, w, c, snapshotId);
            var v := After(p, shot, between).value;
            var (t, status) := Restored(p, v, c, handle.value);
            && status == Success(Status(true, v.next))
            && t.machines[c.computerId] == Machine(true, v.next, w.machines[c.computerId].home)
            && (forall id :: id in v.machines ==> v.machines[id].generation < v.next)
  {
    var w := After(p, START, before).value;
    RunKeeps(p, START, before);
    ActKeeps(p, w, Snapshot(c, snapshotId));
    RunKeeps(p, Snapped(p, w, c, snapshotId).0, between);
  }

  /** A handle is honoured exactly when a snapshot was stored under its key with its id, size and
      checksum and the key is this computer's; anything else is refused and changes nothing. */
  lemma RestoreIsExact(p: Provider, w: World, c: Ref, h: Handle)
    ensures Restored(p, w, c, h).1.Success? <==>
            h.key in w.shots && h.key == p.key(c, h.snapshotId)
            && Handle(w.shots[h.key].snapshotId, h.key, w.shots[h.key].size, w.shots[h.key].checksum) == h
    ensures Restored(p, w, c, h).1.Failure? ==> Restored(p, w, c, h) == (w, Failure(NotFound))
  {
  }

  /** Bringing a machine up twice is bringing it up once. */
  lemma EnsureIsIdempotent(p: Provider, w: World, c: Ref)
    ensures Ensured(p, Ensured(p, w, c), c) == Ensured(p, w, c)
    ensures IsRunning(Ensured(p, w, c), c)
    ensures c.computerId in w.machines ==> Ensured(p, w, c).machines[c.computerId].home == w.machines[c.computerId].home
  {
  }

  /** Commands, input and snapshots need a running machine: with none, and with a parked one, each
      fails as gone and nothing changes; a command without a positive timeout is refused first. */
  lemma OnlyARunningMachineWorks(p: Provider, w: World, c: Ref, timeoutMs: int, command: Home -> Home, text: string, snapshotId: string)
    ensures var up := c.computerId in w.machines && w.machines[c.computerId].running;
            && Executed(w, c, timeoutMs, command).1 == (if timeoutMs <= 0 then Failure(BadTimeout) else if !up then Failure(Gone) else Success(()))
            && (timeoutMs <= 0 || !up ==> Executed(w, c, timeoutMs, command).0 == w)
            && (!up ==> Pressed(w, c, text) == (w, Failure(Gone)) && Snapped(p, w, c, snapshotId) == (w, Failure(Gone)))
            && (up ==> Pressed(w, c, text).1.Success? && Snapped(p, w, c, snapshotId).1.Success?)
  {
  }

  function Find(machines: map<string, Machine>, id: string): Option<Machine> {
    if id in machines then Some(machines[id]) else None
  }

  /** What each operation makes of its own machine: a stop parks it where it stands, a destroy
      leaves none, ensuring brings it up as a new instance unless it runs, with the home it has or
      an empty one, and a command or input changes the home of a running one alone. */
  lemma OwnMachineAfter(p: Provider, w: World, a: Action)
    requires Act(p, w, a).Some? && !a.Restore?
    ensures var was, now := Find(w.machines, a.c.computerId), Find(Act(p, w, a).value.machines, a.c.computerId);
            match a
            case Ensure(_) =>
              now == Some(Machine(true, if was.Some? && was.value.running then was.value.generation else w.next, if was.Some? then was.value.home else p.empty))
            case Stop(_) => now == (if was.Some? then Some(Machine(false, was.value.generation, was.value.home)) else None)
            case Destroy(_) => now.None?
            case Exec(_, timeoutMs, command) =>
              now == (if was.Some? && was.value.running && timeoutMs > 0 then Some(Machine(true, was.value.generation, command(was.value.home))) else was)
            case Input(_, text) =>
              now == (if was.Some? && was.value.running
                      then Some(Machine(true, was.value.generation, was.value.home.(typedBuffer := was.value.home.typedBuffer + text))) else was)
            case _ => now == was
  {
  }

  /** And of the rest of its world: the bot it is named for, the next generation, and the snapshot
      it files. */
  lemma OwnRecordsAfter(p: Provider, w: World, a: Action)
    requires Act(p, w, a).Some? && !a.Restore?
    ensures var t, was := Act(p, w, a).value, Find(w.machines, a.c.computerId);
            && t.botIds == (if a.Ensure? then w.botIds[a.c.computerId := a.c.botId] else if a.Destroy? then w.botIds - {a.c.computerId} else w.botIds)
            && t.next == (if a.Ensure? && !(was.Some? && was.value.running) then w.next + 1 else w.next)
            && t.shots == (if a.Snapshot? && was.Some? && was.value.running
                           then w.shots[p.key(a.c, a.snapshotId) := Shot(a.snapshotId, was.value.home, |p.archive(was.value.home)|, p.hash(p.archive(was.value.home)))]
                           else w.shots)
  {
  }
}
