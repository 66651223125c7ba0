/**
 * Request budgets and stream slots (apps/api/src/limits.ts). A time is a whole number of
 * milliseconds.
 *
 * `Limiter` is the map-with-sweep the code keeps; the reference is one window per counter key
 * that is never swept. For a clock that does not run backwards they agree on every outcome.
 */
module RateLimiter {
  import opened ByteStreams

  datatype Window = Window(count: int, startedAt: int)

  datatype Verdict = Allowed | Refused(retryAfterSeconds: int)

  datatype Request = Request(bucket: string, key: string, limit: int, at: int)

  const SWEEP_EVERY := 1_000

  function CounterKey(bucket: string, key: string): string {
    bucket + ['\0'] + key
  }

  /** Buckets without a NUL never share a counter, whatever the caller's key holds. */
  lemma CounterKeysDoNotCollide(bucket: string, key: string, bucket': string, key': string)
    requires '\0' !in bucket && '\0' !in bucket'
    ensures CounterKey(bucket, key) == CounterKey(bucket', key') <==> bucket == bucket' && key == key'
  {
    var one, two := CounterKey(bucket, key), CounterKey(bucket', key');
    if one == two {
      assert one[|bucket|] == '\0' && two[|bucket'|] == '\0';
      assert |bucket| == |bucket'|;
      assert one[..|bucket|] == bucket && two[..|bucket'|] == bucket';
      assert one[|bucket| + 1..] == key && two[|bucket'| + 1..] == key';
    }
  }

  // ---- one counter ----

  predicate Expired(w: Window, windowMs: int, at: int) {
    at - w.startedAt >= windowMs
  }

  /** The smallest whole number at least `ms / 1000`. */
  function CeilSeconds(ms: int): int {
    -((-ms) / 1_000)
  }

  function Max(a: int, b: int): int {
    if a >= b then a else b
  }

  /** One check against one counter: its window afterwards and the answer. */
  function Count(slot: Option<Window>, windowMs: int, limit: int, at: int): (Window, Verdict) {
    if slot.None? || Expired(slot.value, windowMs, at) then (Window(1, at), Allowed)
    else if slot.value.count < limit then (slot.value.(count := slot.value.count + 1), Allowed)
    else (slot.value, Refused(Max(1, CeilSeconds(slot.value.startedAt + windowMs - at))))
  }

  /** `retryAfterSeconds` is exact: it is the least positive number of seconds after which the
      counter admits again. */
  lemma RetryIsExact(w: Window, windowMs: int, limit: int, at: int, later: int, seconds: int)
    requires Count(Some(w), windowMs, limit, at).1.Refused?
    requires later == at + 1_000 * seconds && 1 <= seconds
    ensures Count(Some(w), windowMs, limit, later).1 == Allowed <==> seconds >= Count(Some(w), windowMs, limit, at).1.retryAfterSeconds
  {
  }

  // ---- the map of windows ----

  datatype Limiter = Limiter(windows: map<string, Window>, checks: nat)

  const FRESH := Limiter(map[], 0)

  function Swept(windows: map<string, Window>, windowMs: int, at: int): map<string, Window> {
    map k | k in windows && !Expired(windows[k], windowMs, at) :: windows[k]
  }

  function Get(windows: map<string, Window>, k: string): Option<Window> {
    if k in windows then Some(windows[k]) else None
  }

  function Checked(l: Limiter, windowMs: int, r: Request): (Limiter, Verdict) {
    var windows := if (l.checks + 1) % SWEEP_EVERY == 0 then Swept(l.windows, windowMs, r.at) else l.windows;
    var k := CounterKey(r.bucket, r.key);
    var (w, verdict) := Count(Get(windows, k), windowMs, r.limit, r.at);
    (Limiter(windows[k := w], l.checks + 1), verdict)
  }

  class RequestLimiter {
    const windowMs: int
    var windows: map<string, Window>
    var checks: nat

    constructor (windowMs: int)
      ensures this.windowMs == windowMs && State() == FRESH
    {
      this.windowMs := windowMs;
      windows, checks := map[], 0;
    }

    ghost function State(): Limiter
      reads this
    {
      Limiter(windows, checks)
    }

    method Sweep(at: int)
      modifies `windows
      ensures windows == Swept(old(windows), windowMs, at)
    {
      var keys := windows.Keys;
      var all := windows;
      while keys != {}
        invariant keys <= all.Keys
        invariant windows == map k | k in all && (k in keys || !Expired(all[k], windowMs, at)) :: all[k]
        decreases |keys|
      {
        var key :| key in keys;
        if at - windows[key].startedAt >= windowMs {
          windows := windows - {key};
        }
        keys := keys - {key};
      }
    }

    method Check(bucket: string, key: string, requestsPerMinute: int, at: int) returns (verdict: Verdict)
      modifies this
      ensures (State(), verdict) == Checked(old(State()), windowMs, Request(bucket, key, requestsPerMinute, at))
    {
      checks := checks + 1;
      if checks % SWEEP_EVERY == 0 {
        Sweep(at);
      }
      var counterKey := CounterKey(bucket, key);
      if counterKey !in windows || at - windows[counterKey].startedAt >= windowMs {
        windows := windows[counterKey := Window(1, at)];
        return Allowed;
      }
      var window := windows[counterKey];
      if window.count < requestsPerMinute {
        windows := windows[counterKey := Window(window.count + 1, window.startedAt)];
        return Allowed;
      }
      var retryAfterMs := window.startedAt + windowMs - at;
      assert windows[counterKey := window] == windows;
      return Refused(Max(1, CeilSeconds(retryAfterMs)));
    }
  }

  // ---- whole runs, and the reference without a sweep ----

  ghost predicate Nondecreasing(rs: seq<Request>) {
    forall i, j :: 0 <= i < j < |rs| ==> rs[i].at <= rs[j].at
  }

  function After(windowMs: int, rs: seq<Request>): Limiter {
    if rs == [] then FRESH else Checked(After(windowMs, rs[..|rs| - 1]), windowMs, rs[|rs| - 1]).0
  }

  /** What the limiter answers to `r` after `rs`. */
  function Answer(windowMs: int, rs: seq<Request>, r: Request): Verdict {
    Checked(After(windowMs, rs), windowMs, r).1
  }

  /** The checks of one counter key. */
  function Only(rs: seq<Request>, k: string): (own: seq<Request>)
    ensures forall r :: r in own ==> r in rs && CounterKey(r.bucket, r.key) == k
  {
    if rs == [] then []
    else
      var r := rs[|rs| - 1];
      Only(rs[..|rs| - 1], k) + if CounterKey(r.bucket, r.key) == k then [r] else []
  }

  /** The reference counter after its own checks `rs`. */
  function Counter(windowMs: int, rs: seq<Request>): Option<Window> {
    if rs == [] then None
    else var r := rs[|rs| - 1]; Some(Count(Counter(windowMs, rs[..|rs| - 1]), windowMs, r.limit, r.at).0)
  }

  /** What the reference answers: it has seen nothing but this counter's own checks. */
  function Reference(windowMs: int, rs: seq<Request>, r: Request): Verdict {
    Count(Counter(windowMs, rs), windowMs, r.limit, r.at).1
  }

  /** The limiter holds a counter's window, unless it has expired and been dropped. */
  ghost predicate Agrees(windowMs: int, windows: map<string, Window>, slot: Option<Window>, k: string, now: int) {
    Get(windows, k) == slot || (k !in windows && slot.Some? && Expired(slot.value, windowMs, now))
  }

  lemma CheckAgrees(l: Limiter, windowMs: int, r: Request, slot: Option<Window>, k: string, now: int)
    requires Agrees(windowMs, l.windows, slot, k, now) && now <= r.at
    ensures var own := CounterKey(r.bucket, r.key) == k;
            && Agrees(windowMs, Checked(l, windowMs, r).0.windows, if own then Some(Count(slot, windowMs, r.limit, r.at).0) else slot, k, r.at)
            && (own ==> Checked(l, windowMs, r).1 == Count(slot, windowMs, r.limit, r.at).1)
  {
  }

  lemma {:induction false} AfterAgrees(windowMs: int, rs: seq<Request>, k: string, now: int)
    requires Nondecreasing(rs) && (rs != [] ==> rs[|rs| - 1].at <= now)
    ensures Agrees(windowMs, After(windowMs, rs).windows, Counter(windowMs, Only(rs, k)), k, now)
    decreases |rs|
  {
    if rs != [] {
      var init, r := rs[..|rs| - 1], rs[|rs| - 1];
      AfterAgrees(windowMs, init, k, r.at);
      CheckAgrees(After(windowMs, init), windowMs, r, Counter(windowMs, Only(init, k)), k, r.at);
      if CounterKey(r.bucket, r.key) == k {
        assert (Only(init, k) + [r])[..|Only(init, k)|] == Only(init, k);
      } else {
        assert Only(rs, k) == Only(init, k);
      }
    }
  }

  /** Under a clock that does not run backwards, every answer is the one the unswept counter
      gives after this counter key's own checks alone. */
  lemma SweepingNeverShows(windowMs: int, rs: seq<Request>, r: Request)
    requires Nondecreasing(rs + [r])
    ensures Answer(windowMs, rs, r) == Reference(windowMs, Only(rs, CounterKey(r.bucket, r.key)), r)
  {
    var k := CounterKey(r.bucket, r.key);
    assert (rs + [r])[|rs|] == r && forall i :: 0 <= i < |rs| ==> (rs + [r])[i] == rs[i];
    AfterAgrees(windowMs, rs, k, r.at);
    CheckAgrees(After(windowMs, rs), windowMs, r, Counter(windowMs, Only(rs, k)), k, r.at);
  }

  /** So two histories that agree on one counter key answer it alike. */
  lemma OtherKeysDoNotMatter(windowMs: int, rs: seq<Request>, others: seq<Request>, r: Request)
    requires Nondecreasing(rs + [r]) && Nondecreasing(others + [r])
    requires Only(rs, CounterKey(r.bucket, r.key)) == Only(others, CounterKey(r.bucket, r.key))
    ensures Answer(windowMs, rs, r) == Answer(windowMs, others, r)
  {
    SweepingNeverShows(windowMs, rs, r);
    SweepingNeverShows(windowMs, others, r);
  }

  // ---- how much one counter admits ----

  /** How many of one counter's checks in `[from, from + windowMs)` were admitted. */
  function Admitted(windowMs: int, rs: seq<Request>, from: int): nat {
    if rs == [] then 0
    else
      var init, r := rs[..|rs| - 1], rs[|rs| - 1];
      Admitted(windowMs, init, from) + if from <= r.at < from + windowMs && Reference(windowMs, init, r) == Allowed then 1 else 0
  }

  ghost predicate Bounded(windowMs: int, rs: seq<Request>, from: int, budget: int) {
    var n, slot := Admitted(windowMs, rs, from), Counter(windowMs, rs);
    && (rs == [] ==> n == 0)
    && (rs != [] ==>
          var w := slot.value;
          && 1 <= w.count <= budget
          && w.startedAt <= rs[|rs| - 1].at
          && (rs[|rs| - 1].at < from ==> n == 0)
          && n <= (if w.startedAt < from then w.count - 1
                   else if w.startedAt < from + windowMs then budget - 1 + w.count
                   else 2 * budget - 1))
  }

  lemma {:induction false} StaysBounded(windowMs: int, rs: seq<Request>, from: int, budget: int)
    requires Nondecreasing(rs) && 1 <= budget && (forall r :: r in rs ==> r.limit == budget)
    ensures Bounded(windowMs, rs, from, budget)
    decreases |rs|
  {
    if rs != [] {
      StaysBounded(windowMs, rs[..|rs| - 1], from, budget);
    }
  }

  /** Any interval as long as the window admits at most twice the budget less one. */
  lemma AtMostTwoBudgetsLessOne(windowMs: int, rs: seq<Request>, from: int, budget: int)
    requires Nondecreasing(rs) && 1 <= budget && (forall r :: r in rs ==> r.limit == budget)
    ensures Admitted(windowMs, rs, from) <= 2 * budget - 1
  {
    StaysBounded(windowMs, rs, from, budget);
  }

  function Times(n: nat, r: Request): (rs: seq<Request>)
    ensures |rs| == n && forall i :: 0 <= i < n ==> rs[i] == r
  {
    seq(n, _ => r)
  }

  /** `n` further checks inside an open window with room for them are all admitted. */
  lemma {:induction false} RoomAdmits(windowMs: int, rs: seq<Request>, r: Request, n: nat, from: int)
    requires Counter(windowMs, rs).Some? && !Expired(Counter(windowMs, rs).value, windowMs, r.at)
    requires Counter(windowMs, rs).value.count + n <= r.limit && from <= r.at < from + windowMs
    ensures Counter(windowMs, rs + Times(n, r)) == Some(Counter(windowMs, rs).value.(count := Counter(windowMs, rs).value.count + n))
    ensures Admitted(windowMs, rs + Times(n, r), from) == Admitted(windowMs, rs, from) + n
  {
    if n == 0 {
      assert rs + Times(n, r) == rs;
    } else {
      RoomAdmits(windowMs, rs, r, n - 1, from);
      var all := rs + Times(n, r);
      assert all[..|all| - 1] == rs + Times(n - 1, r);
    }
  }

  /** A budget's worth of checks: one at 0, the rest of the first window's at its end, and a
      whole budget at the start of the next window. */
  function Burst(windowMs: int, r: Request, budget: int): (rs: seq<Request>)
    requires 1 <= budget
    ensures |rs| == 2 * budget
    ensures forall i :: 0 <= i < |rs| ==> rs[i] == r.(at := if i == 0 then 0 else if i < budget then windowMs - 1 else windowMs)
  {
    [r.(at := 0)] + Times(budget - 1, r.(at := windowMs - 1)) + [r.(at := windowMs)] + Times(budget - 1, r.(at := windowMs))
  }

  /** A check after the window has expired opens the next one. */
  lemma TurnOver(windowMs: int, rs: seq<Request>, r: Request, from: int)
    requires Counter(windowMs, rs).Some? && Expired(Counter(windowMs, rs).value, windowMs, r.at) && from <= r.at < from + windowMs
    ensures Counter(windowMs, rs + [r]) == Some(Window(1, r.at)) && Admitted(windowMs, rs + [r], from) == Admitted(windowMs, rs, from) + 1
  {
  }

  lemma FirstWindow(windowMs: int, first: Request, late: Request, n: nat)
    requires first.at == 0 && late.at == windowMs - 1 && 2 <= windowMs && n + 1 <= late.limit
    ensures Counter(windowMs, [first] + Times(n, late)) == Some(Window(1 + n, 0))
    ensures Admitted(windowMs, [first] + Times(n, late), windowMs - 1) == n
  {
    assert [first][..0] == [];
    assert Counter(windowMs, [first]) == Some(Window(1, 0)) && Admitted(windowMs, [first], windowMs - 1) == 0;
    RoomAdmits(windowMs, [first], late, n, windowMs - 1);
  }

  lemma SecondWindow(windowMs: int, rs: seq<Request>, next: Request, n: nat, from: int)
    requires Counter(windowMs, rs).Some? && Expired(Counter(windowMs, rs).value, windowMs, next.at)
    requires n + 1 <= next.limit && from <= next.at < from + windowMs
    ensures Admitted(windowMs, rs + [next] + Times(n, next), from) == Admitted(windowMs, rs, from) + n + 1
  {
    TurnOver(windowMs, rs, next, from);
    RoomAdmits(windowMs, rs + [next], next, n, from);
  }

  lemma BurstIsAdmitted(windowMs: int, r: Request, budget: int)
    requires 2 <= windowMs && 1 <= budget && r.limit == budget
    ensures Admitted(windowMs, Burst(windowMs, r, budget), windowMs - 1) == 2 * budget - 1
  {
    var late, next := r.(at := windowMs - 1), r.(at := windowMs);
    FirstWindow(windowMs, r.(at := 0), late, budget - 1);
    SecondWindow(windowMs, [r.(at := 0)] + Times(budget - 1, late), next, budget - 1, windowMs - 1);
  }

  /** And that bound is reached, for every budget and every window of two milliseconds or more. */
  lemma TheBoundIsReached(windowMs: int, r: Request) returns (rs: seq<Request>)
    requires 2 <= windowMs && 1 <= r.limit
    ensures Nondecreasing(rs) && (forall q :: q in rs ==> q.limit == r.limit && q.bucket == r.bucket && q.key == r.key)
    ensures Admitted(windowMs, rs, windowMs - 1) == 2 * r.limit - 1
  {
    rs := Burst(windowMs, r, r.limit);
    BurstIsAdmitted(windowMs, r, r.limit);
  }

  lemma {:induction false} OnlyAppend(rs: seq<Request>, more: seq<Request>, k: string)
    requires forall r :: r in more ==> CounterKey(r.bucket, r.key) != k
    ensures Only(rs + more, k) == Only(rs, k)
    decreases |more|
  {
    if more == [] {
      assert rs + more == rs;
    } else {
      var all := rs + more;
      assert all[..|all| - 1] == rs + more[..|more| - 1];
      OnlyAppend(rs, more[..|more| - 1], k);
    }
  }

  /** A refused caller that waits the seconds it was told, with no other check on its counter
      meanwhile, is admitted, whatever everyone else did. */
  lemma WaitingIsEnough(windowMs: int, rs: seq<Request>, r: Request, others: seq<Request>, again: Request)
    requires Nondecreasing(rs + [r] + others + [again])
    requires CounterKey(again.bucket, again.key) == CounterKey(r.bucket, r.key)
    requires forall o :: o in others ==> CounterKey(o.bucket, o.key) != CounterKey(r.bucket, r.key)
    requires Answer(windowMs, rs, r).Refused? && again.at >= r.at + 1_000 * Answer(windowMs, rs, r).retryAfterSeconds
    ensures Answer(windowMs, rs + [r] + others, again) == Allowed
  {
    var k := CounterKey(r.bucket, r.key);
    var all := rs + [r] + others + [again];
    assert forall i :: 0 <= i < |rs + [r]| ==> all[i] == (rs + [r])[i];
    SweepingNeverShows(windowMs, rs, r);
    SweepingNeverShows(windowMs, rs + [r] + others, again);
    OnlyAppend(rs + [r], others, k);
    assert (rs + [r])[..|rs|] == rs;
    var own := Only(rs, k);
    assert Only(rs + [r], k) == own + [r] && (own + [r])[..|own|] == own;
    var w := Counter(windowMs, own).value;
    var ms := w.startedAt + windowMs - r.at;
    assert -1_000 * CeilSeconds(ms) <= -ms;
  }

  /** A sweep leaves no stale window behind: the map then holds only counters that are still
      inside their window. */
  lemma SweepDropsEveryStaleWindow(windowMs: int, rs: seq<Request>, r: Request)
    requires Nondecreasing(rs + [r]) && (|rs| + 1) % SWEEP_EVERY == 0 && 0 < windowMs
    ensures forall k :: k in After(windowMs, rs + [r]).windows ==> !Expired(After(windowMs, rs + [r]).windows[k], windowMs, r.at)
  {
    assert (rs + [r])[..|rs|] == rs;
    ChecksCount(windowMs, rs);
  }

  lemma {:induction false} ChecksCount(windowMs: int, rs: seq<Request>)
    ensures After(windowMs, rs).checks == |rs|
    decreases |rs|
  {
    if rs != [] {
      ChecksCount(windowMs, rs[..|rs| - 1]);
    }
  }

  // ---- stream slots ----

  class StreamSlot {
    const key: string
    var released: bool

    constructor (key: string)
      ensures this.key == key && !released
    {
      this.key := key;
      released := false;
    }
  }

  class StreamSlots {
    var held: map<string, int>
    ghost var issued: set<StreamSlot>

    /** The slots of one key still unreleased. */
    ghost function Unreleased(key: string): set<StreamSlot>
      reads `issued, issued
    {
      set s | s in issued && s.key == key && !s.released
    }

    function Held(key: string): int
      reads this
    {
      if key in held then held[key] else 0
    }

    /** The count kept for a key is the number of its unreleased slots; a key without one has no
        entry. */
    ghost predicate Valid()
      reads this, issued
    {
      && (forall key :: key in held ==> held[key] == |Unreleased(key)| && held[key] > 0)
      && (forall key :: key !in held ==> Unreleased(key) == {})
    }

    constructor ()
      ensures Valid() && issued == {} && held == map[]
    {
      held, issued := map[], {};
    }

    /** Opens a slot exactly when the key has fewer than `max` unreleased. */
    method Acquire(key: string, max: int) returns (slot: Option<StreamSlot>)
      requires Valid()
      modifies this
      ensures Valid()
      ensures slot.Some? <==> old(|Unreleased(key)|) < max
      ensures slot.None? ==> issued == old(issued) && held == old(held)
      ensures slot.Some? ==> fresh(slot.value) && slot.value.key == key && !slot.value.released
                             && issued == old(issued) + {slot.value} && Unreleased(key) == old(Unreleased(key)) + {slot.value}
      ensures forall other :: other != key ==> Unreleased(other) == old(Unreleased(other))
    {
      var count := if key in held then held[key] else 0;
      assert count == |Unreleased(key)|;
      if count >= max {
        return None;
      }
      var s := new StreamSlot(key);
      held := held[key := count + 1];
      issued := issued + {s};
      assert Unreleased(key) == old(Unreleased(key)) + {s};
      assert forall other :: other != key ==> Unreleased(other) == old(Unreleased(other));
      return Some(s);
    }

    /** Gives the slot back once; releasing it again changes nothing. */
    method Release(slot: StreamSlot)
      requires Valid() && slot in issued
      modifies this`held, slot
      ensures Valid() && issued == old(issued) && slot.released
      ensures old(slot.released) ==> held == old(held)
      ensures Unreleased(slot.key) == old(Unreleased(slot.key)) - {slot}
      ensures forall other :: other != slot.key ==> Unreleased(other) == old(Unreleased(other))
    {
      if slot.released {
        return;
      }
      assert slot in Unreleased(slot.key);
      slot.released := true;
      assert Unreleased(slot.key) == old(Unreleased(slot.key)) - {slot};
      assert |Unreleased(slot.key)| == old(|Unreleased(slot.key)|) - 1;
      assert forall other :: other != slot.key ==> Unreleased(other) == old(Unreleased(other));
      assert forall other :: other in held && other != slot.key ==> held[other] == |Unreleased(other)|;
      label Marked:
      var current := if slot.key in held then held[slot.key] else 0;
      if current <= 1 {
        held := held - {slot.key};
      } else {
        held := held[slot.key := current - 1];
      }
      assert forall other :: Unreleased(other) == old@Marked(Unreleased(other));
    }
  }
}
