/**
 * The webhook ingress after verification: deliveries deduplicated in a ledger with a time to
 * live, handlers that run, succeed or throw (apps/api/src/webhooks.ts, packages/db/src/ingress.ts).
 *
 * An action is one exchange with the ledger or one handler settling. `dispatches` is history:
 * every call of a handler, and how it ended.
 */
module Webhooks {
  import opened ByteStreams

  const TTL := 86_400

  // ---- source names ----

  predicate Letter(c: char) {
    'a' <= c <= 'z' || '0' <= c <= '9'
  }

  /** Lowercase letters, digits and interior dashes, up to 64 characters. */
  predicate IsWebhookSource(s: string) {
    && 1 <= |s| <= 64 && Letter(s[0]) && Letter(s[|s| - 1])
    && forall i :: 0 <= i < |s| ==> Letter(s[i]) || s[i] == '-'
  }

  function Fold(c: char): char {
    if 'a' <= c <= 'z' then (c as int - 32) as char else if c == '-' then '_' else c
  }

  function SecretName(source: string): string {
    "PORKBOT_WEBHOOK_SECRET_" + seq(|source|, i requires 0 <= i < |source| => Fold(source[i]))
  }

  /** Two canonical sources never share a signing secret. */
  lemma SecretNamesAreDistinct(a: string, b: string)
    requires IsWebhookSource(a) && IsWebhookSource(b)
    ensures SecretName(a) == SecretName(b) <==> a == b
  {
    var n := |"PORKBOT_WEBHOOK_SECRET_"|;
    if SecretName(a) == SecretName(b) {
      assert |a| == |b|;
      forall i | 0 <= i < |a|
        ensures a[i] == b[i]
      {
        assert SecretName(a)[n + i] == Fold(a[i]) && SecretName(b)[n + i] == Fold(b[i]);
      }
    }
  }

  // ---- deliveries ----

  datatype Delivery = Delivery(source: string, deliveryId: string)

  datatype Ending = InHand | Accepted | Thrown

  datatype Dispatch = Dispatch(delivery: Delivery, at: int, ending: Ending)

  /** `row` names the dispatch the row was recorded for. */
  datatype Row = Row(expiresAt: int, dispatch: nat)

  datatype State = State(clock: int, rows: map<Delivery, Row>, dispatches: seq<Dispatch>)

  datatype Action = Receive(delivery: Delivery, at: int) | Succeed(dispatch: nat, at: int) | Throw(dispatch: nat, at: int, released: bool)

  function Standing(rows: map<Delivery, Row>, now: int): map<Delivery, Row> {
    map d | d in rows && rows[d].expiresAt > now :: rows[d]
  }

  predicate Running(s: State, n: nat) {
    n < |s.dispatches| && s.dispatches[n].ending == InHand
  }

  /** `record` and the dispatch that follows it, a handler's return, or its throw with the release
      that may fail; None if the clock runs back or no such handler runs. */
  function Act(s: State, a: Action): Option<State> {
    match a
    case Receive(d, at) =>
      if at < s.clock then None
      else
        var rows := Standing(s.rows, at);
        Some(if d in rows then State(at, rows, s.dispatches)
             else State(at, rows[d := Row(at + TTL, |s.dispatches|)], s.dispatches + [Dispatch(d, at, InHand)]))
    case Succeed(n, at) =>
      if at < s.clock || !Running(s, n) then None
      else Some(State(at, s.rows, s.dispatches[n := s.dispatches[n].(ending := Accepted)]))
    case Throw(n, at, released) =>
      if at < s.clock || !Running(s, n) then None
      else
        Some(State(at, if released then s.rows - {s.dispatches[n].delivery} else s.rows,
                   s.dispatches[n := s.dispatches[n].(ending := Thrown)]))
  }

  const START := State(0, map[], [])

  function Follow(s: State, run: seq<Action>): Option<State>
    decreases |run|
  {
    if run == [] then Some(s)
    else
      match Follow(s, run[..|run| - 1])
      case None => None
      case Some(t) => Act(t, run[|run| - 1])
  }

  function Reached(run: seq<Action>): Option<State> {
    Follow(START, run)
  }

  /** No handler outlives the row it was dispatched under. */
  ghost predicate Prompt(run: seq<Action>)
    decreases |run|
  {
    run == [] ||
    (var init, a := run[..|run| - 1], run[|run| - 1];
     && Prompt(init)
     && (!a.Receive? && Reached(init).Some? && Running(Reached(init).value, a.dispatch) ==> a.at < Reached(init).value.dispatches[a.dispatch].at + TTL))
  }

  /** A standing row is its dispatch's own, and of no other delivery. */
  ghost predicate RowsOk(s: State) {
    forall d :: d in s.rows ==>
      s.rows[d].dispatch < |s.dispatches| && s.dispatches[s.rows[d].dispatch].delivery == d && s.rows[d].expiresAt == s.dispatches[s.rows[d].dispatch].at + TTL
  }

  /** A dispatch that has not thrown keeps its delivery from the next one for as long as its row lasts. */
  ghost predicate Guarded(s: State) {
    && (forall i :: 0 <= i < |s.dispatches| ==> s.dispatches[i].at <= s.clock)
    && (forall i :: 0 <= i < |s.dispatches| && s.dispatches[i].ending != Thrown && s.clock < s.dispatches[i].at + TTL ==>
          s.dispatches[i].delivery in s.rows && s.rows[s.dispatches[i].delivery].dispatch == i)
  }

  predicate Rival(first: Dispatch, second: Dispatch) {
    first.delivery == second.delivery && second.at < first.at + TTL
  }

  /** Of any two dispatches of one delivery inside one row's lifetime, the first threw. */
  ghost predicate OnceUnlessThrown(s: State) {
    forall i, j :: 0 <= i < j < |s.dispatches| && Rival(s.dispatches[i], s.dispatches[j]) ==> s.dispatches[i].ending == Thrown
  }

  lemma ReceiveKeepsRows(s: State, d: Delivery, at: int)
    requires RowsOk(s) && Act(s, Receive(d, at)).Some?
    ensures RowsOk(Act(s, Receive(d, at)).value)
  {
  }

  lemma ReceiveKeepsGuard(s: State, d: Delivery, at: int)
    requires Guarded(s) && Act(s, Receive(d, at)).Some? && RowsOk(s)
    ensures Guarded(Act(s, Receive(d, at)).value)
  {
  }

  lemma ReceiveKeepsOnce(s: State, d: Delivery, at: int)
    requires RowsOk(s) && Guarded(s) && OnceUnlessThrown(s) && Act(s, Receive(d, at)).Some?
    ensures OnceUnlessThrown(Act(s, Receive(d, at)).value)
  {
  }

  lemma SettleKeeps(s: State, a: Action)
    requires RowsOk(s) && Guarded(s) && OnceUnlessThrown(s) && Act(s, a).Some? && !a.Receive?
    requires a.at < s.dispatches[a.dispatch].at + TTL
    ensures var t := Act(s, a).value; RowsOk(t) && Guarded(t) && OnceUnlessThrown(t)
  {
  }

  lemma {:induction false} PromptRunsAreGuarded(run: seq<Action>)
    requires Reached(run).Some? && Prompt(run)
    ensures RowsOk(Reached(run).value) && Guarded(Reached(run).value) && OnceUnlessThrown(Reached(run).value)
    decreases |run|
  {
    if run != [] {
      var init, a := run[..|run| - 1], run[|run| - 1];
      PromptRunsAreGuarded(init);
      if a.Receive? {
        ReceiveKeepsRows(Reached(init).value, a.delivery, a.at);
        ReceiveKeepsGuard(Reached(init).value, a.delivery, a.at);
        ReceiveKeepsOnce(Reached(init).value, a.delivery, a.at);
      } else {
        SettleKeeps(Reached(init).value, a);
      }
    }
  }

  /** Within a row's lifetime a delivery is dispatched again only after its handler threw, provided
      no handler runs longer than that lifetime. */
  lemma DispatchedOnceUnlessThrown(run: seq<Action>, i: nat, j: nat)
    requires Reached(run).Some? && Prompt(run) && i < j < |Reached(run).value.dispatches|
    requires Rival(Reached(run).value.dispatches[i], Reached(run).value.dispatches[j])
    ensures Reached(run).value.dispatches[i].ending == Thrown
  {
    PromptRunsAreGuarded(run);
  }

  /** And a handler that threw is dispatched again by the next delivery, if its release landed. */
  lemma ThrownIsDispatchedAgain(s: State, n: nat, at: int, again: int)
    requires Running(s, n) && s.clock <= at <= again
    ensures var t := Act(Act(s, Throw(n, at, true)).value, Receive(s.dispatches[n].delivery, again)).value;
            |t.dispatches| == |s.dispatches| + 1 && t.dispatches[|s.dispatches|] == Dispatch(s.dispatches[n].delivery, again, InHand)
  {
  }

  // ---- when a dispatch can be repeated at all ----

  ghost predicate InOrder(dispatches: seq<Dispatch>, clock: int) {
    && (forall i, j :: 0 <= i < j < |dispatches| ==> dispatches[i].at <= dispatches[j].at)
    && (forall i :: 0 <= i < |dispatches| ==> dispatches[i].at <= clock)
  }

  ghost predicate NewestRows(rows: map<Delivery, Row>, dispatches: seq<Dispatch>) {
    forall d, k :: d in rows && 0 <= k < |dispatches| && dispatches[k].delivery == d ==> k <= rows[d].dispatch
  }

  /** The delivery's row, if it has one, is its newest dispatch's, and dispatches are in clock order. */
  ghost predicate RowsAreNewest(s: State) {
    RowsOk(s) && NewestRows(s.rows, s.dispatches) && InOrder(s.dispatches, s.clock)
  }

  lemma DispatchIsNewest(rows: map<Delivery, Row>, dispatches: seq<Dispatch>, d: Delivery, at: int)
    requires NewestRows(rows, dispatches)
    ensures NewestRows(Standing(rows, at), dispatches)
    ensures NewestRows(Standing(rows, at)[d := Row(at + TTL, |dispatches|)], dispatches + [Dispatch(d, at, InHand)])
  {
  }

  lemma OrderGrows(dispatches: seq<Dispatch>, clock: int, d: Delivery, at: int)
    requires InOrder(dispatches, clock) && clock <= at
    ensures InOrder(dispatches, at) && InOrder(dispatches + [Dispatch(d, at, InHand)], at)
  {
  }

  lemma ReceiveStaysNewest(s: State, d: Delivery, at: int)
    requires RowsAreNewest(s) && Act(s, Receive(d, at)).Some?
    ensures RowsAreNewest(Act(s, Receive(d, at)).value)
  {
    DispatchIsNewest(s.rows, s.dispatches, d, at);
    ReceiveKeepsRows(s, d, at);
    OrderGrows(s.dispatches, s.clock, d, at);
  }

  lemma SettleStaysNewest(s: State, a: Action)
    requires RowsAreNewest(s) && Act(s, a).Some? && !a.Receive?
    ensures RowsAreNewest(Act(s, a).value)
  {
    var t := Act(s, a).value;
    assert |t.dispatches| == |s.dispatches| && forall k :: 0 <= k < |t.dispatches| ==> t.dispatches[k].delivery == s.dispatches[k].delivery && t.dispatches[k].at == s.dispatches[k].at;
  }

  lemma {:induction false} RowsStayNewest(run: seq<Action>)
    requires Reached(run).Some?
    ensures RowsAreNewest(Reached(run).value)
    decreases |run|
  {
    if run != [] {
      var init, a := run[..|run| - 1], run[|run| - 1];
      RowsStayNewest(init);
      if a.Receive? {
        ReceiveStaysNewest(Reached(init).value, a.delivery, a.at);
      } else {
        SettleStaysNewest(Reached(init).value, a);
      }
    }
  }

  /** Dispatch `i` has not thrown and its row's lifetime is not over. */
  predicate Unthrown(s: State, i: nat) {
    i < |s.dispatches| && s.dispatches[i].ending != Thrown && s.clock < s.dispatches[i].at + TTL
  }

  /** In some continuation its delivery is dispatched anew while that is so. */
  ghost predicate CanRepeat(s: State, i: nat)
    requires i < |s.dispatches|
  {
    exists more :: Follow(s, more).Some? && Repeats(s, Follow(s, more).value, i)
  }

  ghost predicate Repeats(s: State, t: State, i: nat)
    requires i < |s.dispatches|
  {
    Unthrown(t, i) && exists j :: |s.dispatches| <= j < |t.dispatches| && t.dispatches[j].delivery == s.dispatches[i].delivery
  }

  /** The delivery has its row and no handler but `i`'s runs for it. */
  ghost predicate Shut(s: State, i: nat)
    requires i < |s.dispatches|
  {
    s.dispatches[i].delivery in s.rows && forall n: nat :: Running(s, n) && s.dispatches[n].delivery == s.dispatches[i].delivery ==> n == i
  }

  lemma ShutStep(s: State, a: Action, i: nat)
    requires RowsAreNewest(s) && Act(s, a).Some? && i < |s.dispatches| && Shut(s, i)
    requires Unthrown(Act(s, a).value, i)
    ensures Shut(Act(s, a).value, i) && Unthrown(s, i)
    ensures var t := Act(s, a).value;
            forall j :: |s.dispatches| <= j < |t.dispatches| ==> t.dispatches[j].delivery != s.dispatches[i].delivery
    ensures Act(s, a).value.dispatches[i].delivery == s.dispatches[i].delivery
  {
    var t, d := Act(s, a).value, s.dispatches[i].delivery;
    assert s.rows[d].dispatch >= i && s.rows[d].expiresAt >= s.dispatches[i].at + TTL;
    assert t.clock < s.dispatches[i].at + TTL;
    forall n: nat | Running(t, n) && t.dispatches[n].delivery == d
      ensures n == i
    {
      if n < |s.dispatches| {
        assert Running(s, n);
      }
    }
  }

  lemma {:induction false} ShutStays(run: seq<Action>, s: State, more: seq<Action>, i: nat)
    requires Reached(run) == Some(s) && Follow(s, more).Some? && i < |s.dispatches| && Shut(s, i)
    requires Unthrown(Follow(s, more).value, i)
    ensures var t := Follow(s, more).value;
            && |s.dispatches| <= |t.dispatches| && Shut(t, i) && t.dispatches[i].delivery == s.dispatches[i].delivery
            && forall j :: |s.dispatches| <= j < |t.dispatches| ==> t.dispatches[j].delivery != s.dispatches[i].delivery
    decreases |more|
  {
    if more != [] {
      var init, a := more[..|more| - 1], more[|more| - 1];
      var before := Follow(s, init).value;
      JoinedRuns(run, init, s);
      RowsStayNewest(run + init);
      NeverFewer(s, init);
      StandingBefore(before, a, i);
      ShutStays(run, s, init, i);
      ShutStep(before, a, i);
      DeliveriesStay(before, a);
    }
  }

  lemma DeliveriesStay(s: State, a: Action)
    requires Act(s, a).Some?
    ensures var t := Act(s, a).value;
            |s.dispatches| <= |t.dispatches| && forall k :: 0 <= k < |s.dispatches| ==> t.dispatches[k].delivery == s.dispatches[k].delivery
  {
  }

  lemma {:induction false} NeverFewer(s: State, more: seq<Action>)
    requires Follow(s, more).Some?
    ensures |s.dispatches| <= |Follow(s, more).value.dispatches|
    decreases |more|
  {
    if more != [] {
      NeverFewer(s, more[..|more| - 1]);
    }
  }

  lemma StandingBefore(s: State, a: Action, i: nat)
    requires Act(s, a).Some? && i < |s.dispatches| && Unthrown(Act(s, a).value, i)
    ensures Unthrown(s, i)
  {
  }

  lemma {:induction false} JoinedRuns(run: seq<Action>, more: seq<Action>, s: State)
    requires Reached(run) == Some(s)
    ensures Reached(run + more) == Follow(s, more)
    decreases |more|
  {
    if more == [] {
      assert run + more == run;
    } else {
      JoinedRuns(run, more[..|more| - 1], s);
      assert (run + more)[..|run + more| - 1] == run + more[..|more| - 1];
    }
  }

  /** In every reached state, a dispatch that has not thrown can be repeated within its row's
      lifetime exactly when its delivery's row is gone already or another handler of the delivery
      is still running: that one's throw would delete the row. */
  lemma CanRepeatWhen(run: seq<Action>, s: State, i: nat)
    requires Reached(run) == Some(s) && Unthrown(s, i)
    ensures CanRepeat(s, i) <==>
            s.dispatches[i].delivery !in s.rows || exists n: nat :: n != i && Running(s, n) && s.dispatches[n].delivery == s.dispatches[i].delivery
  {
    RowsStayNewest(run);
    var d := s.dispatches[i].delivery;
    if d !in s.rows {
      RepeatsByReceiving(s, [], s, i);
    } else if n: nat :| n != i && Running(s, n) && s.dispatches[n].delivery == d {
      var freed := Act(s, Throw(n, s.clock, true)).value;
      FollowOne(s, [], Throw(n, s.clock, true), s);
      RepeatsByReceiving(s, [] + [Throw(n, s.clock, true)], freed, i);
    } else {
      forall more | Follow(s, more).Some?
        ensures !Repeats(s, Follow(s, more).value, i)
      {
        if Unthrown(Follow(s, more).value, i) {
          ShutStays(run, s, more, i);
        }
      }
    }
  }

  lemma FollowOne(s: State, more: seq<Action>, a: Action, t: State)
    requires Follow(s, more) == Some(t)
    ensures Follow(s, more + [a]) == Act(t, a)
  {
    assert (more + [a])[..|more|] == more;
  }

  lemma RepeatsByReceiving(s: State, more: seq<Action>, t: State, i: nat)
    requires Follow(s, more) == Some(t) && i < |s.dispatches| == |t.dispatches| && t.dispatches[i] == s.dispatches[i] && Unthrown(t, i)
    requires s.dispatches[i].delivery !in t.rows
    ensures CanRepeat(s, i)
  {
    var receive := Receive(s.dispatches[i].delivery, t.clock);
    FollowOne(s, more, receive, t);
    var next := Act(t, receive).value;
    assert next.dispatches[|s.dispatches|].delivery == s.dispatches[i].delivery;
    assert Repeats(s, Follow(s, more + [receive]).value, i);
  }

  lemma OneMore(run: seq<Action>, a: Action, s: State)
    requires Reached(run) == Some(s)
    ensures Reached(run + [a]) == Act(s, a)
  {
  }

  /** What `release` deletes is whichever row the delivery has now. It leaves every unfinished
      dispatch guarded exactly when that row is the thrower's own, gone, lapsed, or one whose
      handler threw already. */
  lemma ReleaseIsSafeWhen(s: State, n: nat, at: int)
    requires RowsOk(s) && Guarded(s) && Running(s, n) && s.clock <= at
    ensures var d := s.dispatches[n].delivery;
            Guarded(Act(s, Throw(n, at, true)).value) <==>
            d !in s.rows || s.rows[d].dispatch == n || s.rows[d].expiresAt <= at || s.dispatches[s.rows[d].dispatch].ending == Thrown
  {
    var d, t := s.dispatches[n].delivery, Act(s, Throw(n, at, true)).value;
    if d in s.rows && s.rows[d].dispatch != n && s.rows[d].expiresAt > at && s.dispatches[s.rows[d].dispatch].ending != Thrown {
      var i := s.rows[d].dispatch;
      assert t.dispatches[i] == s.dispatches[i] && d !in t.rows;
    }
  }

  /** A handler that outlives its row releases the next one's: a delivery that was accepted is
      dispatched a second time within its own row's lifetime. */
  lemma LateThrowReleasesAnothersRow(d: Delivery) returns (run: seq<Action>, s: State)
    ensures Reached(run) == Some(s) && |s.dispatches| == 3
    ensures s.dispatches[1] == Dispatch(d, TTL, Accepted) && s.dispatches[2] == Dispatch(d, TTL + 1, InHand)
  {
    run, s := [], State(0, map[], []);
    OneMore(run, Receive(d, 0), s);
    run, s := run + [Receive(d, 0)], Act(s, Receive(d, 0)).value;
    assert s.rows == map[d := Row(TTL, 0)] && s.dispatches == [Dispatch(d, 0, InHand)];
    OneMore(run, Receive(d, TTL), s);
    var second := Act(s, Receive(d, TTL)).value;
    assert d !in Standing(s.rows, TTL);
    run, s := run + [Receive(d, TTL)], second;
    OneMore(run, Succeed(1, TTL), s);
    run, s := run + [Succeed(1, TTL)], Act(s, Succeed(1, TTL)).value;
    OneMore(run, Throw(0, TTL + 1, true), s);
    run, s := run + [Throw(0, TTL + 1, true)], Act(s, Throw(0, TTL + 1, true)).value;
    assert d !in s.rows;
    OneMore(run, Receive(d, TTL + 1), s);
    run, s := run + [Receive(d, TTL + 1)], Act(s, Receive(d, TTL + 1)).value;
  }

  // ---- the form of the names ----

  /** A source is a letter or digit, or two of them around at most 62 letters, digits and dashes. */
  lemma SourceIs(first: char, middle: string, last: char)
    ensures IsWebhookSource([first]) <==> 'a' <= first <= 'z' || '0' <= first <= '9'
    ensures IsWebhookSource([first] + middle + [last]) <==>
            && ('a' <= first <= 'z' || '0' <= first <= '9') && ('a' <= last <= 'z' || '0' <= last <= '9')
            && |middle| <= 62 && forall i :: 0 <= i < |middle| ==> 'a' <= middle[i] <= 'z' || '0' <= middle[i] <= '9' || middle[i] == '-'
    ensures !IsWebhookSource("")
  {
    var whole := [first] + middle + [last];
    assert whole[0] == first && whole[|whole| - 1] == last;
    assert forall i :: 0 <= i < |middle| ==> whole[i + 1] == middle[i];
    assert forall i :: 0 < i < |whole| - 1 ==> whole[i] == middle[i - 1];
  }

  /** The name of a source's secret has only capitals, digits and underscores. */
  lemma SecretNameIsPlain(source: string)
    requires IsWebhookSource(source)
    ensures forall c :: c in SecretName(source) ==> 'A' <= c <= 'Z' || '0' <= c <= '9' || c == '_'
  {
    var prefix := "PORKBOT_WEBHOOK_SECRET_";
    forall c | c in SecretName(source)
      ensures 'A' <= c <= 'Z' || '0' <= c <= '9' || c == '_'
    {
      var i :| 0 <= i < |SecretName(source)| && SecretName(source)[i] == c;
      if i >= |prefix| {
        assert c == Fold(source[i - |prefix|]);
      }
    }
  }
}
