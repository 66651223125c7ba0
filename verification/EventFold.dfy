/**
 * The cursor discipline of the run-event fold: an event at the cursor is applied, one ahead of
 * it waits, one at or below it is a replay (packages/core/src/event-reducer.ts:616-705).
 * What applying an event means is a parameter here; EventReducer supplies it.
 */
module EventFold {
  import opened ByteStreams

  datatype Event<+P> = Event(seqNo: nat, payload: P)

  /** A snapshot with its position: `pending` waits for the gap after `lastSeq` to fill. */
  datatype Cursor<+S, +P> = Cursor(view: S, lastSeq: nat, pending: seq<Event<P>>)

  function At<P>(pending: seq<Event<P>>, seqNo: nat): (found: Option<Event<P>>)
    ensures found.Some? ==> found.value.seqNo == seqNo
  {
    if pending == [] then None
    else if pending[0].seqNo == seqNo then Some(pending[0])
    else At(pending[1..], seqNo)
  }

  function Without<P>(pending: seq<Event<P>>, seqNo: nat): (rest: seq<Event<P>>)
    ensures |rest| <= |pending| && (At(pending, seqNo).Some? ==> |rest| < |pending|)
  {
    if pending == [] then []
    else if pending[0].seqNo == seqNo then Without(pending[1..], seqNo)
    else [pending[0]] + Without(pending[1..], seqNo)
  }

  /** `[...pending, event].sort((l, r) => l.seq - r.seq)` of an already sorted `pending`. */
  function Enqueue<P>(pending: seq<Event<P>>, e: Event<P>): seq<Event<P>> {
    if pending == [] then [e]
    else if e.seqNo < pending[0].seqNo then [e] + pending
    else [pending[0]] + Enqueue(pending[1..], e)
  }

  function ApplyAtCursor<S, P, E>(apply: (S, Event<P>) -> Result<S, E>, c: Cursor<S, P>, e: Event<P>): Result<Cursor<S, P>, E> {
    match apply(c.view, e)
    case Failure(error) => Failure(error)
    case Success(view) => Success(Cursor(view, e.seqNo, Without(c.pending, e.seqNo)))
  }

  /** Applies waiting events for as long as the next one is there. */
  function Drain<S, P, E>(apply: (S, Event<P>) -> Result<S, E>, c: Cursor<S, P>): Result<Cursor<S, P>, E>
    decreases |c.pending|
  {
    match At(c.pending, c.lastSeq + 1)
    case None => Success(c)
    case Some(next) =>
      match ApplyAtCursor(apply, c, next)
      case Failure(error) => Failure(error)
      case Success(applied) => Drain(apply, applied)
  }

  /** `drainPending` as the loop it is. */
  method DrainPending<S, P, E>(apply: (S, Event<P>) -> Result<S, E>, c: Cursor<S, P>) returns (r: Result<Cursor<S, P>, E>)
    ensures r == Drain(apply, c)
  {
    var current := c;
    while true
      invariant Drain(apply, c) == Drain(apply, current)
      decreases |current.pending|
    {
      var next := At(current.pending, current.lastSeq + 1);
      if next.None? {
        return Success(current);
      }
      var applied := ApplyAtCursor(apply, current, next.value);
      if applied.Failure? {
        return Failure(applied.error);
      }
      current := applied.value;
    }
  }

  /** `reduceRunEvent` past its parsing and thread checks. */
  function Receive<S, P, E>(apply: (S, Event<P>) -> Result<S, E>, c: Cursor<S, P>, e: Event<P>): Result<Cursor<S, P>, E> {
    if e.seqNo <= c.lastSeq then Success(c)
    else if At(c.pending, e.seqNo).Some? then Success(c)
    else if e.seqNo > c.lastSeq + 1 then Success(c.(pending := Enqueue(c.pending, e)))
    else
      match ApplyAtCursor(apply, c, e)
      case Failure(error) => Failure(error)
      case Success(applied) => Drain(apply, applied)
  }

  /** `reduceRunEvents`: the first error ends the fold. */
  function ReceiveAll<S, P, E>(apply: (S, Event<P>) -> Result<S, E>, c: Cursor<S, P>, es: seq<Event<P>>): Result<Cursor<S, P>, E>
    decreases |es|
  {
    if es == [] then Success(c)
    else
      match Receive(apply, c, es[0])
      case Failure(error) => Failure(error)
      case Success(next) => ReceiveAll(apply, next, es[1..])
  }

  // ---- the reference: apply what is contiguous, in order, from a set of events ----

  /** The events received, by position. */
  type Received<P> = m: map<nat, Event<P>> | forall k :: k in m ==> m[k].seqNo == k

  datatype Settled<S, P> = Settled(view: S, lastSeq: nat, rest: Received<P>)

  function Settle<S, P, E>(apply: (S, Event<P>) -> Result<S, E>, view: S, lastSeq: nat, m: Received<P>): Result<Settled<S, P>, E>
    decreases |m|
  {
    if lastSeq + 1 !in m then Success(Settled(view, lastSeq, m))
    else
      match apply(view, m[lastSeq + 1])
      case Failure(error) => Failure(error)
      case Success(next) => Settle(apply, next, lastSeq + 1, m - {lastSeq + 1})
  }

  /** Strictly ascending positions, all above `lo`. */
  ghost predicate Above<P>(pending: seq<Event<P>>, lo: nat) {
    pending != [] ==> pending[0].seqNo > lo && Above(pending[1..], pending[0].seqNo)
  }

  function Contents<P>(pending: seq<Event<P>>): Received<P> {
    if pending == [] then map[] else Contents(pending[1..])[pending[0].seqNo := pending[0]]
  }

  /** A cursor a fold can be in: what waits is sorted and leaves a gap. */
  ghost predicate WellFormed<S, P>(c: Cursor<S, P>) {
    Above(c.pending, c.lastSeq + 1)
  }

  lemma {:induction false} AboveContents<P>(pending: seq<Event<P>>, lo: nat, k: nat)
    requires Above(pending, lo)
    ensures k in Contents(pending) ==> k > lo
    ensures k in Contents(pending) <==> At(pending, k).Some?
    ensures k in Contents(pending) ==> Contents(pending)[k] == At(pending, k).value
  {
    if pending != [] {
      AboveContents(pending[1..], pending[0].seqNo, k);
    }
  }

  lemma {:induction false} WithoutContents<P>(pending: seq<Event<P>>, lo: nat, k: nat)
    requires Above(pending, lo)
    ensures Above(Without(pending, k), lo) && (k == lo + 1 ==> Above(Without(pending, k), k))
    ensures Contents(Without(pending, k)) == Contents(pending) - {k}
  {
    if pending != [] {
      var head, rest := pending[0], pending[1..];
      WithoutContents(rest, head.seqNo, k);
      AboveContents(rest, head.seqNo, head.seqNo);
      if head.seqNo == k {
        assert Contents(rest) - {k} == Contents(rest);
        AboveWeaken(Without(rest, k), k, lo);
      } else {
        assert Without(pending, k)[1..] == Without(rest, k);
        assert Contents(pending) - {k} == (Contents(rest) - {k})[head.seqNo := head];
      }
    }
  }

  lemma AboveWeaken<P>(pending: seq<Event<P>>, lo: nat, lower: nat)
    requires Above(pending, lo) && lower <= lo
    ensures Above(pending, lower)
  {
  }

  lemma {:induction false} EnqueueContents<P>(pending: seq<Event<P>>, lo: nat, e: Event<P>)
    requires Above(pending, lo) && At(pending, e.seqNo).None? && e.seqNo > lo
    ensures Above(Enqueue(pending, e), lo) && Contents(Enqueue(pending, e)) == Contents(pending)[e.seqNo := e]
  {
    if pending == [] {
      assert [e][1..] == [];
    } else if e.seqNo < pending[0].seqNo {
      assert ([e] + pending)[1..] == pending;
    } else {
      EnqueueContents(pending[1..], pending[0].seqNo, e);
      assert Enqueue(pending, e)[1..] == Enqueue(pending[1..], e);
      assert Contents(Enqueue(pending, e)) == Contents(pending[1..])[e.seqNo := e][pending[0].seqNo := pending[0]];
    }
  }

  lemma SameLowest<P>(p: seq<Event<P>>, q: seq<Event<P>>, lo: nat, hi: nat)
    requires Above(p, lo) && Above(q, hi) && Contents(p) == Contents(q) && p != []
    ensures q != [] && p[0] == q[0]
  {
    assert p[0].seqNo in Contents(q);
    assert q[0].seqNo in Contents(p);
    AboveContents(q[1..], q[0].seqNo, p[0].seqNo);
    AboveContents(p[1..], p[0].seqNo, q[0].seqNo);
    AboveContents(q, hi, p[0].seqNo);
    AboveContents(p, lo, p[0].seqNo);
  }

  /** A sorted queue is determined by its contents. */
  lemma {:induction false} SortedUnique<P>(p: seq<Event<P>>, q: seq<Event<P>>, lo: nat, hi: nat)
    requires Above(p, lo) && Above(q, hi) && Contents(p) == Contents(q)
    ensures p == q
    decreases |p|
  {
    if p == [] {
      assert forall k :: k !in Contents(q);
    } else {
      SameLowest(p, q, lo, hi);
      WithoutContents(p, lo, p[0].seqNo);
      HeadContents(p, lo);
      HeadContents(q, hi);
      SortedUnique(p[1..], q[1..], p[0].seqNo, q[0].seqNo);
      assert p == [p[0]] + p[1..] && q == [q[0]] + q[1..];
    }
  }

  lemma HeadContents<P>(p: seq<Event<P>>, lo: nat)
    requires Above(p, lo) && p != []
    ensures Contents(p[1..]) == Contents(p) - {p[0].seqNo}
  {
    AboveContents(p[1..], p[0].seqNo, p[0].seqNo);
  }

  /** `c` is where the events of `m`, received from `from`, lead. */
  ghost predicate Reaches<S, P, E>(apply: (S, Event<P>) -> Result<S, E>, from: Cursor<S, P>, m: Received<P>, c: Cursor<S, P>) {
    WellFormed(c) && Settle(apply, from.view, from.lastSeq, m) == Success(Settled(c.view, c.lastSeq, Contents(c.pending)))
  }

  lemma {:induction false} DrainSettles<S, P, E>(apply: (S, Event<P>) -> Result<S, E>, c: Cursor<S, P>)
    requires Above(c.pending, c.lastSeq)
    ensures match Drain(apply, c)
            case Failure(error) => Settle(apply, c.view, c.lastSeq, Contents(c.pending)) == Failure(error)
            case Success(d) => Reaches(apply, c, Contents(c.pending), d)
    decreases |c.pending|
  {
    AboveContents(c.pending, c.lastSeq, c.lastSeq + 1);
    var next := At(c.pending, c.lastSeq + 1);
    if next.Some? {
      WithoutContents(c.pending, c.lastSeq, c.lastSeq + 1);
      var applied := ApplyAtCursor(apply, c, next.value);
      if applied.Success? {
        DrainSettles(apply, applied.value);
      }
    } else {
      GapAbove(c.pending, c.lastSeq);
    }
  }

  lemma GapAbove<P>(pending: seq<Event<P>>, lo: nat)
    requires Above(pending, lo) && At(pending, lo + 1).None?
    ensures Above(pending, lo + 1)
  {
  }

  /** Receiving one more event extends what has been settled, and never disturbs it. */
  lemma {:induction false} SettleExtends<S, P, E>(apply: (S, Event<P>) -> Result<S, E>, view: S, lastSeq: nat, m: Received<P>, e: Event<P>)
    requires e.seqNo !in m && e.seqNo > lastSeq
    ensures match Settle(apply, view, lastSeq, m)
            case Failure(error) => Settle(apply, view, lastSeq, m[e.seqNo := e]) == Failure(error)
            case Success(s) => s.lastSeq < e.seqNo && e.seqNo !in s.rest
                               && Settle(apply, view, lastSeq, m[e.seqNo := e]) == Settle(apply, s.view, s.lastSeq, s.rest[e.seqNo := e])
    decreases |m|
  {
    if lastSeq + 1 in m {
      var rest := m - {lastSeq + 1};
      assert m[e.seqNo := e] - {lastSeq + 1} == rest[e.seqNo := e];
      var next := apply(view, m[lastSeq + 1]);
      if next.Success? {
        SettleExtends(apply, next.value, lastSeq + 1, rest, e);
      }
    }
  }

  /** Positions already settled are behind the cursor; the rest wait. */
  lemma {:induction false} SettledKeys<S, P, E>(apply: (S, Event<P>) -> Result<S, E>, view: S, lastSeq: nat, m: Received<P>, k: nat)
    requires k in m && Settle(apply, view, lastSeq, m).Success?
    ensures var s := Settle(apply, view, lastSeq, m).value;
            s.lastSeq >= lastSeq && (k <= s.lastSeq || (k in s.rest && s.rest[k] == m[k]))
    decreases |m|
  {
    if lastSeq + 1 in m {
      var next := apply(view, m[lastSeq + 1]);
      if k != lastSeq + 1 {
        SettledKeys(apply, next.value, lastSeq + 1, m - {lastSeq + 1}, k);
      } else {
        SettleAdvances(apply, next.value, lastSeq + 1, m - {lastSeq + 1});
      }
    }
  }

  lemma {:induction false} SettleAdvances<S, P, E>(apply: (S, Event<P>) -> Result<S, E>, view: S, lastSeq: nat, m: Received<P>)
    requires Settle(apply, view, lastSeq, m).Success?
    ensures Settle(apply, view, lastSeq, m).value.lastSeq >= lastSeq
    decreases |m|
  {
    if lastSeq + 1 in m {
      SettleAdvances(apply, apply(view, m[lastSeq + 1]).value, lastSeq + 1, m - {lastSeq + 1});
    }
  }

  /** `m` with the event `e`, when it is news to a fold that began at `from`. */
  function Gain<P>(m: Received<P>, from: nat, e: Event<P>): Received<P> {
    if e.seqNo <= from || e.seqNo in m then m else m[e.seqNo := e]
  }

  /** One received event keeps the fold in step with the reference. */
  lemma ReceiveStep<S, P, E>(apply: (S, Event<P>) -> Result<S, E>, from: Cursor<S, P>, m: Received<P>, c: Cursor<S, P>, e: Event<P>)
    requires Reaches(apply, from, m, c) && from.lastSeq <= c.lastSeq
    requires e.seqNo in m ==> m[e.seqNo] == e
    ensures match Receive(apply, c, e)
            case Failure(error) => Settle(apply, from.view, from.lastSeq, Gain(m, from.lastSeq, e)) == Failure(error)
            case Success(d) => Reaches(apply, from, Gain(m, from.lastSeq, e), d) && from.lastSeq <= d.lastSeq
  {
    if e.seqNo <= from.lastSeq {
    } else if e.seqNo in m {
      SettledKeys(apply, from.view, from.lastSeq, m, e.seqNo);
      AboveContents(c.pending, c.lastSeq + 1, e.seqNo);
    } else {
      SettleExtends(apply, from.view, from.lastSeq, m, e);
      AboveContents(c.pending, c.lastSeq + 1, e.seqNo);
      ReceiveNew(apply, c, e);
    }
  }

  lemma ReceiveNew<S, P, E>(apply: (S, Event<P>) -> Result<S, E>, c: Cursor<S, P>, e: Event<P>)
    requires WellFormed(c) && e.seqNo > c.lastSeq && At(c.pending, e.seqNo).None?
    ensures match Receive(apply, c, e)
            case Failure(error) => Settle(apply, c.view, c.lastSeq, Contents(c.pending)[e.seqNo := e]) == Failure(error)
            case Success(d) => Reaches(apply, c, Contents(c.pending)[e.seqNo := e], d) && c.lastSeq <= d.lastSeq
  {
    if e.seqNo > c.lastSeq + 1 {
      EnqueueContents(c.pending, c.lastSeq + 1, e);
      AboveContents(c.pending, c.lastSeq + 1, c.lastSeq + 1);
    } else {
      ReceiveNext(apply, c, e);
    }
  }

  /** The next event takes effect at once; what it leaves waiting is what waited, without it. */
  lemma NextContents<P>(pending: seq<Event<P>>, lastSeq: nat, e: Event<P>)
    requires Above(pending, lastSeq + 1) && e.seqNo == lastSeq + 1
    ensures Above(Without(pending, e.seqNo), lastSeq + 1) && Contents(Without(pending, e.seqNo)) == Contents(pending)[e.seqNo := e] - {e.seqNo}
  {
    var waiting := Contents(pending);
    WithoutContents(pending, lastSeq + 1, e.seqNo);
    AboveContents(pending, lastSeq + 1, e.seqNo);
    assert waiting[e.seqNo := e] - {e.seqNo} == waiting - {e.seqNo};
  }

  lemma SettleStep<S, P, E>(apply: (S, Event<P>) -> Result<S, E>, view: S, lastSeq: nat, m: Received<P>, e: Event<P>)
    requires e.seqNo == lastSeq + 1
    ensures Settle(apply, view, lastSeq, m[e.seqNo := e]) ==
            match apply(view, e) { case Failure(error) => Failure(error) case Success(next) => Settle(apply, next, e.seqNo, m[e.seqNo := e] - {e.seqNo}) }
  {
  }

  lemma ReceiveNext<S, P, E>(apply: (S, Event<P>) -> Result<S, E>, c: Cursor<S, P>, e: Event<P>)
    requires WellFormed(c) && e.seqNo == c.lastSeq + 1
    ensures match Receive(apply, c, e)
            case Failure(error) => Settle(apply, c.view, c.lastSeq, Contents(c.pending)[e.seqNo := e]) == Failure(error)
            case Success(d) => Reaches(apply, c, Contents(c.pending)[e.seqNo := e], d) && c.lastSeq <= d.lastSeq
  {
    NextContents(c.pending, c.lastSeq, e);
    AboveContents(c.pending, c.lastSeq + 1, e.seqNo);
    SettleStep(apply, c.view, c.lastSeq, Contents(c.pending), e);
    var applied := ApplyAtCursor(apply, c, e);
    if applied.Success? {
      var after := applied.value;
      AboveWeaken(after.pending, c.lastSeq + 1, after.lastSeq);
      DrainSettles(apply, after);
      if Drain(apply, after).Success? {
        SettleAdvances(apply, after.view, after.lastSeq, Contents(after.pending));
      }
    }
  }

  function GainAll<P>(m: Received<P>, from: nat, es: seq<Event<P>>): Received<P>
    decreases |es|
  {
    if es == [] then m else GainAll(Gain(m, from, es[0]), from, es[1..])
  }

  /** Events that share a position are one event. */
  ghost predicate Consistent<P>(es: seq<Event<P>>) {
    forall i, j :: 0 <= i < |es| && 0 <= j < |es| && es[i].seqNo == es[j].seqNo ==> es[i] == es[j]
  }

  lemma {:induction false} ReceiveAllSettles<S, P, E>(apply: (S, Event<P>) -> Result<S, E>, from: Cursor<S, P>, m: Received<P>, c: Cursor<S, P>, es: seq<Event<P>>)
    requires Reaches(apply, from, m, c) && from.lastSeq <= c.lastSeq && Consistent(es)
    requires forall i :: 0 <= i < |es| && es[i].seqNo in m ==> m[es[i].seqNo] == es[i]
    ensures match ReceiveAll(apply, c, es)
            case Failure(error) => Settle(apply, from.view, from.lastSeq, GainAll(m, from.lastSeq, es)) == Failure(error)
            case Success(d) => Reaches(apply, from, GainAll(m, from.lastSeq, es), d)
    decreases |es|
  {
    if es != [] {
      ReceiveStep(apply, from, m, c, es[0]);
      var next := Receive(apply, c, es[0]);
      var gained := Gain(m, from.lastSeq, es[0]);
      match next {
        case Failure(error) =>
          FailureStays(apply, from, gained, error, es[1..]);
        case Success(d) =>
          ReceiveAllSettles(apply, from, gained, d, es[1..]);
      }
    }
  }

  lemma {:induction false} FailureStays<S, P, E>(apply: (S, Event<P>) -> Result<S, E>, from: Cursor<S, P>, m: Received<P>, error: E, es: seq<Event<P>>)
    requires Settle(apply, from.view, from.lastSeq, m) == Failure(error)
    ensures Settle(apply, from.view, from.lastSeq, GainAll(m, from.lastSeq, es)) == Failure(error)
    decreases |es|
  {
    if es != [] {
      if es[0].seqNo > from.lastSeq && es[0].seqNo !in m {
        SettleExtends(apply, from.view, from.lastSeq, m, es[0]);
      }
      FailureStays(apply, from, Gain(m, from.lastSeq, es[0]), error, es[1..]);
    }
  }

  lemma {:induction false} GainAllContents<P>(m: Received<P>, from: nat, es: seq<Event<P>>)
    requires Consistent(es) && forall i :: 0 <= i < |es| && es[i].seqNo in m ==> m[es[i].seqNo] == es[i]
    ensures forall k :: k in GainAll(m, from, es) <==> k in m || (k > from && exists i :: 0 <= i < |es| && es[i].seqNo == k)
    ensures forall k :: k in GainAll(m, from, es) ==> GainAll(m, from, es)[k] == (if k in m then m[k] else GainAll(m, from, es)[k])
    ensures forall i :: 0 <= i < |es| && es[i].seqNo > from ==> GainAll(m, from, es)[es[i].seqNo] == es[i]
    decreases |es|
  {
    if es != [] {
      var gained := Gain(m, from, es[0]);
      GainAllContents(gained, from, es[1..]);
      var all := GainAll(m, from, es);
      forall k | k in m || (k > from && exists i :: 0 <= i < |es| && es[i].seqNo == k)
        ensures k in all
      {
        if k !in gained {
          var i :| 0 <= i < |es| && es[i].seqNo == k;
          assert es[1..][i - 1].seqNo == k;
        }
      }
      forall k | k in all
        ensures k in m || (k > from && exists i :: 0 <= i < |es| && es[i].seqNo == k)
      {
        if k !in m {
          if k in gained {
            assert es[0].seqNo == k;
          } else {
            var i :| 0 <= i < |es[1..]| && es[1..][i].seqNo == k;
            assert es[i + 1].seqNo == k;
          }
        }
      }
      forall i | 0 <= i < |es| && es[i].seqNo > from
        ensures all[es[i].seqNo] == es[i]
      {
        if i > 0 {
          assert es[1..][i - 1] == es[i];
        } else {
          assert gained[es[0].seqNo] == es[0];
          GainAllKeeps(gained, from, es[1..], es[0].seqNo);
        }
      }
      forall k | k in m
        ensures all[k] == m[k]
      {
        GainAllKeeps(m, from, es, k);
      }
    }
  }

  lemma {:induction false} GainAllKeeps<P>(m: Received<P>, from: nat, es: seq<Event<P>>, k: nat)
    requires k in m
    ensures k in GainAll(m, from, es) && GainAll(m, from, es)[k] == m[k]
    decreases |es|
  {
    if es != [] {
      GainAllKeeps(Gain(m, from, es[0]), from, es[1..], k);
    }
  }

  /** The fold does not see arrival order or repetition: from any well-formed cursor, two
      deliveries of the same events end in the same snapshot or the same error. */
  lemma ArrivalOrderIrrelevant<S, P, E>(apply: (S, Event<P>) -> Result<S, E>, from: Cursor<S, P>, es: seq<Event<P>>, fs: seq<Event<P>>)
    requires WellFormed(from)
    requires Consistent(from.pending + es + fs)
    requires forall e :: e in es <==> e in fs
    ensures ReceiveAll(apply, from, es) == ReceiveAll(apply, from, fs)
  {
    var m := Contents(from.pending);
    PartConsistent(from.pending, from.lastSeq + 1, es, fs);
    AboveContents(from.pending, from.lastSeq + 1, from.lastSeq + 1);
    ReceiveAllSettles(apply, from, m, from, es);
    ReceiveAllSettles(apply, from, m, from, fs);
    GainAllContents(m, from.lastSeq, es);
    GainAllContents(m, from.lastSeq, fs);
    SameGain(m, from.lastSeq, es, fs);
    var r, q := ReceiveAll(apply, from, es), ReceiveAll(apply, from, fs);
    if r.Success? && q.Success? {
      SortedUnique(r.value.pending, q.value.pending, r.value.lastSeq + 1, q.value.lastSeq + 1);
    }
  }

  lemma {:induction false} AtMember<P>(pending: seq<Event<P>>, k: nat)
    ensures At(pending, k).Some? ==> At(pending, k).value in pending
  {
    if pending != [] {
      AtMember(pending[1..], k);
    }
  }

  lemma PartConsistent<P>(pending: seq<Event<P>>, lo: nat, es: seq<Event<P>>, fs: seq<Event<P>>)
    requires Above(pending, lo) && Consistent(pending + es + fs)
    ensures Consistent(es) && Consistent(fs)
    ensures forall i :: 0 <= i < |es| && es[i].seqNo in Contents(pending) ==> Contents(pending)[es[i].seqNo] == es[i]
    ensures forall i :: 0 <= i < |fs| && fs[i].seqNo in Contents(pending) ==> Contents(pending)[fs[i].seqNo] == fs[i]
  {
    var all := pending + es + fs;
    assert forall i :: 0 <= i < |es| ==> es[i] == all[|pending| + i];
    assert forall i :: 0 <= i < |fs| ==> fs[i] == all[|pending| + |es| + i];
    forall x, y | x in all && y in all && x.seqNo == y.seqNo
      ensures x == y
    {
      var i :| 0 <= i < |all| && all[i] == x;
      var j :| 0 <= j < |all| && all[j] == y;
    }
    forall x | (x in es || x in fs) && x.seqNo in Contents(pending)
      ensures Contents(pending)[x.seqNo] == x
    {
      AboveContents(pending, lo, x.seqNo);
      AtMember(pending, x.seqNo);
    }
  }

  lemma SameGain<P>(m: Received<P>, from: nat, es: seq<Event<P>>, fs: seq<Event<P>>)
    requires Consistent(es) && Consistent(fs) && forall e :: e in es <==> e in fs
    requires forall i :: 0 <= i < |es| && es[i].seqNo in m ==> m[es[i].seqNo] == es[i]
    requires forall i :: 0 <= i < |fs| && fs[i].seqNo in m ==> m[fs[i].seqNo] == fs[i]
    ensures GainAll(m, from, es) == GainAll(m, from, fs)
  {
    GainAllContents(m, from, es);
    GainAllContents(m, from, fs);
    var a, b := GainAll(m, from, es), GainAll(m, from, fs);
    forall k
      ensures k in a <==> k in b
      ensures k in a ==> a[k] == b[k]
    {
      if k in a && k !in m {
        var i :| 0 <= i < |es| && es[i].seqNo == k;
        assert es[i] in fs;
        var j :| 0 <= j < |fs| && fs[j] == es[i];
        assert a[es[i].seqNo] == es[i] && b[fs[j].seqNo] == fs[j];
      }
      if k in b && k !in m {
        var j :| 0 <= j < |fs| && fs[j].seqNo == k;
        assert fs[j] in es;
        var i :| 0 <= i < |es| && es[i] == fs[j];
      }
      if k in m {
        GainAllKeeps(m, from, es, k);
        GainAllKeeps(m, from, fs, k);
      }
    }
  }

  /** Consistency is what the law rests on: two different events at one position make the
      first to arrive the one that counts. */
  lemma ConflictingEventsKeepTheFirst<S, P, E>(apply: (S, Event<P>) -> Result<S, E>, view: S, seqNo: nat, e: Event<P>, f: Event<P>)
    requires e.seqNo == f.seqNo == seqNo + 1 && apply(view, e).Success? && apply(view, f).Success?
    ensures ReceiveAll(apply, Cursor(view, seqNo, []), [e, f]) == Success(Cursor(apply(view, e).value, seqNo + 1, []))
    ensures ReceiveAll(apply, Cursor(view, seqNo, []), [f, e]) == Success(Cursor(apply(view, f).value, seqNo + 1, []))
  {
    var c := Cursor(view, seqNo, []);
    forall x, y | x in {e, f} && y in {e, f}
      ensures ReceiveAll(apply, c, [x, y]) == Success(Cursor(apply(view, x).value, seqNo + 1, []))
    {
      var next := Cursor(apply(view, x).value, seqNo + 1, []);
      assert Receive(apply, c, x) == Success(next);
      assert Receive(apply, next, y) == Success(next);
      assert [x, y][1..] == [y] && [y][1..] == [];
      assert ReceiveAll(apply, next, [y]) == ReceiveAll(apply, next, []);
    }
  }

  /** `reduceRunEvents` as the loop it is. */
  method ReduceEvents<S, P, E>(apply: (S, Event<P>) -> Result<S, E>, c: Cursor<S, P>, es: seq<Event<P>>) returns (r: Result<Cursor<S, P>, E>)
    ensures r == ReceiveAll(apply, c, es)
  {
    var current := c;
    for i := 0 to |es|
      invariant ReceiveAll(apply, c, es) == ReceiveAll(apply, current, es[i..])
    {
      assert es[i..][0] == es[i] && es[i..][1..] == es[i + 1..];
      var next := Receive(apply, current, es[i]);
      if next.Failure? {
        return Failure(next.error);
      }
      current := next.value;
    }
    return Success(current);
  }

  // ---- delivery in order ----

  /** Applying events one after another, with no cursor. */
  function Replay<S, P, E>(apply: (S, Event<P>) -> Result<S, E>, view: S, es: seq<Event<P>>): Result<S, E> {
    if es == [] then Success(view)
    else
      match Replay(apply, view, es[..|es| - 1])
      case Failure(error) => Failure(error)
      case Success(next) => apply(next, es[|es| - 1])
  }

  lemma {:induction false} ReceiveAllSnoc<S, P, E>(apply: (S, Event<P>) -> Result<S, E>, c: Cursor<S, P>, es: seq<Event<P>>, e: Event<P>)
    ensures ReceiveAll(apply, c, es + [e]) ==
            match ReceiveAll(apply, c, es) { case Failure(error) => Failure(error) case Success(d) => Receive(apply, d, e) }
    decreases |es|
  {
    if es == [] {
      assert [] + [e] == [e] && [e][1..] == [];
    } else {
      assert (es + [e])[1..] == es[1..] + [e];
      var next := Receive(apply, c, es[0]);
      if next.Success? {
        ReceiveAllSnoc(apply, next.value, es[1..], e);
      }
    }
  }

  /** A stream delivered in order, without gaps, is simply applied event by event. */
  lemma {:induction false} InOrder<S, P, E>(apply: (S, Event<P>) -> Result<S, E>, view: S, lastSeq: nat, es: seq<Event<P>>)
    requires forall i :: 0 <= i < |es| ==> es[i].seqNo == lastSeq + 1 + i
    ensures ReceiveAll(apply, Cursor(view, lastSeq, []), es) ==
            match Replay(apply, view, es) { case Failure(error) => Failure(error) case Success(v) => Success(Cursor(v, lastSeq + |es|, [])) }
    decreases |es|
  {
    if es != [] {
      var init, last := es[..|es| - 1], es[|es| - 1];
      InOrder(apply, view, lastSeq, init);
      ReceiveAllSnoc(apply, Cursor(view, lastSeq, []), init, last);
      assert es == init + [last];
    }
  }
}
