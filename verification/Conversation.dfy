/**
 * The conversation a new run continues, rebuilt from the thread's rows and its event stream
 * (apps/worker/src/run-conversation.ts). A page read is a function of its cursor.
 */
module Conversation {
  import opened ByteStreams
  import opened EventFold
  import opened EventReducer
  import opened Text

  const PAGE_LIMIT := 200
  const MAX_PAGES := 50

  datatype ConversationError = DidNotAdvance | TooLarge | NotReplayable(error: RunEventError) | NoPrompt

  // ---- `readAllPages` ----

  type Pager<T> = int -> seq<T>

  function Prepend<T>(rows: seq<T>, r: Result<seq<T>, ConversationError>): Result<seq<T>, ConversationError> {
    match r
    case Failure(e) => Failure(e)
    case Success(rest) => Success(rows + rest)
  }

  /** The rows of at most `pages` pages read from `after` on. */
  function Pages<T>(read: Pager<T>, position: T -> int, after: int, pages: nat): Result<seq<T>, ConversationError>
    decreases pages
  {
    if pages == 0 then Failure(TooLarge)
    else
      var batch := read(after);
      if |batch| < PAGE_LIMIT then Success(batch)
      else if position(batch[|batch| - 1]) <= after then Failure(DidNotAdvance)
      else Prepend(batch, Pages(read, position, position(batch[|batch| - 1]), pages - 1))
  }

  method ReadAllPages<T>(read: Pager<T>, position: T -> int, firstAfter: int) returns (r: Result<seq<T>, ConversationError>)
    ensures r == Pages(read, position, firstAfter, MAX_PAGES)
  {
    var rows: seq<T> := [];
    var after := firstAfter;
    var page := 0;
    ghost var whole := Pages(read, position, firstAfter, MAX_PAGES);
    PrependNothing(whole);
    while page < MAX_PAGES
      invariant page <= MAX_PAGES
      invariant whole == Prepend(rows, Pages(read, position, after, MAX_PAGES - page))
    {
      var batch := read(after);
      ghost var earlier := rows;
      rows := rows + batch;
      if |batch| < PAGE_LIMIT {
        return Success(rows);
      }
      if position(batch[|batch| - 1]) <= after {
        return Failure(DidNotAdvance);
      }
      after := position(batch[|batch| - 1]);
      page := page + 1;
      PrependTwice(earlier, batch, Pages(read, position, after, MAX_PAGES - page));
    }
    return Failure(TooLarge);
  }

  lemma PrependNothing<T>(r: Result<seq<T>, ConversationError>)
    ensures Prepend([], r) == r
  {
    if r.Success? {
      assert [] + r.value == r.value;
    }
  }

  lemma PrependTwice<T>(a: seq<T>, b: seq<T>, r: Result<seq<T>, ConversationError>)
    ensures Prepend(a, Prepend(b, r)) == Prepend(a + b, r)
  {
    if r.Success? {
      AppendAssociates(a, b, r.value);
    }
  }

  ghost predicate Ascending<T>(rows: seq<T>, position: T -> int, after: int) {
    && (forall i, j :: 0 <= i < j < |rows| ==> position(rows[i]) < position(rows[j]))
    && (forall i :: 0 <= i < |rows| ==> after < position(rows[i]))
  }

  /** The rows past a cursor. */
  function Past<T>(rows: seq<T>, position: T -> int, after: int): seq<T> {
    if rows != [] && position(rows[0]) <= after then Past(rows[1..], position, after) else rows
  }

  /** A pager that honours its cursor: the first page of the rows past it. */
  function Page<T>(rows: seq<T>, position: T -> int, after: int): seq<T> {
    var past := Past(rows, position, after);
    if |past| > PAGE_LIMIT then past[..PAGE_LIMIT] else past
  }

  ghost predicate Honours<T(!new)>(read: Pager<T>, rows: seq<T>, position: T -> int) {
    forall after :: read(after) == Page(rows, position, after)
  }

  lemma {:induction false} PastCut<T>(rows: seq<T>, position: T -> int, after: int, k: nat)
    requires Ascending(rows, position, after) && k <= |rows|
    ensures Past(rows, position, if k == 0 then after else position(rows[k - 1])) == rows[k..]
    decreases k
  {
    if k > 1 {
      assert rows[1..][k - 2] == rows[k - 1] && rows[1..][k - 1..] == rows[k..];
      assert position(rows[0]) < position(rows[k - 1]);
      PastCut(rows[1..], position, position(rows[0]), k - 1);
    } else if k == 1 {
      assert Past(rows[1..], position, position(rows[0])) == rows[1..];
    }
  }

  lemma SliceOn<T>(rows: seq<T>, k: nat, n: nat)
    requires k + n <= |rows|
    ensures rows[k..][..n] == rows[k..k + n] && rows[k..k + n] + rows[k + n..] == rows[k..]
  {
  }

  function CursorAt<T>(rows: seq<T>, position: T -> int, after: int, k: nat): int
    requires k <= |rows|
  {
    if k == 0 then after else position(rows[k - 1])
  }

  lemma PageFrom<T(!new)>(read: Pager<T>, rows: seq<T>, position: T -> int, after: int, k: nat)
    requires Ascending(rows, position, after) && Honours(read, rows, position) && k <= |rows|
    ensures var left := |rows| - k; read(CursorAt(rows, position, after, k)) == rows[k..k + if left > PAGE_LIMIT then PAGE_LIMIT else left]
  {
    PastCut(rows, position, after, k);
    SliceOn(rows, k, if |rows| - k > PAGE_LIMIT then PAGE_LIMIT else |rows| - k);
    assert read(CursorAt(rows, position, after, k)) == Page(rows, position, CursorAt(rows, position, after, k));
  }

  lemma {:induction false} PagesFrom<T(!new)>(read: Pager<T>, rows: seq<T>, position: T -> int, after: int, k: nat, pages: nat)
    requires Ascending(rows, position, after) && Honours(read, rows, position) && k <= |rows|
    ensures Pages(read, position, CursorAt(rows, position, after, k), pages)
            == if |rows| - k < PAGE_LIMIT * pages then Success(rows[k..]) else Failure(TooLarge)
    decreases pages
  {
    if pages > 0 {
      PageFrom(read, rows, position, after, k);
      if |rows| - k >= PAGE_LIMIT {
        PagesFrom(read, rows, position, after, k + PAGE_LIMIT, pages - 1);
        SliceOn(rows, k, PAGE_LIMIT);
      } else {
        assert rows[k..|rows|] == rows[k..];
      }
    }
  }

  /** From a pager that honours its cursor the replay reads every row once, in order, exactly
      when there are fewer than 10,000; otherwise it refuses. */
  lemma ReadsEverythingUnderTheLimit<T(!new)>(read: Pager<T>, rows: seq<T>, position: T -> int, firstAfter: int)
    requires Ascending(rows, position, firstAfter) && Honours(read, rows, position)
    ensures Pages(read, position, firstAfter, MAX_PAGES) == if |rows| < 10_000 then Success(rows) else Failure(TooLarge)
  {
    PagesFrom(read, rows, position, firstAfter, 0, MAX_PAGES);
    assert rows[0..] == rows;
  }

  /** A full page that ends where the last one did, or before, is refused at once. */
  lemma StuckPagerIsRefused<T(!new)>(read: Pager<T>, position: T -> int, firstAfter: int)
    requires |read(firstAfter)| >= 200 && position(read(firstAfter)[|read(firstAfter)| - 1]) <= firstAfter
    ensures Pages(read, position, firstAfter, MAX_PAGES) == Failure(DidNotAdvance)
  {
  }

  // ---- the turns ----

  datatype StoredRow = StoredRow(id: string, runId: Option<string>, role: Role, text: Option<string>, position: int)

  datatype Turn = Turn(id: string, role: Role, text: string)

  datatype Built = Built(history: seq<Turn>, prompt: Turn)

  function RowText(row: StoredRow): string {
    if row.text.Some? then row.text.value else ""
  }

  function Steered(events: seq<RunEvent>): set<string> {
    set e | e in events && e.payload.body.RunSteered? :: e.payload.body.steerId
  }

  function RowsOf(rows: seq<StoredRow>, steered: set<string>, runId: string): (own: seq<StoredRow>)
    ensures forall row :: row in own ==> row.id !in steered && row.runId == Some(runId)
  {
    if rows == [] then []
    else
      var row := rows[|rows| - 1];
      RowsOf(rows[..|rows| - 1], steered, runId) + if row.runId == Some(runId) && row.id !in steered then [row] else []
  }

  /** The non-blank user rows, as turns. */
  function UserTurns(rows: seq<StoredRow>): seq<Turn> {
    if rows == [] then []
    else
      var row := rows[|rows| - 1];
      UserTurns(rows[..|rows| - 1]) + if row.role == User && !Blank(RowText(row)) then [Turn(row.id, User, RowText(row))] else []
  }

  /** The non-blank messages of a run the stream tells, but for those of a seen row. */
  function StreamTurns(messages: seq<MessageSnapshot>, runId: string, seen: set<string>): seq<Turn> {
    if messages == [] then []
    else
      var m := messages[|messages| - 1];
      StreamTurns(messages[..|messages| - 1], runId, seen) +
      if m.runId == runId && m.id !in seen && !Blank(m.text) then [Turn(m.id, m.role, m.text)] else []
  }

  function TurnIds(turns: seq<Turn>): set<string> {
    set t | t in turns :: t.id
  }

  datatype Source = Source(runs: seq<string>, rows: seq<StoredRow>, steered: set<string>, messages: seq<MessageSnapshot>)

  function RowTurns(src: Source, runId: string): seq<Turn> {
    UserTurns(RowsOf(src.rows, src.steered, runId))
  }

  /** The row ids already given a turn once the first `k` runs have been assembled. */
  function SeenAfter(src: Source, k: nat): set<string>
    requires k <= |src.runs|
    decreases k
  {
    if k == 0 then {} else SeenAfter(src, k - 1) + TurnIds(RowTurns(src, src.runs[k - 1]))
  }

  function TurnsAt(src: Source, k: nat): seq<Turn>
    requires k < |src.runs|
  {
    RowTurns(src, src.runs[k]) + StreamTurns(src.messages, src.runs[k], SeenAfter(src, k + 1))
  }

  /** The turns of every run, in run order. */
  function Parts(src: Source): (parts: seq<seq<Turn>>)
    ensures |parts| == |src.runs|
  {
    seq(|src.runs|, k requires 0 <= k < |src.runs| => TurnsAt(src, k))
  }

  /** The map of the first `k` runs to their turns; a run listed again overwrites. */
  function ByRun(runs: seq<string>, parts: seq<seq<Turn>>, k: nat): map<string, seq<Turn>>
    requires k <= |runs| == |parts|
    decreases k
  {
    if k == 0 then map[] else ByRun(runs, parts, k - 1)[runs[k - 1] := parts[k - 1]]
  }

  function Lookup(turns: map<string, seq<Turn>>, runId: string): seq<Turn> {
    if runId in turns then turns[runId] else []
  }

  function FirstUser(turns: seq<Turn>): (at: Option<nat>)
    ensures at.Some? ==> at.value < |turns| && turns[at.value].role == User && forall j :: 0 <= j < at.value ==> turns[j].role != User
    ensures at.None? ==> forall j :: 0 <= j < |turns| ==> turns[j].role != User
  {
    if turns == [] then None
    else
      var earlier := FirstUser(turns[..|turns| - 1]);
      if earlier.Some? then earlier else if turns[|turns| - 1].role == User then Some(|turns| - 1) else None
  }

  function Drop(turns: seq<Turn>, id: string): seq<Turn> {
    if turns == [] then []
    else Drop(turns[..|turns| - 1], id) + if turns[|turns| - 1].id == id then [] else [turns[|turns| - 1]]
  }

  function History(runs: seq<string>, turns: map<string, seq<Turn>>, runId: string, promptId: string): seq<Turn>
    decreases |runs|
  {
    if runs == [] then []
    else
      var run := runs[|runs| - 1];
      History(runs[..|runs| - 1], turns, runId, promptId) + if run == runId then Drop(Lookup(turns, run), promptId) else Lookup(turns, run)
  }

  function Assemble(src: Source, runId: string): Result<Built, ConversationError> {
    var turns := ByRun(src.runs, Parts(src), |src.runs|);
    var current := Lookup(turns, runId);
    var at := FirstUser(current);
    if at.None? then Failure(NoPrompt) else Success(Built(History(src.runs, turns, runId, current[at.value].id), current[at.value]))
  }

  // ---- `buildRunConversation` ----

  function Reversed(s: seq<string>): seq<string> {
    if s == [] then [] else Reversed(s[1..]) + [s[0]]
  }

  ghost predicate Collected(rowsByRun: map<string, seq<StoredRow>>, rows: seq<StoredRow>, steered: set<string>) {
    forall r :: (if r in rowsByRun then rowsByRun[r] else []) == RowsOf(rows, steered, r)
  }

  lemma RowsOfSnoc(rows: seq<StoredRow>, row: StoredRow, steered: set<string>, runId: string)
    ensures RowsOf(rows + [row], steered, runId) == RowsOf(rows, steered, runId) + if row.runId == Some(runId) && row.id !in steered then [row] else []
  {
  }

  method CollectRows(rows: seq<StoredRow>, steered: set<string>) returns (rowsByRun: map<string, seq<StoredRow>>)
    ensures Collected(rowsByRun, rows, steered)
  {
    rowsByRun := map[];
    for i := 0 to |rows|
      invariant Collected(rowsByRun, rows[..i], steered)
    {
      var row := rows[i];
      assert rows[..i + 1] == rows[..i] + [row];
      forall r
        ensures RowsOf(rows[..i + 1], steered, r) == RowsOf(rows[..i], steered, r) + if row.runId == Some(r) && row.id !in steered then [row] else []
      {
        RowsOfSnoc(rows[..i], row, steered, r);
      }
      if row.runId.Some? && row.id !in steered {
        var current := if row.runId.value in rowsByRun then rowsByRun[row.runId.value] else [];
        rowsByRun := rowsByRun[row.runId.value := current + [row]];
      }
    }
    assert rows[..|rows|] == rows;
  }

  lemma TurnIdsSnoc(turns: seq<Turn>, t: Turn)
    ensures TurnIds(turns + [t]) == TurnIds(turns) + {t.id}
  {
  }

  lemma UserTurnsSnoc(rows: seq<StoredRow>, i: nat)
    requires i < |rows|
    ensures UserTurns(rows[..i + 1])
            == UserTurns(rows[..i]) + if rows[i].role == User && !Blank(RowText(rows[i])) then [Turn(rows[i].id, User, RowText(rows[i]))] else []
  {
    assert rows[..i + 1][..i] == rows[..i];
  }

  method AddRowTurns(own: seq<StoredRow>, seenBefore: set<string>) returns (turns: seq<Turn>, seen: set<string>)
    ensures turns == UserTurns(own) && seen == seenBefore + TurnIds(turns)
  {
    turns, seen := [], seenBefore;
    for i := 0 to |own|
      invariant turns == UserTurns(own[..i]) && seen == seenBefore + TurnIds(turns)
    {
      UserTurnsSnoc(own, i);
      if own[i].role == User {
        var turn := Turn(own[i].id, User, RowText(own[i]));
        if !Blank(turn.text) {
          TurnIdsSnoc(turns, turn);
          seen := seen + {turn.id};
          turns := turns + [turn];
        }
      }
    }
    assert own[..|own|] == own;
  }

  method AddStreamTurns(before: seq<Turn>, messages: seq<MessageSnapshot>, runId: string, seen: set<string>) returns (turns: seq<Turn>)
    ensures turns == before + StreamTurns(messages, runId, seen)
  {
    turns := before;
    for i := 0 to |messages|
      invariant turns == before + StreamTurns(messages[..i], runId, seen)
    {
      var m := messages[i];
      StreamTurnsSnoc(messages, i, runId, seen);
      ghost var told := StreamTurns(messages[..i], runId, seen);
      if m.runId == runId && m.id !in seen {
        if !Blank(m.text) {
          AppendAssociates(before, told, [Turn(m.id, m.role, m.text)]);
          turns := turns + [Turn(m.id, m.role, m.text)];
        }
      }
    }
    assert messages[..|messages|] == messages;
  }

  lemma StreamTurnsSnoc(messages: seq<MessageSnapshot>, i: nat, runId: string, seen: set<string>)
    requires i < |messages|
    ensures var m, told := messages[i], StreamTurns(messages[..i], runId, seen);
            StreamTurns(messages[..i + 1], runId, seen) ==
            if m.runId == runId && m.id !in seen && !Blank(m.text) then told + [Turn(m.id, m.role, m.text)] else told
  {
    assert messages[..i + 1][..i] == messages[..i];
  }

  method CollectRun(src: Source, k: nat, rowsByRun: map<string, seq<StoredRow>>, seenBefore: set<string>) returns (turns: seq<Turn>, seen: set<string>)
    requires k < |src.runs| && Collected(rowsByRun, src.rows, src.steered) && seenBefore == SeenAfter(src, k)
    ensures turns == Parts(src)[k] && seen == SeenAfter(src, k + 1)
  {
    var run := src.runs[k];
    turns, seen := AddRowTurns(if run in rowsByRun then rowsByRun[run] else [], seenBefore);
    assert seen == SeenAfter(src, k + 1);
    turns := AddStreamTurns(turns, src.messages, run, seen);
  }

  method CollectTurns(src: Source) returns (turnsByRun: map<string, seq<Turn>>)
    ensures turnsByRun == ByRun(src.runs, Parts(src), |src.runs|)
  {
    var rowsByRun := CollectRows(src.rows, src.steered);
    turnsByRun := map[];
    var seen: set<string> := {};
    ghost var parts := Parts(src);
    for k := 0 to |src.runs|
      invariant turnsByRun == ByRun(src.runs, parts, k) && seen == SeenAfter(src, k)
    {
      var turns;
      turns, seen := CollectRun(src, k, rowsByRun, seen);
      turnsByRun := turnsByRun[src.runs[k] := turns];
    }
  }

  method PushTurns(before: seq<Turn>, own: seq<Turn>, current: bool, promptId: string) returns (history: seq<Turn>)
    ensures history == before + if current then Drop(own, promptId) else own
  {
    history := before;
    for i := 0 to |own|
      invariant history == before + if current then Drop(own[..i], promptId) else own[..i]
    {
      ghost var kept := if current then Drop(own[..i], promptId) else own[..i];
      KeptSnoc(own, i, current, promptId);
      if !current || own[i].id != promptId {
        AppendAssociates(before, kept, [own[i]]);
        history := history + [own[i]];
      }
    }
    assert own[..|own|] == own;
  }

  lemma KeptSnoc(own: seq<Turn>, i: nat, current: bool, promptId: string)
    requires i < |own|
    ensures var kept := if current then Drop(own[..i], promptId) else own[..i];
            (if current then Drop(own[..i + 1], promptId) else own[..i + 1]) == if !current || own[i].id != promptId then kept + [own[i]] else kept
  {
    assert own[..i + 1][..i] == own[..i] && own[..i + 1] == own[..i] + [own[i]];
  }

  method CollectHistory(runs: seq<string>, turns: map<string, seq<Turn>>, runId: string, promptId: string) returns (history: seq<Turn>)
    ensures history == History(runs, turns, runId, promptId)
  {
    history := [];
    for k := 0 to |runs|
      invariant history == History(runs[..k], turns, runId, promptId)
    {
      history := PushTurns(history, Lookup(turns, runs[k]), runs[k] == runId, promptId);
      assert runs[..k + 1][..k] == runs[..k];
    }
    assert runs[..|runs|] == runs;
  }

  method FindSteered(events: seq<RunEvent>) returns (steered: set<string>)
    ensures steered == Steered(events)
  {
    steered := {};
    for i := 0 to |events|
      invariant steered == Steered(events[..i])
    {
      assert events[..i + 1] == events[..i] + [events[i]];
      if events[i].payload.body.RunSteered? {
        steered := steered + {events[i].payload.body.steerId};
      }
    }
    assert events[..|events|] == events;
  }

  function Wires(events: seq<RunEvent>): seq<Wire> {
    seq(|events|, i requires 0 <= i < |events| => Parsed(events[i]))
  }

  /** The whole replay, as a function of what the reads answer. */
  function Conversation(listed: seq<string>, rows: Pager<StoredRow>, events: Pager<RunEvent>, threadId: string, runId: string): Result<Built, ConversationError> {
    match Pages(rows, (row: StoredRow) => row.position, -1, MAX_PAGES)
    case Failure(e) => Failure(e)
    case Success(allRows) =>
      match Pages(events, (e: RunEvent) => e.seqNo, 0, MAX_PAGES)
      case Failure(e) => Failure(e)
      case Success(allEvents) =>
        match ReduceRunEvents(CreateThreadSnapshot(threadId, 0), Wires(allEvents))
        case Failure(error) => Failure(NotReplayable(error))
        case Success(snapshot) => Assemble(Source(Reversed(listed), allRows, Steered(allEvents), snapshot.cursor.view.messages), runId)
  }

  method BuildRunConversation(listed: seq<string>, rows: Pager<StoredRow>, events: Pager<RunEvent>, threadId: string, runId: string)
    returns (r: Result<Built, ConversationError>)
    ensures r == Conversation(listed, rows, events, threadId, runId)
  {
    var readRows := ReadAllPages(rows, (row: StoredRow) => row.position, -1);
    if readRows.Failure? {
      return Failure(readRows.error);
    }
    var readEvents := ReadAllPages(events, (e: RunEvent) => e.seqNo, 0);
    if readEvents.Failure? {
      return Failure(readEvents.error);
    }
    var replayed := ReduceRunEvents(CreateThreadSnapshot(threadId, 0), Wires(readEvents.value));
    if replayed.Failure? {
      return Failure(NotReplayable(replayed.error));
    }
    var steered := FindSteered(readEvents.value);
    var src := Source(Reversed(listed), readRows.value, steered, replayed.value.cursor.view.messages);
    var turnsByRun := CollectTurns(src);
    var current := Lookup(turnsByRun, runId);
    var promptIndex := FirstUser(current);
    if promptIndex.None? {
      return Failure(NoPrompt);
    }
    var prompt := current[promptIndex.value];
    var history := CollectHistory(src.runs, turnsByRun, runId, prompt.id);
    return Success(Built(history, prompt));
  }

  // ---- what the replay promises ----

  ghost predicate DistinctRuns(runs: seq<string>) {
    forall i, j :: 0 <= i < j < |runs| ==> runs[i] != runs[j]
  }

  lemma {:induction false} ByRunHolds(runs: seq<string>, parts: seq<seq<Turn>>, n: nat, k: nat)
    requires DistinctRuns(runs) && k < n <= |runs| == |parts|
    ensures Lookup(ByRun(runs, parts, n), runs[k]) == parts[k]
    decreases n
  {
    if k < n - 1 {
      ByRunHolds(runs, parts, n - 1, k);
    }
  }

  /** The parts `[lo, hi)`, one after the other. */
  function Joined(parts: seq<seq<Turn>>, lo: nat, hi: nat): seq<Turn>
    requires lo <= hi <= |parts|
    decreases hi
  {
    if lo == hi then [] else Joined(parts, lo, hi - 1) + parts[hi - 1]
  }

  /** All the turns of all the runs, in run order. */
  function AllTurns(src: Source): seq<Turn> {
    Joined(Parts(src), 0, |src.runs|)
  }

  lemma {:induction false} JoinedSplit(parts: seq<seq<Turn>>, lo: nat, mid: nat, hi: nat)
    requires lo <= mid <= hi <= |parts|
    ensures Joined(parts, lo, hi) == Joined(parts, lo, mid) + Joined(parts, mid, hi)
    decreases hi
  {
    if mid == hi {
      assert Joined(parts, lo, mid) + [] == Joined(parts, lo, mid);
    } else {
      JoinedSplit(parts, lo, mid, hi - 1);
      AppendAssociates(Joined(parts, lo, mid), Joined(parts, mid, hi - 1), parts[hi - 1]);
    }
  }

  ghost predicate Tells(runs: seq<string>, turns: map<string, seq<Turn>>, parts: seq<seq<Turn>>) {
    |runs| == |parts| && forall k :: 0 <= k < |runs| ==> Lookup(turns, runs[k]) == parts[k]
  }

  /** The history of the runs before the current one is all their turns. */
  lemma {:induction false} HistoryBefore(runs: seq<string>, turns: map<string, seq<Turn>>, parts: seq<seq<Turn>>, k: nat, c: nat, id: string)
    requires DistinctRuns(runs) && Tells(runs, turns, parts) && k <= c < |runs|
    ensures History(runs[..k], turns, runs[c], id) == Joined(parts, 0, k)
    decreases k
  {
    if k > 0 {
      HistoryBefore(runs, turns, parts, k - 1, c, id);
      assert runs[..k][..k - 1] == runs[..k - 1];
    }
  }

  /** From the current run on, all the turns but those with the prompt's id. */
  lemma {:induction false} HistoryFrom(runs: seq<string>, turns: map<string, seq<Turn>>, parts: seq<seq<Turn>>, k: nat, c: nat, id: string)
    requires DistinctRuns(runs) && Tells(runs, turns, parts) && c < k <= |runs|
    ensures History(runs[..k], turns, runs[c], id) == Joined(parts, 0, c) + Drop(parts[c], id) + Joined(parts, c + 1, k)
    decreases k
  {
    assert runs[..k][..k - 1] == runs[..k - 1];
    var upTo := Joined(parts, 0, c) + Drop(parts[c], id);
    if k == c + 1 {
      HistoryBefore(runs, turns, parts, c, c, id);
      assert upTo + [] == upTo;
    } else {
      HistoryFrom(runs, turns, parts, k - 1, c, id);
      AppendAssociates(upTo, Joined(parts, c + 1, k - 1), parts[k - 1]);
    }
  }

  ghost predicate UniqueAt(turns: seq<Turn>, at: nat)
    requires at < |turns|
  {
    forall j :: 0 <= j < |turns| && j != at ==> turns[j].id != turns[at].id
  }

  lemma {:induction false} DropNone(turns: seq<Turn>, id: string)
    ensures |Drop(turns, id)| <= |turns|
    ensures id !in TurnIds(turns) <==> Drop(turns, id) == turns
    ensures id !in TurnIds(turns) <==> |Drop(turns, id)| == |turns|
    decreases |turns|
  {
    if turns != [] {
      var init, last := turns[..|turns| - 1], turns[|turns| - 1];
      DropNone(init, id);
      assert turns == init + [last];
      assert TurnIds(turns) == TurnIds(init) + {last.id};
    }
  }

  lemma {:induction false} DropAppend(a: seq<Turn>, b: seq<Turn>, id: string)
    ensures Drop(a + b, id) == Drop(a, id) + Drop(b, id)
    decreases |b|
  {
    if b == [] {
      assert a + b == a;
    } else {
      var all := a + b;
      assert all[..|all| - 1] == a + b[..|b| - 1];
      DropAppend(a, b[..|b| - 1], id);
    }
  }

  lemma DropBothSides(a: seq<Turn>, t: Turn, b: seq<Turn>)
    ensures Drop(a + [t] + b, t.id) == Drop(a, t.id) + Drop(b, t.id)
  {
    DropAppend(a + [t], b, t.id);
    DropAppend(a, [t], t.id);
    assert [t][..0] == [] && Drop([t], t.id) == [];
    assert Drop(a, t.id) + [] == Drop(a, t.id);
  }

  lemma DropAround(turns: seq<Turn>, at: nat)
    requires at < |turns|
    ensures UniqueAt(turns, at) ==> Drop(turns, turns[at].id) == turns[..at] + turns[at + 1..]
    ensures UniqueAt(turns, at) <==> |Drop(turns, turns[at].id)| == |turns| - 1
  {
    var id, a, b := turns[at].id, turns[..at], turns[at + 1..];
    assert turns == a + [turns[at]] + b;
    DropBothSides(a, turns[at], b);
    DropNone(a, id);
    DropNone(b, id);
    UniqueMeans(turns, at);
  }

  lemma UniqueMeans(turns: seq<Turn>, at: nat)
    requires at < |turns|
    ensures UniqueAt(turns, at) <==> turns[at].id !in TurnIds(turns[..at]) && turns[at].id !in TurnIds(turns[at + 1..])
  {
  }

  lemma CurrentTurns(src: Source, c: nat)
    requires DistinctRuns(src.runs) && c < |src.runs|
    ensures var parts := Parts(src);
            Assemble(src, src.runs[c]) ==
            if FirstUser(parts[c]).None? then Failure(NoPrompt)
            else var prompt := parts[c][FirstUser(parts[c]).value];
                 Success(Built(Joined(parts, 0, c) + Drop(parts[c], prompt.id) + Joined(parts, c + 1, |parts|), prompt))
  {
    var n, runs, parts := |src.runs|, src.runs, Parts(src);
    var turns := ByRun(runs, parts, n);
    forall k | 0 <= k < n
      ensures Lookup(turns, runs[k]) == parts[k]
    {
      ByRunHolds(runs, parts, n, k);
    }
    if FirstUser(parts[c]).Some? {
      HistoryFrom(runs, turns, parts, n, c, parts[c][FirstUser(parts[c]).value].id);
      assert runs[..n] == runs;
    }
  }

  lemma Regroup<T>(a: seq<T>, b: seq<T>, c: seq<T>, d: seq<T>, e: seq<T>)
    ensures a + (b + c + d) + e == (a + b) + c + (d + e)
    ensures a + (b + d) + e == (a + b) + (d + e)
  {
  }

  lemma EverythingAround(parts: seq<seq<Turn>>, c: nat, at: nat)
    requires c < |parts| && at < |parts[c]|
    ensures Joined(parts, 0, |parts|)
            == (Joined(parts, 0, c) + parts[c][..at]) + [parts[c][at]] + (parts[c][at + 1..] + Joined(parts, c + 1, |parts|))
  {
    var own := parts[c];
    JoinedSplit(parts, 0, c + 1, |parts|);
    assert own == own[..at] + [own[at]] + own[at + 1..];
    Regroup(Joined(parts, 0, c), own[..at], [own[at]], own[at + 1..], Joined(parts, c + 1, |parts|));
  }

  /** History and prompt together are the turns of the listed runs, each once and in run order:
      the prompt is the current run's first user turn, and the history is the rest exactly when
      no other turn of that run carries the prompt's id. */
  lemma HistoryIsEverythingElse(src: Source, c: nat) returns (before: seq<Turn>, after: seq<Turn>)
    requires DistinctRuns(src.runs) && c < |src.runs| && FirstUser(Parts(src)[c]).Some?
    ensures Assemble(src, src.runs[c]).Success?
    ensures var built, own := Assemble(src, src.runs[c]).value, Parts(src)[c];
            var at := FirstUser(own).value;
            && AllTurns(src) == before + [built.prompt] + after
            && before == Joined(Parts(src), 0, c) + own[..at]
            && (UniqueAt(own, at) ==> built.history == before + after)
            && (UniqueAt(own, at) <==> |built.history| + 1 == |AllTurns(src)|)
  {
    var parts := Parts(src);
    var own := parts[c];
    var at := FirstUser(own).value;
    CurrentTurns(src, c);
    EverythingAround(parts, c, at);
    DropAround(own, at);
    Regroup(Joined(parts, 0, c), own[..at], [], own[at + 1..], Joined(parts, c + 1, |parts|));
    before, after := Joined(parts, 0, c) + own[..at], own[at + 1..] + Joined(parts, c + 1, |parts|);
  }

  // ---- the history against the listing, newest run first ----

  lemma {:induction false} ReversedAt(s: seq<string>, k: nat)
    requires k < |s|
    ensures |Reversed(s)| == |s| && Reversed(s)[|s| - 1 - k] == s[k]
    decreases |s|
  {
    if |s| > 1 {
      ReversedAt(s[1..], if k > 0 then k - 1 else 0);
    }
  }

  lemma ReversedTurns(listed: seq<string>)
    requires listed != []
    ensures |Reversed(listed)| == |listed| && forall k :: 0 <= k < |listed| ==> Reversed(listed)[k] == listed[|listed| - 1 - k]
  {
    forall k | 0 <= k < |listed|
      ensures |Reversed(listed)| == |listed| && Reversed(listed)[k] == listed[|listed| - 1 - k]
    {
      ReversedAt(listed, |listed| - 1 - k);
    }
  }

  lemma ReversedIsDistinct(listed: seq<string>)
    requires DistinctRuns(listed) && listed != []
    ensures DistinctRuns(Reversed(listed))
  {
    ReversedTurns(listed);
  }

  /** The ids of the rows that have a turn in the run listed at `i` or in one listed after it. */
  ghost function SeenFrom(listed: seq<string>, src: Source, i: nat): set<string>
    requires i <= |listed|
    decreases |listed| - i
  {
    if i == |listed| then {} else SeenFrom(listed, src, i + 1) + TurnIds(RowTurns(src, listed[i]))
  }

  /** What the run listed at `i` has to say: its user rows, then what the stream tells of it beyond
      the rows of this run and of older ones. */
  ghost function Said(listed: seq<string>, src: Source, i: nat): seq<Turn>
    requires i < |listed|
  {
    RowTurns(src, listed[i]) + StreamTurns(src.messages, listed[i], SeenFrom(listed, src, i))
  }

  /** And what of it the history keeps, when the run listed at `c` is answered. */
  ghost function Kept(listed: seq<string>, src: Source, c: nat, promptId: string, i: nat): seq<Turn>
    requires i < |listed|
  {
    if i == c then Drop(Said(listed, src, i), promptId) else Said(listed, src, i)
  }

  lemma SeenStep(src: Source, k: nat, run: string, seen: set<string>)
    requires 0 < k <= |src.runs| && src.runs[k - 1] == run && SeenAfter(src, k - 1) == seen
    ensures SeenAfter(src, k) == seen + TurnIds(RowTurns(src, run))
  {
  }

  lemma SeenFromStep(listed: seq<string>, src: Source, i: nat, seen: set<string>)
    requires i < |listed| && SeenFrom(listed, src, i + 1) == seen
    ensures SeenFrom(listed, src, i) == seen + TurnIds(RowTurns(src, listed[i]))
  {
  }

  /** The ids seen up to a run, over runs that are listed the other way round. */
  lemma {:induction false} SeenAlike(listed: seq<string>, src: Source, i: nat, k: nat) returns (seen: set<string>)
    requires i + k == |listed| == |src.runs| && Reversed(listed) == src.runs
    ensures SeenAfter(src, k) == seen && SeenFrom(listed, src, i) == seen
    decreases k
  {
    if k == 0 {
      seen := {};
    } else {
      assert src.runs[k - 1] == listed[i] by {
        assert k - 1 == |listed| - 1 - i;
        ReversedAt(listed, i);
      }
      var older := SeenAlike(listed, src, i + 1, k - 1);
      SeenStep(src, k, listed[i], older);
      SeenFromStep(listed, src, i, older);
      seen := SeenAfter(src, k);
    }
  }

  lemma TurnsOf(src: Source, k: nat, run: string, seen: set<string>)
    requires k < |src.runs| && src.runs[k] == run && SeenAfter(src, k + 1) == seen
    ensures Parts(src)[k] == RowTurns(src, run) + StreamTurns(src.messages, run, seen)
  {
  }

  lemma SaidAlike(listed: seq<string>, src: Source, i: nat, k: nat)
    requires src.runs == Reversed(listed) && i + k + 1 == |listed|
    ensures |src.runs| == |listed| && Parts(src)[k] == Said(listed, src, i)
  {
    assert k == |listed| - 1 - i;
    ReversedAt(listed, i);
    var seen := SeenAlike(listed, src, i, k + 1);
    TurnsOf(src, k, listed[i], seen);
  }

  lemma {:induction false} JoinedUntouched(parts: seq<seq<Turn>>, changed: seq<seq<Turn>>, lo: nat, hi: nat)
    requires lo <= hi <= |parts| == |changed| && forall k :: lo <= k < hi ==> parts[k] == changed[k]
    ensures Joined(parts, lo, hi) == Joined(changed, lo, hi)
    decreases hi
  {
    if lo < hi {
      JoinedUntouched(parts, changed, lo, hi - 1);
    }
  }

  /** One part replaced. */
  lemma JoinedChanged(parts: seq<seq<Turn>>, c: nat, part: seq<Turn>)
    requires c < |parts|
    ensures Joined(parts, 0, c) + part + Joined(parts, c + 1, |parts|) == Joined(parts[c := part], 0, |parts|)
  {
    var changed := parts[c := part];
    JoinedUntouched(parts, changed, 0, c);
    JoinedUntouched(parts, changed, c + 1, |parts|);
    JoinedSplit(changed, 0, c + 1, |parts|);
  }

  /** The same for every listed run. */
  ghost function AllKept(listed: seq<string>, src: Source, c: nat, promptId: string): (parts: seq<seq<Turn>>)
    ensures |parts| == |listed|
  {
    seq(|listed|, i requires 0 <= i < |listed| => Kept(listed, src, c, promptId, i))
  }

  /** The parts from `i` on, the last first. */
  ghost function LastFirst(parts: seq<seq<Turn>>, i: nat): seq<Turn>
    requires i <= |parts|
    decreases |parts| - i
  {
    if i == |parts| then [] else LastFirst(parts, i + 1) + parts[i]
  }

  /** The prompt is the first user turn of the run. */
  ghost predicate Prompts(said: seq<Turn>, prompt: Turn) {
    exists k :: 0 <= k < |said| && said[k] == prompt && prompt.role == User && forall j :: 0 <= j < k ==> said[j].role != User
  }

  /** A built conversation is the listed runs from the last listed to the first, each whole but for
      the prompt, which is the first user turn of the run that is answered. */
  lemma OldestRunFirst(listed: seq<string>, rows: Pager<StoredRow>, events: Pager<RunEvent>, threadId: string, c: nat) returns (src: Source)
    requires DistinctRuns(listed) && c < |listed| && Conversation(listed, rows, events, threadId, listed[c]).Success?
    ensures Pages(rows, (row: StoredRow) => row.position, -1, MAX_PAGES) == Success(src.rows)
    ensures var built := Conversation(listed, rows, events, threadId, listed[c]).value;
            Prompts(Said(listed, src, c), built.prompt) && built.history == LastFirst(AllKept(listed, src, c, built.prompt.id), 0)
  {
    src := SourceOf(listed, rows, events, threadId, listed[c]);
    var d := WhereTurned(listed, src, c);
    HistoryParts(listed, src, c, d);
  }

  /** So the turns of a run listed at `i` stand after those of every run listed later, and before
      those of every run listed earlier. */
  lemma {:induction false} RunStandsBetween(parts: seq<seq<Turn>>, i: nat) returns (newer: seq<Turn>)
    requires i < |parts|
    ensures LastFirst(parts, 0) == LastFirst(parts, i + 1) + parts[i] + newer
    decreases i
  {
    if i == 0 {
      newer := [];
      assert LastFirst(parts, 0) + [] == LastFirst(parts, 0);
    } else {
      var later := RunStandsBetween(parts, i - 1);
      newer := parts[i - 1] + later;
      AppendAssociates(LastFirst(parts, i), parts[i - 1], later);
    }
  }

  /** What the reads come to. */
  lemma SourceOf(listed: seq<string>, rows: Pager<StoredRow>, events: Pager<RunEvent>, threadId: string, runId: string) returns (src: Source)
    requires Conversation(listed, rows, events, threadId, runId).Success?
    ensures src.runs == Reversed(listed) && Conversation(listed, rows, events, threadId, runId) == Assemble(src, runId)
    ensures Pages(rows, (row: StoredRow) => row.position, -1, MAX_PAGES) == Success(src.rows)
  {
    var allRows := Pages(rows, (row: StoredRow) => row.position, -1, MAX_PAGES).value;
    var allEvents := Pages(events, (e: RunEvent) => e.seqNo, 0, MAX_PAGES).value;
    var snapshot := ReduceRunEvents(CreateThreadSnapshot(threadId, 0), Wires(allEvents)).value;
    src := Source(Reversed(listed), allRows, Steered(allEvents), snapshot.cursor.view.messages);
  }

  /** The same parts, the last first. */
  ghost predicate Turned(parts: seq<seq<Turn>>, turned: seq<seq<Turn>>) {
    |turned| == |parts| && forall i :: 0 <= i < |turned| ==> turned[i] == parts[|parts| - 1 - i]
  }

  /** Parts in run order, joined, are the listed ones with the last first. */
  lemma {:induction false} JoinedLastFirst(parts: seq<seq<Turn>>, turned: seq<seq<Turn>>, k: nat)
    requires k <= |parts| && Turned(parts, turned)
    ensures Joined(turned, 0, k) == LastFirst(parts, |parts| - k)
    decreases k
  {
    if k > 0 {
      JoinedLastFirst(parts, turned, k - 1);
    }
  }

  /** The runs' turns as they are listed. */
  ghost function AllSaid(listed: seq<string>, src: Source): (parts: seq<seq<Turn>>)
    ensures |parts| == |listed|
  {
    seq(|listed|, i requires 0 <= i < |listed| => Said(listed, src, i))
  }

  lemma PartTurned(listed: seq<string>, src: Source, i: nat, k: nat)
    requires src.runs == Reversed(listed) && i + k + 1 == |listed|
    ensures |Parts(src)| == |listed| && Parts(src)[i] == AllSaid(listed, src)[k]
  {
    SaidAlike(listed, src, k, i);
  }

  lemma PartsTurned(listed: seq<string>, src: Source)
    requires src.runs == Reversed(listed) && listed != []
    ensures Turned(AllSaid(listed, src), Parts(src))
  {
    PartTurned(listed, src, 0, |listed| - 1);
    ghost var parts, said := Parts(src), AllSaid(listed, src);
    forall i | 0 <= i < |listed|
      ensures parts[i] == said[|listed| - 1 - i]
    {
      var k := |listed| - 1 - i;
      PartTurned(listed, src, i, k);
    }
  }

  lemma KeptIsChanged(listed: seq<string>, src: Source, c: nat, promptId: string)
    requires c < |listed|
    ensures AllKept(listed, src, c, promptId) == AllSaid(listed, src)[c := Drop(Said(listed, src, c), promptId)]
  {
  }

  lemma TurnedChanged(parts: seq<seq<Turn>>, turned: seq<seq<Turn>>, c: nat, d: nat, part: seq<Turn>)
    requires c + d + 1 == |parts| && Turned(parts, turned)
    ensures Turned(parts[c := part], turned[d := part])
  {
  }

  /** The history of a run, over parts that are turned. */
  lemma TurnedHistory(parts: seq<seq<Turn>>, turned: seq<seq<Turn>>, c: nat, d: nat, part: seq<Turn>)
    requires c + d + 1 == |parts| && Turned(parts, turned)
    ensures Joined(turned, 0, d) + part + Joined(turned, d + 1, |turned|) == LastFirst(parts[c := part], 0)
  {
    JoinedChanged(turned, d, part);
    TurnedChanged(parts, turned, c, d, part);
    JoinedLastFirst(parts[c := part], turned[d := part], |parts|);
  }

  /** What is assembled for the run at `d`. */
  lemma Assembled(src: Source, d: nat)
    requires DistinctRuns(src.runs) && d < |src.runs| && Assemble(src, src.runs[d]).Success?
    ensures var built, parts := Assemble(src, src.runs[d]).value, Parts(src);
            && Prompts(parts[d], built.prompt)
            && built.history == Joined(parts, 0, d) + Drop(parts[d], built.prompt.id) + Joined(parts, d + 1, |parts|)
  {
    CurrentTurns(src, d);
    assert FirstUser(Parts(src)[d]).Some?;
  }

  lemma KeptHistory(listed: seq<string>, src: Source, c: nat, d: nat, promptId: string)
    requires src.runs == Reversed(listed) && c + d + 1 == |listed|
    ensures var parts := Parts(src);
            && d < |parts|
            && Joined(parts, 0, d) + Drop(parts[d], promptId) + Joined(parts, d + 1, |parts|) == LastFirst(AllKept(listed, src, c, promptId), 0)
  {
    PartsTurned(listed, src);
    PartTurned(listed, src, d, c);
    ghost var said, part := AllSaid(listed, src), Drop(Said(listed, src, c), promptId);
    assert said[c] == Said(listed, src, c);
    KeptIsChanged(listed, src, c, promptId);
    TurnedHistory(said, Parts(src), c, d, part);
  }

  lemma WhereTurned(listed: seq<string>, src: Source, c: nat) returns (d: nat)
    requires DistinctRuns(listed) && c < |listed| && src.runs == Reversed(listed)
    ensures c + d + 1 == |listed| == |src.runs| && src.runs[d] == listed[c] && DistinctRuns(src.runs)
  {
    d := |listed| - 1 - c;
    ReversedAt(listed, c);
    ReversedIsDistinct(listed);
  }

  lemma HistoryParts(listed: seq<string>, src: Source, c: nat, d: nat)
    requires src.runs == Reversed(listed) && c + d + 1 == |listed| == |src.runs|
    requires DistinctRuns(src.runs) && Assemble(src, src.runs[d]).Success?
    ensures var built := Assemble(src, src.runs[d]).value;
            Prompts(Said(listed, src, c), built.prompt) && built.history == LastFirst(AllKept(listed, src, c, built.prompt.id), 0)
  {
    SaidAlike(listed, src, c, d);
    Assembled(src, d);
    KeptHistory(listed, src, c, d, Assemble(src, src.runs[d]).value.prompt.id);
  }

  lemma {:induction false} RowsJoin(a: seq<StoredRow>, b: seq<StoredRow>, steered: set<string>, runId: string)
    ensures RowsOf(a + b, steered, runId) == RowsOf(a, steered, runId) + RowsOf(b, steered, runId)
    decreases |b|
  {
    if b == [] {
      assert a + b == a;
    } else {
      assert (a + b)[..|a + b| - 1] == a + b[..|b| - 1] && (a + b)[|a + b| - 1] == b[|b| - 1];
      RowsJoin(a, b[..|b| - 1], steered, runId);
    }
  }

  lemma {:induction false} UserTurnsJoin(a: seq<StoredRow>, b: seq<StoredRow>)
    ensures UserTurns(a + b) == UserTurns(a) + UserTurns(b)
    decreases |b|
  {
    if b == [] {
      assert a + b == a;
    } else {
      assert (a + b)[..|a + b| - 1] == a + b[..|b| - 1] && (a + b)[|a + b| - 1] == b[|b| - 1];
      UserTurnsJoin(a, b[..|b| - 1]);
    }
  }

  lemma {:induction false} StreamTurnsJoin(a: seq<MessageSnapshot>, b: seq<MessageSnapshot>, runId: string, seen: set<string>)
    ensures StreamTurns(a + b, runId, seen) == StreamTurns(a, runId, seen) + StreamTurns(b, runId, seen)
    decreases |b|
  {
    if b == [] {
      assert a + b == a;
    } else {
      assert (a + b)[..|a + b| - 1] == a + b[..|b| - 1] && (a + b)[|a + b| - 1] == b[|b| - 1];
      StreamTurnsJoin(a, b[..|b| - 1], runId, seen);
    }
  }

  lemma OneUserTurn(row: StoredRow, steered: set<string>, runId: string)
    ensures UserTurns(RowsOf([row], steered, runId)) ==
            if row.runId == Some(runId) && row.id !in steered && row.role == User && row.text.Some? && !Blank(row.text.value)
            then [Turn(row.id, User, row.text.value)] else []
  {
    assert [row][..0] == [] && [] + [row] == [row];
    BlankIsAllSpace("");
  }

  /** Each user row that is not blank and not steered is a turn of its run, where the row stands. */
  lemma RowsKeepTheirOrder(a: seq<StoredRow>, row: StoredRow, b: seq<StoredRow>, steered: set<string>, runId: string)
    ensures UserTurns(RowsOf(a + [row] + b, steered, runId)) ==
            UserTurns(RowsOf(a, steered, runId))
            + (if row.runId == Some(runId) && row.id !in steered && row.role == User && row.text.Some? && !Blank(row.text.value)
               then [Turn(row.id, User, row.text.value)] else [])
            + UserTurns(RowsOf(b, steered, runId))
  {
    RowsJoin(a + [row], b, steered, runId);
    RowsJoin(a, [row], steered, runId);
    UserTurnsJoin(RowsOf(a, steered, runId) + RowsOf([row], steered, runId), RowsOf(b, steered, runId));
    UserTurnsJoin(RowsOf(a, steered, runId), RowsOf([row], steered, runId));
    OneUserTurn(row, steered, runId);
  }

  /** Each message of a run that is not blank and not a row already turned is a turn of it, in its
      own role, where the stream has it. */
  lemma MessagesKeepTheirOrder(a: seq<MessageSnapshot>, m: MessageSnapshot, b: seq<MessageSnapshot>, runId: string, seen: set<string>)
    ensures StreamTurns(a + [m] + b, runId, seen) ==
            StreamTurns(a, runId, seen) + (if m.runId == runId && m.id !in seen && !Blank(m.text) then [Turn(m.id, m.role, m.text)] else [])
            + StreamTurns(b, runId, seen)
  {
    StreamTurnsJoin(a + [m], b, runId, seen);
    StreamTurnsJoin(a, [m], runId, seen);
    OneMessageTurn(m, runId, seen);
  }

  lemma OneMessageTurn(m: MessageSnapshot, runId: string, seen: set<string>)
    ensures StreamTurns([m], runId, seen) == if m.runId == runId && m.id !in seen && !Blank(m.text) then [Turn(m.id, m.role, m.text)] else []
  {
    assert [m][..0] == [];
  }

  // ---- which turns there are ----

  /** Every non-blank user row of a run but the steered ones, then every non-blank message. */
  function WholeRun(src: Source, k: nat): seq<Turn>
    requires k < |src.runs|
  {
    RowTurns(src, src.runs[k]) + StreamTurns(src.messages, src.runs[k], {})
  }

  lemma {:induction false} StreamTurnsKept(messages: seq<MessageSnapshot>, runId: string, seen: set<string>)
    ensures |StreamTurns(messages, runId, seen)| <= |StreamTurns(messages, runId, {})|
    ensures TurnIds(StreamTurns(messages, runId, {})) !! seen ==> StreamTurns(messages, runId, seen) == StreamTurns(messages, runId, {})
    ensures !(TurnIds(StreamTurns(messages, runId, {})) !! seen) ==> |StreamTurns(messages, runId, seen)| < |StreamTurns(messages, runId, {})|
    decreases |messages|
  {
    if messages != [] {
      var init, m := messages[..|messages| - 1], messages[|messages| - 1];
      StreamTurnsKept(init, runId, seen);
      var turns, all := StreamTurns(init, runId, {}), StreamTurns(messages, runId, {});
      if m.runId == runId && !Blank(m.text) {
        assert all == turns + [Turn(m.id, m.role, m.text)];
        assert TurnIds(all) == TurnIds(turns) + {m.id};
      } else {
        assert all == turns;
      }
    }
  }

  /** A run keeps all its turns exactly when none of its messages bears the id of a row turn of
      that run or an earlier one; otherwise the message is taken for that row and left out. */
  lemma RunIsWholeWhen(src: Source, k: nat)
    requires k < |src.runs|
    ensures TurnsAt(src, k) == WholeRun(src, k) <==> TurnIds(StreamTurns(src.messages, src.runs[k], {})) !! SeenAfter(src, k + 1)
  {
    StreamTurnsKept(src.messages, src.runs[k], SeenAfter(src, k + 1));
    assert |TurnsAt(src, k)| == |RowTurns(src, src.runs[k])| + |StreamTurns(src.messages, src.runs[k], SeenAfter(src, k + 1))|;
    assert |WholeRun(src, k)| == |RowTurns(src, src.runs[k])| + |StreamTurns(src.messages, src.runs[k], {})|;
  }

  lemma {:induction false} UserTurnIds(rows: seq<StoredRow>, id: string)
    requires id in TurnIds(UserTurns(rows))
    ensures exists row :: row in rows && row.id == id
    decreases |rows|
  {
    if rows != [] {
      var init, last := rows[..|rows| - 1], rows[|rows| - 1];
      if id in TurnIds(UserTurns(init)) {
        UserTurnIds(init, id);
        var row :| row in init && row.id == id;
        assert row in rows;
      } else {
        assert last in rows && last.id == id;
      }
    }
  }

  /** A steered row never leads its run: a turn with its id stands where the stream put it. */
  lemma SteeredRowsStandInTheStream(src: Source, k: nat, t: Turn)
    requires k < |src.runs| && t in TurnsAt(src, k) && t.id in src.steered
    ensures t in StreamTurns(src.messages, src.runs[k], SeenAfter(src, k + 1))
  {
    if t in RowTurns(src, src.runs[k]) {
      UserTurnIds(RowsOf(src.rows, src.steered, src.runs[k]), t.id);
    }
  }

  const ASKED := StoredRow("m", Some("a"), User, Some("hi"), 0)
  const ANSWERED := MessageSnapshot("m", "b", Assistant, "yes", true)

  lemma AskedIsATurn()
    ensures UserTurns(RowsOf([ASKED], {}, "a")) == [Turn("m", User, "hi")]
  {
  }

  lemma AnsweredIsATurn()
    ensures StreamTurns([ANSWERED], "b", {}) == [Turn("m", Assistant, "yes")]
  {
    assert [ANSWERED][..0] == [];
    BlankIsAllSpace("yes");
    assert "yes"[0] == 'y';
  }

  /** The second run's answer bears the id of the first run's row: it is left out. */
  lemma CollidingAnswerIsDropped()
    ensures var src := Source(["a", "b"], [ASKED], {}, [ANSWERED]); TurnsAt(src, 1) != WholeRun(src, 1)
  {
    var src := Source(["a", "b"], [ASKED], {}, [ANSWERED]);
    AskedIsATurn();
    AnsweredIsATurn();
    assert Turn("m", User, "hi") in RowTurns(src, "a");
    assert SeenAfter(src, 1) == SeenAfter(src, 0) + TurnIds(RowTurns(src, "a"));
    assert SeenAfter(src, 2) == SeenAfter(src, 1) + TurnIds(RowTurns(src, "b"));
    assert "m" in SeenAfter(src, 2);
    assert Turn("m", Assistant, "yes") in StreamTurns([ANSWERED], "b", {});
    assert "m" in TurnIds(StreamTurns([ANSWERED], "b", {}));
    RunIsWholeWhen(src, 1);
  }
}
