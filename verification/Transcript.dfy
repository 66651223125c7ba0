/**
 * The rendered thread: persisted rows merged with the reduced stream, and each run's steps
 * anchored to its messages (apps/web/src/console.ts). What a settled run's card says,
 * `runOutcome`, is a parameter.
 */
module Transcript {
  import opened ByteStreams
  import opened EventReducer

  datatype Row = Row(id: string, runId: Option<string>, role: Role, text: string, createdAt: string, attachments: seq<string>)

  datatype Delivery = Delivered | Sending | NotSent

  datatype Entry =
    | MessageEntry(id: string, role: Role, text: string, createdAt: Option<string>, attachments: seq<string>, streaming: bool, delivery: Delivery)
    | ToolEntry(runId: string, call: ToolCall)
    | CardEntry(run: RunSnapshot, outcome: seq<string>)

  /** A message entry and the run it belongs to. */
  datatype Shown = Shown(entry: Entry, owner: Option<string>)

  type Outcome = RunSnapshot -> seq<string>

  datatype Sends = Sends(pending: set<string>, failed: set<string>)

  function DeliveryOf(sends: Sends, id: string): Delivery {
    if id in sends.pending then Sending else if id in sends.failed then NotSent else Delivered
  }

  // ---- the messages ----

  function Key(runId: Option<string>, id: string): string {
    (if runId.Some? then runId.value else "") + ['\0'] + id
  }

  function LiveKey(m: MessageSnapshot): string {
    Key(Some(m.runId), m.id)
  }

  /** `new Map(...)` over the reduced messages: the last of a key wins. */
  function Reduced(live: seq<MessageSnapshot>): map<string, MessageSnapshot> {
    if live == [] then map[] else Reduced(live[..|live| - 1])[LiveKey(live[|live| - 1]) := live[|live| - 1]]
  }

  function ShowRow(row: Row, live: seq<MessageSnapshot>, sends: Sends): (s: Shown)
    ensures s.entry.MessageEntry?
  {
    var reduced, k := Reduced(live), Key(row.runId, row.id);
    Shown(MessageEntry(row.id, row.role, if k in reduced then reduced[k].text else row.text, Some(row.createdAt), row.attachments,
                       k in reduced && !reduced[k].complete, DeliveryOf(sends, row.id)), row.runId)
  }

  function ShowLive(m: MessageSnapshot, sends: Sends): (s: Shown)
    ensures s.entry.MessageEntry?
  {
    Shown(MessageEntry(m.id, m.role, m.text, None, [], !m.complete, DeliveryOf(sends, m.id)), Some(m.runId))
  }

  function Keys(rows: seq<Row>): set<string> {
    set row | row in rows :: Key(row.runId, row.id)
  }

  function Unseen(live: seq<MessageSnapshot>, seen: set<string>): seq<MessageSnapshot> {
    if live == [] then []
    else
      var m := live[|live| - 1];
      Unseen(live[..|live| - 1], seen) + if LiveKey(m) in seen then [] else [m]
  }

  /** The rows in their order, then the messages only the stream knows, in stream order. */
  function Messages(rows: seq<Row>, live: seq<MessageSnapshot>, sends: Sends): (shown: seq<Shown>)
    ensures forall i :: 0 <= i < |shown| ==> shown[i].entry.MessageEntry?
  {
    var own := Unseen(live, Keys(rows));
    seq(|rows|, i requires 0 <= i < |rows| => ShowRow(rows[i], live, sends)) +
    seq(|own|, i requires 0 <= i < |own| => ShowLive(own[i], sends))
  }

  // ---- where a run is anchored ----

  predicate Prompts(s: Shown, runId: string) {
    s.owner == Some(runId) && s.entry.MessageEntry? && s.entry.role == User
  }

  /** The first message of a run, and its first user message. */
  function First(shown: seq<Shown>, runId: string): (at: Option<nat>)
    ensures at.Some? ==> at.value < |shown| && shown[at.value].owner == Some(runId)
    ensures at.Some? ==> forall j :: 0 <= j < at.value ==> shown[j].owner != Some(runId)
    ensures at.None? ==> forall j :: 0 <= j < |shown| ==> shown[j].owner != Some(runId)
  {
    if shown == [] then None
    else
      var n := |shown| - 1;
      var earlier := First(shown[..n], runId);
      if earlier.Some? then earlier else if shown[n].owner == Some(runId) then Some(n) else None
  }

  function Prompt(shown: seq<Shown>, runId: string): (at: Option<nat>)
    ensures at.Some? ==> at.value < |shown| && Prompts(shown[at.value], runId)
    ensures at.Some? ==> forall j :: 0 <= j < at.value ==> !Prompts(shown[j], runId)
    ensures at.None? ==> forall j :: 0 <= j < |shown| ==> !Prompts(shown[j], runId)
  {
    if shown == [] then None
    else
      var n := |shown| - 1;
      var earlier := Prompt(shown[..n], runId);
      if earlier.Some? then earlier else if Prompts(shown[n], runId) then Some(n) else None
  }

  /** The gap a run's steps go to. */
  datatype Slot = Before(at: nat) | After(at: nat) | Trailing

  function SlotOf(shown: seq<Shown>, runId: string): (slot: Slot)
    ensures !slot.Trailing? ==> slot.at < |shown|
  {
    var prompt, first := Prompt(shown, runId), First(shown, runId);
    if prompt.Some? then After(prompt.value) else if first.Some? then Before(first.value) else Trailing
  }

  // ---- what a run shows ----

  function Card(run: RunSnapshot, outcome: Outcome): Option<Entry> {
    if Terminal(run.status) && outcome(run) != [] then Some(CardEntry(run, outcome(run))) else None
  }

  /** A run's calls in order, then its card. */
  function Block(run: RunSnapshot, outcome: Outcome): (block: seq<Entry>)
    ensures forall e :: e in block ==> !e.MessageEntry?
  {
    seq(|run.toolCalls|, i requires 0 <= i < |run.toolCalls| => ToolEntry(run.runId, run.toolCalls[i])) +
    if Card(run, outcome).Some? then [Card(run, outcome).value] else []
  }

  /** One run's entries and the gap they go to. */
  datatype Piece = Piece(slot: Slot, owner: string, block: seq<Entry>)

  function PieceOf(shown: seq<Shown>, run: RunSnapshot, outcome: Outcome): Piece {
    Piece(SlotOf(shown, run.runId), run.runId, Block(run, outcome))
  }

  function Pieces(shown: seq<Shown>, runs: seq<RunSnapshot>, outcome: Outcome): (pieces: seq<Piece>)
    ensures |pieces| == |runs| && forall k :: 0 <= k < |runs| ==> pieces[k] == PieceOf(shown, runs[k], outcome)
  {
    seq(|runs|, k requires 0 <= k < |runs| => PieceOf(shown, runs[k], outcome))
  }

  // ---- the weave ----

  /** The entries of the pieces in one gap, in the pieces' order. */
  function Gather(pieces: seq<Piece>, slot: Slot): seq<Entry> {
    if pieces == [] then [] else Gather(pieces[..|pieces| - 1], slot) + Within(pieces[|pieces| - 1], slot)
  }

  function Within(piece: Piece, slot: Slot): seq<Entry> {
    if piece.slot == slot then piece.block else []
  }

  /** A message with what stands right before and right after it. */
  function Stop(message: Entry, pieces: seq<Piece>, i: nat): seq<Entry> {
    Gather(pieces, Before(i)) + [message] + Gather(pieces, After(i))
  }

  /** The first `n` messages, each with its runs. */
  function Woven(messages: seq<Entry>, pieces: seq<Piece>, n: nat): seq<Entry>
    requires n <= |messages|
    decreases n
  {
    if n == 0 then [] else Woven(messages, pieces, n - 1) + Stop(messages[n - 1], pieces, n - 1)
  }

  function Merged(messages: seq<Entry>, pieces: seq<Piece>): seq<Entry> {
    Woven(messages, pieces, |messages|) + Gather(pieces, Trailing)
  }

  function EntriesOf(shown: seq<Shown>): (entries: seq<Entry>)
    ensures |entries| == |shown| && forall i :: 0 <= i < |shown| ==> entries[i] == shown[i].entry
  {
    seq(|shown|, i requires 0 <= i < |shown| => shown[i].entry)
  }

  // ---- `mergeTranscript` ----

  method IndexLive(live: seq<MessageSnapshot>) returns (reduced: map<string, MessageSnapshot>)
    ensures reduced == Reduced(live)
  {
    reduced := map[];
    for i := 0 to |live|
      invariant reduced == Reduced(live[..i])
    {
      reduced := reduced[LiveKey(live[i]) := live[i]];
      assert live[..i + 1][..i] == live[..i];
    }
    assert live[..|live|] == live;
  }

  method RenderRows(rows: seq<Row>, live: seq<MessageSnapshot>, sends: Sends) returns (shown: seq<Shown>, seen: set<string>)
    ensures shown == seq(|rows|, i requires 0 <= i < |rows| => ShowRow(rows[i], live, sends)) && seen == Keys(rows)
  {
    var reduced := IndexLive(live);
    shown, seen := [], {};
    for i := 0 to |rows|
      invariant seen == Keys(rows[..i])
      invariant shown == seq(i, j requires 0 <= j < i => ShowRow(rows[j], live, sends))
    {
      var row := rows[i];
      var k := Key(row.runId, row.id);
      seen := seen + {k};
      assert rows[..i + 1] == rows[..i] + [row];
      var text := if k in reduced then reduced[k].text else row.text;
      var streaming := k in reduced && !reduced[k].complete;
      shown := shown + [Shown(MessageEntry(row.id, row.role, text, Some(row.createdAt), row.attachments, streaming, DeliveryOf(sends, row.id)), row.runId)];
    }
    assert rows[..|rows|] == rows;
  }

  method RenderMessages(rows: seq<Row>, live: seq<MessageSnapshot>, sends: Sends) returns (shown: seq<Shown>)
    ensures shown == Messages(rows, live, sends)
  {
    var seen;
    shown, seen := RenderRows(rows, live, sends);
    ghost var before := shown;
    ghost var own: seq<MessageSnapshot> := [];
    for i := 0 to |live|
      invariant own == Unseen(live[..i], seen)
      invariant shown == before + seq(|own|, j requires 0 <= j < |own| => ShowLive(own[j], sends))
    {
      assert live[..i + 1][..i] == live[..i];
      if LiveKey(live[i]) !in seen {
        shown := shown + [ShowLive(live[i], sends)];
        own := own + [live[i]];
      }
    }
    assert live[..|live|] == live;
  }

  method Anchors(shown: seq<Shown>) returns (promptAt: map<string, nat>, firstAt: map<string, nat>)
    ensures Anchored(shown, promptAt, firstAt)
  {
    promptAt, firstAt := map[], map[];
    for i := 0 to |shown|
      invariant Anchored(shown[..i], promptAt, firstAt)
    {
      assert shown[..i + 1][..i] == shown[..i];
      if shown[i].owner.Some? {
        var runId := shown[i].owner.value;
        if runId !in firstAt {
          firstAt := firstAt[runId := i];
        }
        if shown[i].entry.MessageEntry? && shown[i].entry.role == User && runId !in promptAt {
          promptAt := promptAt[runId := i];
        }
      }
    }
    assert shown[..|shown|] == shown;
  }

  function At(anchored: map<nat, seq<RunSnapshot>>, i: nat): seq<RunSnapshot> {
    if i in anchored then anchored[i] else []
  }

  /** The runs that go to one gap, in run order. */
  function RunsAt(shown: seq<Shown>, runs: seq<RunSnapshot>, outcome: Outcome, slot: Slot): seq<RunSnapshot> {
    if runs == [] then []
    else
      var run := runs[|runs| - 1];
      RunsAt(shown, runs[..|runs| - 1], outcome, slot) + if Shows(run, outcome) && SlotOf(shown, run.runId) == slot then [run] else []
  }

  predicate Shows(run: RunSnapshot, outcome: Outcome) {
    run.toolCalls != [] || Card(run, outcome).Some?
  }

  lemma RunsAtSnoc(shown: seq<Shown>, runs: seq<RunSnapshot>, run: RunSnapshot, outcome: Outcome, slot: Slot)
    ensures RunsAt(shown, runs + [run], outcome, slot)
            == if Shows(run, outcome) && SlotOf(shown, run.runId) == slot then RunsAt(shown, runs, outcome, slot) + [run] else RunsAt(shown, runs, outcome, slot)
  {
  }

  lemma {:induction false} RunsAtGather(shown: seq<Shown>, runs: seq<RunSnapshot>, outcome: Outcome, slot: Slot)
    ensures Blocks(RunsAt(shown, runs, outcome, slot), outcome) == Gather(Pieces(shown, runs, outcome), slot)
    decreases |runs|
  {
    if runs != [] {
      var init, run := runs[..|runs| - 1], runs[|runs| - 1];
      var pieces, piece := Pieces(shown, runs, outcome), PieceOf(shown, run, outcome);
      RunsAtGather(shown, init, outcome, slot);
      assert pieces[..|runs| - 1] == Pieces(shown, init, outcome) && pieces[|runs| - 1] == piece;
      OneMoreRun(RunsAt(shown, init, outcome, slot), run, outcome, piece.slot == slot);
    }
  }

  lemma OneMoreRun(runs: seq<RunSnapshot>, run: RunSnapshot, outcome: Outcome, here: bool)
    ensures Blocks(runs + (if Shows(run, outcome) && here then [run] else []), outcome) == Blocks(runs, outcome) + (if here then Block(run, outcome) else [])
  {
    NothingToShow(run, outcome);
    if here && Shows(run, outcome) {
      BlocksSnoc(runs, run, outcome);
    } else {
      assert runs + [] == runs;
    }
  }

  lemma NothingToShow(run: RunSnapshot, outcome: Outcome)
    ensures Shows(run, outcome) <==> Block(run, outcome) != []
  {
  }

  lemma BlocksSnoc(runs: seq<RunSnapshot>, run: RunSnapshot, outcome: Outcome)
    ensures Blocks(runs + [run], outcome) == Blocks(runs, outcome) + Block(run, outcome)
  {
  }

  function Blocks(runs: seq<RunSnapshot>, outcome: Outcome): seq<Entry> {
    if runs == [] then [] else Blocks(runs[..|runs| - 1], outcome) + Block(runs[|runs| - 1], outcome)
  }

  ghost predicate Anchored(shown: seq<Shown>, promptAt: map<string, nat>, firstAt: map<string, nat>) {
    && (forall r :: Prompt(shown, r) == if r in promptAt then Some(promptAt[r]) else None)
    && (forall r :: First(shown, r) == if r in firstAt then Some(firstAt[r]) else None)
  }

  ghost predicate Filed(shown: seq<Shown>, runs: seq<RunSnapshot>, outcome: Outcome,
                        before: map<nat, seq<RunSnapshot>>, after: map<nat, seq<RunSnapshot>>, trailing: seq<RunSnapshot>) {
    && (forall i: nat :: i < |shown| ==> At(before, i) == RunsAt(shown, runs, outcome, Before(i)))
    && (forall i: nat :: i < |shown| ==> At(after, i) == RunsAt(shown, runs, outcome, After(i)))
    && trailing == RunsAt(shown, runs, outcome, Trailing)
  }

  lemma FileOne(shown: seq<Shown>, runs: seq<RunSnapshot>, run: RunSnapshot, outcome: Outcome,
                before: map<nat, seq<RunSnapshot>>, after: map<nat, seq<RunSnapshot>>, trailing: seq<RunSnapshot>,
                before': map<nat, seq<RunSnapshot>>, after': map<nat, seq<RunSnapshot>>, trailing': seq<RunSnapshot>)
    requires Filed(shown, runs, outcome, before, after, trailing)
    requires var slot, shows := SlotOf(shown, run.runId), Shows(run, outcome);
             && before' == (if shows && slot.Before? then before[slot.at := At(before, slot.at) + [run]] else before)
             && after' == (if shows && slot.After? then after[slot.at := At(after, slot.at) + [run]] else after)
             && trailing' == (if shows && slot.Trailing? then trailing + [run] else trailing)
    ensures Filed(shown, runs + [run], outcome, before', after', trailing')
  {
    RunsAtSnoc(shown, runs, run, outcome, Trailing);
    forall i: nat | i < |shown|
      ensures At(before', i) == RunsAt(shown, runs + [run], outcome, Before(i))
    {
      RunsAtSnoc(shown, runs, run, outcome, Before(i));
    }
    forall i: nat | i < |shown|
      ensures At(after', i) == RunsAt(shown, runs + [run], outcome, After(i))
    {
      RunsAtSnoc(shown, runs, run, outcome, After(i));
    }
  }

  method Place(shown: seq<Shown>, runs: seq<RunSnapshot>, outcome: Outcome, promptAt: map<string, nat>, firstAt: map<string, nat>)
    returns (before: map<nat, seq<RunSnapshot>>, after: map<nat, seq<RunSnapshot>>, trailing: seq<RunSnapshot>)
    requires Anchored(shown, promptAt, firstAt)
    ensures Filed(shown, runs, outcome, before, after, trailing)
  {
    before, after, trailing := map[], map[], [];
    for j := 0 to |runs|
      invariant Filed(shown, runs[..j], outcome, before, after, trailing)
    {
      var run := runs[j];
      ghost var before0, after0, trailing0 := before, after, trailing;
      if run.toolCalls != [] || Card(run, outcome).Some? {
        if run.runId in promptAt {
          var prompt := promptAt[run.runId];
          after := after[prompt := At(after, prompt) + [run]];
        } else if run.runId in firstAt {
          var first := firstAt[run.runId];
          before := before[first := At(before, first) + [run]];
        } else {
          trailing := trailing + [run];
        }
      }
      FileOne(shown, runs[..j], run, outcome, before0, after0, trailing0, before, after, trailing);
      assert runs[..j + 1] == runs[..j] + [run];
    }
    assert runs[..|runs|] == runs;
  }

  method PushRuns(entries: seq<Entry>, runs: seq<RunSnapshot>, outcome: Outcome) returns (all: seq<Entry>)
    ensures all == entries + Blocks(runs, outcome)
  {
    all := entries;
    for i := 0 to |runs|
      invariant all == entries + Blocks(runs[..i], outcome)
    {
      ghost var start := all;
      var run := runs[i];
      for j := 0 to |run.toolCalls|
        invariant all == start + seq(j, k requires 0 <= k < j => ToolEntry(run.runId, run.toolCalls[k]))
      {
        all := all + [ToolEntry(run.runId, run.toolCalls[j])];
      }
      if Card(run, outcome).Some? {
        all := all + [Card(run, outcome).value];
      }
      assert all == start + Block(run, outcome);
      assert runs[..i + 1][..i] == runs[..i];
    }
    assert runs[..|runs|] == runs;
  }

  method MergeTranscript(rows: seq<Row>, live: seq<MessageSnapshot>, runs: seq<RunSnapshot>, sends: Sends, outcome: Outcome) returns (entries: seq<Entry>)
    ensures var shown := Messages(rows, live, sends); entries == Merged(EntriesOf(shown), Pieces(shown, runs, outcome))
  {
    var shown := RenderMessages(rows, live, sends);
    var promptAt, firstAt := Anchors(shown);
    var before, after, trailing := Place(shown, runs, outcome, promptAt, firstAt);
    ghost var messages, pieces := EntriesOf(shown), Pieces(shown, runs, outcome);
    entries := [];
    for i := 0 to |shown|
      invariant entries == Woven(messages, pieces, i)
    {
      entries := PushStop(entries, shown[i].entry, At(before, i), At(after, i), outcome);
      RunsAtGather(shown, runs, outcome, Before(i));
      RunsAtGather(shown, runs, outcome, After(i));
    }
    entries := PushRuns(entries, trailing, outcome);
    RunsAtGather(shown, runs, outcome, Trailing);
  }

  method PushStop(entries: seq<Entry>, message: Entry, before: seq<RunSnapshot>, after: seq<RunSnapshot>, outcome: Outcome) returns (all: seq<Entry>)
    ensures all == entries + (Blocks(before, outcome) + [message] + Blocks(after, outcome))
  {
    all := PushRuns(entries, before, outcome);
    all := all + [message];
    all := PushRuns(all, after, outcome);
    AppendAssociates(entries, Blocks(before, outcome), [message]);
    AppendAssociates(entries, Blocks(before, outcome) + [message], Blocks(after, outcome));
  }

  // ---- what the merge promises ----

  function OwnerOf(e: Entry): Option<string> {
    match e
    case MessageEntry(_, _, _, _, _, _, _) => None
    case ToolEntry(runId, _) => Some(runId)
    case CardEntry(run, _) => Some(run.runId)
  }

  /** The entries of one run, or with None the message entries, in order. */
  function Of(entries: seq<Entry>, owner: Option<string>): seq<Entry> {
    if entries == [] then []
    else Of(entries[..|entries| - 1], owner) + if OwnerOf(entries[|entries| - 1]) == owner then [entries[|entries| - 1]] else []
  }

  lemma {:induction false} OfAppend(a: seq<Entry>, b: seq<Entry>, owner: Option<string>)
    ensures Of(a + b, owner) == Of(a, owner) + Of(b, owner)
    decreases |b|
  {
    if b == [] {
      assert a + b == a;
    } else {
      var all, last := a + b, b[|b| - 1];
      assert all[..|all| - 1] == a + b[..|b| - 1] && all[|all| - 1] == last;
      OfAppend(a, b[..|b| - 1], owner);
      AppendAssociates(Of(a, owner), Of(b[..|b| - 1], owner), if OwnerOf(last) == owner then [last] else []);
    }
  }

  lemma OfAppendLeft(a: seq<Entry>, b: seq<Entry>, owner: Option<string>)
    requires Of(b, owner) == []
    ensures Of(a + b, owner) == Of(a, owner)
  {
    OfAppend(a, b, owner);
  }

  lemma OfAppendRight(a: seq<Entry>, b: seq<Entry>, owner: Option<string>)
    requires Of(a, owner) == []
    ensures Of(a + b, owner) == Of(b, owner)
  {
    OfAppend(a, b, owner);
  }

  lemma {:induction false} OfUniform(a: seq<Entry>, owner: Option<string>, all: bool)
    requires forall e :: e in a ==> (OwnerOf(e) == owner) == all
    ensures Of(a, owner) == if all then a else []
    decreases |a|
  {
    if a != [] {
      OfUniform(a[..|a| - 1], owner, all);
    }
  }

  /** Pieces hold their own run's entries, and messages belong to no run. */
  ghost predicate Tidy(messages: seq<Entry>, pieces: seq<Piece>) {
    && (forall i :: 0 <= i < |messages| ==> OwnerOf(messages[i]) == None)
    && (forall k, e :: 0 <= k < |pieces| && e in pieces[k].block ==> OwnerOf(e) == Some(pieces[k].owner))
  }

  lemma PiecesAreTidy(shown: seq<Shown>, runs: seq<RunSnapshot>, outcome: Outcome)
    requires forall i :: 0 <= i < |shown| ==> shown[i].entry.MessageEntry?
    ensures Tidy(EntriesOf(shown), Pieces(shown, runs, outcome))
  {
  }

  lemma OfWithin(piece: Piece, slot: Slot, owner: Option<string>)
    requires forall e :: e in piece.block ==> OwnerOf(e) == Some(piece.owner)
    ensures Of(Within(piece, slot), owner) == if owner == Some(piece.owner) then Within(piece, slot) else []
  {
    OfUniform(Within(piece, slot), owner, owner == Some(piece.owner));
  }

  /** An owner with no piece finds nothing in a gap. */
  lemma OfStrangers(messages: seq<Entry>, pieces: seq<Piece>, slot: Slot, owner: Option<string>)
    requires Tidy(messages, pieces) && forall k :: 0 <= k < |pieces| ==> Some(pieces[k].owner) != owner
    ensures Of(Gather(pieces, slot), owner) == []
  {
    forall k | 0 <= k < |pieces|
      ensures Of(Within(pieces[k], slot), owner) == []
    {
      OfWithin(pieces[k], slot, owner);
    }
    OfNobody(pieces, slot, owner);
  }

  lemma MessageInStop(messages: seq<Entry>, pieces: seq<Piece>, i: nat)
    requires Tidy(messages, pieces) && i < |messages|
    ensures Of(Stop(messages[i], pieces, i), None) == [messages[i]]
  {
    OfStrangers(messages, pieces, Before(i), None);
    OfStrangers(messages, pieces, After(i), None);
    OfUniform([messages[i]], None, true);
    OfAppendRight(Gather(pieces, Before(i)), [messages[i]], None);
    OfAppendLeft(Gather(pieces, Before(i)) + [messages[i]], Gather(pieces, After(i)), None);
  }

  lemma PrefixSnoc<T>(s: seq<T>, n: nat)
    requires 0 < n <= |s|
    ensures s[..n] == s[..n - 1] + [s[n - 1]]
  {
  }

  lemma {:induction false} WovenMessages(messages: seq<Entry>, pieces: seq<Piece>, n: nat)
    requires n <= |messages| && forall i :: 0 <= i < |messages| ==> Of(Stop(messages[i], pieces, i), None) == [messages[i]]
    ensures Of(Woven(messages, pieces, n), None) == messages[..n]
    decreases n
  {
    if n > 0 {
      WovenMessages(messages, pieces, n - 1);
      OfAppend(Woven(messages, pieces, n - 1), Stop(messages[n - 1], pieces, n - 1), None);
      PrefixSnoc(messages, n);
    }
  }

  lemma MergedMessages(messages: seq<Entry>, pieces: seq<Piece>)
    requires Tidy(messages, pieces)
    ensures Of(Merged(messages, pieces), None) == messages
  {
    forall i | 0 <= i < |messages|
      ensures Of(Stop(messages[i], pieces, i), None) == [messages[i]]
    {
      MessageInStop(messages, pieces, i);
    }
    WovenMessages(messages, pieces, |messages|);
    OfStrangers(messages, pieces, Trailing, None);
    OfAppendLeft(Woven(messages, pieces, |messages|), Gather(pieces, Trailing), None);
  }

  /** The message entries are exactly the rows in order, then the stream-only messages in
      stream order: none lost, repeated, moved or invented. */
  lemma MessagesInOrder(rows: seq<Row>, live: seq<MessageSnapshot>, runs: seq<RunSnapshot>, sends: Sends, outcome: Outcome)
    ensures var shown := Messages(rows, live, sends); Of(Merged(EntriesOf(shown), Pieces(shown, runs, outcome)), None) == EntriesOf(shown)
  {
    var shown := Messages(rows, live, sends);
    PiecesAreTidy(shown, runs, outcome);
    MergedMessages(EntriesOf(shown), Pieces(shown, runs, outcome));
  }

  // ---- each run once, in one piece ----

  ghost predicate DistinctRuns(runs: seq<RunSnapshot>) {
    forall i, j :: 0 <= i < j < |runs| ==> runs[i].runId != runs[j].runId
  }

  ghost predicate DistinctOwners(pieces: seq<Piece>) {
    forall i, j :: 0 <= i < j < |pieces| ==> pieces[i].owner != pieces[j].owner
  }

  lemma OfOwn(messages: seq<Entry>, pieces: seq<Piece>, slot: Slot, k: nat)
    requires k < |pieces| && DistinctOwners(pieces) && Tidy(messages, pieces)
    ensures Of(Gather(pieces, slot), Some(pieces[k].owner)) == Within(pieces[k], slot)
  {
    var owner := Some(pieces[k].owner);
    forall j | 0 <= j < |pieces|
      ensures Of(Within(pieces[j], slot), owner) == if j == k then Within(pieces[k], slot) else []
    {
      OfWithin(pieces[j], slot, owner);
    }
    OfOnly(pieces, slot, owner, k);
  }

  lemma {:induction false} OfOnly(pieces: seq<Piece>, slot: Slot, owner: Option<string>, k: nat)
    requires k < |pieces| && forall j :: 0 <= j < |pieces| && j != k ==> Of(Within(pieces[j], slot), owner) == []
    ensures Of(Gather(pieces, slot), owner) == Of(Within(pieces[k], slot), owner)
    decreases |pieces|
  {
    var n := |pieces| - 1;
    var init, last := pieces[..n], Within(pieces[n], slot);
    assert Gather(pieces, slot) == Gather(init, slot) + last && forall j :: 0 <= j < n ==> init[j] == pieces[j];
    if k == n {
      OfNobody(init, slot, owner);
      OfAppendRight(Gather(init, slot), last, owner);
    } else {
      OfOnly(init, slot, owner, k);
      OfAppendLeft(Gather(init, slot), last, owner);
    }
  }

  lemma {:induction false} OfNobody(pieces: seq<Piece>, slot: Slot, owner: Option<string>)
    requires forall j :: 0 <= j < |pieces| ==> Of(Within(pieces[j], slot), owner) == []
    ensures Of(Gather(pieces, slot), owner) == []
    decreases |pieces|
  {
    if pieces != [] {
      var n := |pieces| - 1;
      OfNobody(pieces[..n], slot, owner);
      OfAppendLeft(Gather(pieces[..n], slot), Within(pieces[n], slot), owner);
    }
  }

  /** The part of a piece that stands by one message. */
  function Beside(piece: Piece, i: nat): seq<Entry> {
    if piece.slot == Before(i) || piece.slot == After(i) then piece.block else []
  }

  lemma RunInStop(messages: seq<Entry>, pieces: seq<Piece>, i: nat, k: nat)
    requires k < |pieces| && DistinctOwners(pieces) && Tidy(messages, pieces) && i < |messages|
    ensures Of(Stop(messages[i], pieces, i), Some(pieces[k].owner)) == Beside(pieces[k], i)
  {
    var owner := Some(pieces[k].owner);
    var before, message, after := Gather(pieces, Before(i)), [messages[i]], Gather(pieces, After(i));
    OfOwn(messages, pieces, Before(i), k);
    OfOwn(messages, pieces, After(i), k);
    OfUniform(message, owner, false);
    OfAppendLeft(before, message, owner);
    if pieces[k].slot == After(i) {
      OfAppendRight(before + message, after, owner);
    } else {
      OfAppendLeft(before + message, after, owner);
    }
  }

  /** The part of a piece that stands by the first `n` messages. */
  function Among(piece: Piece, n: nat): seq<Entry> {
    if !piece.slot.Trailing? && piece.slot.at < n then piece.block else []
  }

  lemma AmongGrows(piece: Piece, n: nat)
    ensures Among(piece, n + 1) == if Among(piece, n) == [] then Beside(piece, n) else Among(piece, n)
    ensures Among(piece, n) == [] || Beside(piece, n) == []
  {
  }

  lemma RunJoins(woven: seq<Entry>, stop: seq<Entry>, piece: Piece, n: nat)
    requires Of(woven, Some(piece.owner)) == Among(piece, n) && Of(stop, Some(piece.owner)) == Beside(piece, n)
    ensures Of(woven + stop, Some(piece.owner)) == Among(piece, n + 1)
  {
    AmongGrows(piece, n);
    if Among(piece, n) == [] {
      OfAppendRight(woven, stop, Some(piece.owner));
    } else {
      OfAppendLeft(woven, stop, Some(piece.owner));
    }
  }

  /** The first `n` stops of a list of them, joined. */
  function Joined(stops: seq<seq<Entry>>, n: nat): seq<Entry>
    requires n <= |stops|
    decreases n
  {
    if n == 0 then [] else Joined(stops, n - 1) + stops[n - 1]
  }

  lemma {:induction false} JoinedRun(stops: seq<seq<Entry>>, n: nat, piece: Piece)
    requires n <= |stops| && forall i :: 0 <= i < |stops| ==> Of(stops[i], Some(piece.owner)) == Beside(piece, i)
    ensures Of(Joined(stops, n), Some(piece.owner)) == Among(piece, n)
    decreases n
  {
    if n > 0 {
      JoinedRun(stops, n - 1, piece);
      RunJoins(Joined(stops, n - 1), stops[n - 1], piece, n - 1);
    }
  }

  lemma {:induction false} WovenIsJoined(messages: seq<Entry>, pieces: seq<Piece>, stops: seq<seq<Entry>>, n: nat)
    requires n <= |messages| == |stops| && forall i :: 0 <= i < |stops| ==> stops[i] == Stop(messages[i], pieces, i)
    ensures Woven(messages, pieces, n) == Joined(stops, n)
    decreases n
  {
    if n > 0 {
      WovenIsJoined(messages, pieces, stops, n - 1);
    }
  }

  lemma MergedRun(messages: seq<Entry>, pieces: seq<Piece>, k: nat)
    requires k < |pieces| && DistinctOwners(pieces) && Tidy(messages, pieces)
    requires !pieces[k].slot.Trailing? ==> pieces[k].slot.at < |messages|
    ensures Of(Merged(messages, pieces), Some(pieces[k].owner)) == pieces[k].block
  {
    var piece, n := pieces[k], |messages|;
    var stops := seq(n, i requires 0 <= i < n => Stop(messages[i], pieces, i));
    forall i | 0 <= i < n
      ensures Of(stops[i], Some(piece.owner)) == Beside(piece, i)
    {
      RunInStop(messages, pieces, i, k);
    }
    JoinedRun(stops, n, piece);
    WovenIsJoined(messages, pieces, stops, n);
    OfOwn(messages, pieces, Trailing, k);
    if piece.slot.Trailing? {
      OfAppendRight(Woven(messages, pieces, n), Gather(pieces, Trailing), Some(piece.owner));
    } else {
      OfAppendLeft(Woven(messages, pieces, n), Gather(pieces, Trailing), Some(piece.owner));
    }
  }

  /** Every run's entries are its calls in order and then its card, each exactly once. */
  lemma EachRunOnce(rows: seq<Row>, live: seq<MessageSnapshot>, runs: seq<RunSnapshot>, sends: Sends, outcome: Outcome, k: nat)
    requires k < |runs| && DistinctRuns(runs)
    ensures var shown := Messages(rows, live, sends);
            Of(Merged(EntriesOf(shown), Pieces(shown, runs, outcome)), Some(runs[k].runId)) == Block(runs[k], outcome)
  {
    var shown := Messages(rows, live, sends);
    PiecesAreTidy(shown, runs, outcome);
    assert Pieces(shown, runs, outcome)[k] == PieceOf(shown, runs[k], outcome);
    MergedRun(EntriesOf(shown), Pieces(shown, runs, outcome), k);
  }

  // ---- where each run stands ----

  /** A gap nobody shares holds its one piece. */
  lemma {:induction false} AloneInGap(pieces: seq<Piece>, k: nat)
    requires k < |pieces| && forall j :: 0 <= j < |pieces| && j != k ==> pieces[j].slot != pieces[k].slot
    ensures Gather(pieces, pieces[k].slot) == pieces[k].block
    decreases |pieces|
  {
    var n, slot := |pieces| - 1, pieces[k].slot;
    if k < n {
      AloneInGap(pieces[..n], k);
    } else {
      NobodyInGap(pieces[..n], slot);
    }
  }

  lemma {:induction false} NobodyInGap(pieces: seq<Piece>, slot: Slot)
    requires forall j :: 0 <= j < |pieces| ==> pieces[j].slot != slot
    ensures Gather(pieces, slot) == []
    decreases |pieces|
  {
    if pieces != [] {
      NobodyInGap(pieces[..|pieces| - 1], slot);
    }
  }

  /** A message anchors no run but the one it names. */
  lemma SlotNamesItsRun(shown: seq<Shown>, one: string, two: string)
    requires SlotOf(shown, one) == SlotOf(shown, two) != Trailing
    ensures one == two
  {
  }

  lemma AnchoredAlone(shown: seq<Shown>, runs: seq<RunSnapshot>, outcome: Outcome, k: nat)
    requires k < |runs| && DistinctRuns(runs) && SlotOf(shown, runs[k].runId) != Trailing
    ensures Gather(Pieces(shown, runs, outcome), SlotOf(shown, runs[k].runId)) == Block(runs[k], outcome)
  {
    var pieces := Pieces(shown, runs, outcome);
    forall j | 0 <= j < |pieces| && j != k
      ensures pieces[j].slot != pieces[k].slot
    {
      if pieces[j].slot == pieces[k].slot {
        SlotNamesItsRun(shown, runs[j].runId, runs[k].runId);
      }
    }
    AloneInGap(pieces, k);
  }

  lemma {:induction false} WovenGrows(messages: seq<Entry>, pieces: seq<Piece>, n: nat, m: nat) returns (rest: seq<Entry>)
    requires n <= m <= |messages|
    ensures Woven(messages, pieces, m) == Woven(messages, pieces, n) + rest
    decreases m
  {
    rest := [];
    if n < m {
      rest := WovenGrows(messages, pieces, n, m - 1);
      AppendAssociates(Woven(messages, pieces, n), rest, Stop(messages[m - 1], pieces, m - 1));
      rest := rest + Stop(messages[m - 1], pieces, m - 1);
    }
  }

  /** Message `i` and its runs stand between the messages before it and those after it. */
  lemma StopStands(messages: seq<Entry>, pieces: seq<Piece>, i: nat) returns (rest: seq<Entry>)
    requires i < |messages|
    ensures Merged(messages, pieces) == Woven(messages, pieces, i) + Stop(messages[i], pieces, i) + rest
  {
    rest := WovenGrows(messages, pieces, i + 1, |messages|);
    AppendAssociates(Woven(messages, pieces, i + 1), rest, Gather(pieces, Trailing));
    rest := rest + Gather(pieces, Trailing);
  }

  /** The block of a run with a user message follows its first one at once, and no other run
      stands between that message and the next. */
  lemma RightAfterItsPrompt(shown: seq<Shown>, runs: seq<RunSnapshot>, outcome: Outcome, k: nat) returns (rest: seq<Entry>)
    requires k < |runs| && DistinctRuns(runs) && Prompt(shown, runs[k].runId).Some?
    ensures var i, messages, pieces := Prompt(shown, runs[k].runId).value, EntriesOf(shown), Pieces(shown, runs, outcome);
            Merged(messages, pieces)
            == Woven(messages, pieces, i) + (Gather(pieces, Before(i)) + [shown[i].entry] + Block(runs[k], outcome)) + rest
  {
    AnchoredAlone(shown, runs, outcome, k);
    rest := StopStands(EntriesOf(shown), Pieces(shown, runs, outcome), Prompt(shown, runs[k].runId).value);
  }

  /** The block of a run without a user message ends where its first message stands. */
  lemma RightBeforeItsFirst(shown: seq<Shown>, runs: seq<RunSnapshot>, outcome: Outcome, k: nat) returns (rest: seq<Entry>)
    requires k < |runs| && DistinctRuns(runs) && Prompt(shown, runs[k].runId).None? && First(shown, runs[k].runId).Some?
    ensures var i, messages, pieces := First(shown, runs[k].runId).value, EntriesOf(shown), Pieces(shown, runs, outcome);
            Merged(messages, pieces)
            == Woven(messages, pieces, i) + (Block(runs[k], outcome) + [shown[i].entry] + Gather(pieces, After(i))) + rest
  {
    AnchoredAlone(shown, runs, outcome, k);
    rest := StopStands(EntriesOf(shown), Pieces(shown, runs, outcome), First(shown, runs[k].runId).value);
  }

  /** The runs without any message come after every message, in run order. */
  lemma RunsWithoutMessagesTrail(shown: seq<Shown>, runs: seq<RunSnapshot>, outcome: Outcome)
    ensures var messages, pieces := EntriesOf(shown), Pieces(shown, runs, outcome);
            Merged(messages, pieces) == Woven(messages, pieces, |shown|) + Blocks(RunsAt(shown, runs, outcome, Trailing), outcome)
    ensures forall k :: 0 <= k < |runs| ==> (First(shown, runs[k].runId).None? <==> SlotOf(shown, runs[k].runId) == Trailing)
  {
    RunsAtGather(shown, runs, outcome, Trailing);
  }

  // ---- nothing lost, nothing twice, whatever the run ids ----

  /** The entries of the pieces by the first `n` messages. */
  function GatherAmong(pieces: seq<Piece>, n: nat): seq<Entry> {
    if pieces == [] then [] else GatherAmong(pieces[..|pieces| - 1], n) + Among(pieces[|pieces| - 1], n)
  }

  lemma {:induction false} OneMoreStop(pieces: seq<Piece>, n: nat)
    ensures multiset(GatherAmong(pieces, n + 1))
            == multiset(GatherAmong(pieces, n)) + multiset(Gather(pieces, Before(n))) + multiset(Gather(pieces, After(n)))
    decreases |pieces|
  {
    if pieces != [] {
      OneMoreStop(pieces[..|pieces| - 1], n);
    }
  }

  lemma {:induction false} NoStops(pieces: seq<Piece>)
    ensures GatherAmong(pieces, 0) == []
    decreases |pieces|
  {
    if pieces != [] {
      NoStops(pieces[..|pieces| - 1]);
    }
  }

  lemma StopConserves(message: Entry, pieces: seq<Piece>, i: nat)
    ensures multiset(Stop(message, pieces, i)) == multiset(Gather(pieces, Before(i))) + multiset{message} + multiset(Gather(pieces, After(i)))
  {
  }

  lemma StopJoins(woven: seq<Entry>, messages: seq<Entry>, pieces: seq<Piece>, n: nat)
    requires 0 < n <= |messages| && multiset(woven) == multiset(messages[..n - 1]) + multiset(GatherAmong(pieces, n - 1))
    ensures multiset(woven + Stop(messages[n - 1], pieces, n - 1)) == multiset(messages[..n]) + multiset(GatherAmong(pieces, n))
  {
    OneMoreStop(pieces, n - 1);
    StopConserves(messages[n - 1], pieces, n - 1);
    PrefixSnoc(messages, n);
  }

  lemma {:induction false} WovenConserves(messages: seq<Entry>, pieces: seq<Piece>, n: nat)
    requires n <= |messages|
    ensures multiset(Woven(messages, pieces, n)) == multiset(messages[..n]) + multiset(GatherAmong(pieces, n))
    decreases n
  {
    if n == 0 {
      NoStops(pieces);
    } else {
      WovenConserves(messages, pieces, n - 1);
      StopJoins(Woven(messages, pieces, n - 1), messages, pieces, n);
    }
  }

  /** All the pieces, one after the other. */
  function AllBlocks(pieces: seq<Piece>): seq<Entry> {
    if pieces == [] then [] else AllBlocks(pieces[..|pieces| - 1]) + pieces[|pieces| - 1].block
  }

  lemma {:induction false} EveryPieceIsSomewhere(pieces: seq<Piece>, n: nat)
    requires forall k :: 0 <= k < |pieces| && !pieces[k].slot.Trailing? ==> pieces[k].slot.at < n
    ensures multiset(AllBlocks(pieces)) == multiset(GatherAmong(pieces, n)) + multiset(Gather(pieces, Trailing))
    decreases |pieces|
  {
    if pieces != [] {
      EveryPieceIsSomewhere(pieces[..|pieces| - 1], n);
    }
  }

  /** The transcript holds every message and every run's entries exactly as often as they come
      in, so its length is their sum; this needs no run id to be unique. */
  lemma NothingLostOrRepeated(messages: seq<Entry>, pieces: seq<Piece>)
    requires forall k :: 0 <= k < |pieces| && !pieces[k].slot.Trailing? ==> pieces[k].slot.at < |messages|
    ensures multiset(Merged(messages, pieces)) == multiset(messages) + multiset(AllBlocks(pieces))
    ensures |Merged(messages, pieces)| == |messages| + |AllBlocks(pieces)|
  {
    WovenConserves(messages, pieces, |messages|);
    EveryPieceIsSomewhere(pieces, |messages|);
    assert messages[..|messages|] == messages;
    assert |multiset(Merged(messages, pieces))| == |multiset(messages)| + |multiset(AllBlocks(pieces))|;
  }

  // ---- what a message shows ----

  ghost predicate DistinctLive(live: seq<MessageSnapshot>) {
    forall i, j :: 0 <= i < j < |live| ==> LiveKey(live[i]) != LiveKey(live[j])
  }

  lemma {:induction false} ReducedHolds(live: seq<MessageSnapshot>, k: nat)
    requires DistinctLive(live) && k < |live|
    ensures LiveKey(live[k]) in Reduced(live) && Reduced(live)[LiveKey(live[k])] == live[k]
    decreases |live|
  {
    if k < |live| - 1 {
      ReducedHolds(live[..|live| - 1], k);
    }
  }

  lemma {:induction false} UnseenHolds(live: seq<MessageSnapshot>, seen: set<string>, k: nat) returns (j: nat)
    requires k < |live| && LiveKey(live[k]) !in seen
    ensures j < |Unseen(live, seen)| && Unseen(live, seen)[j] == live[k]
    decreases |live|
  {
    if k < |live| - 1 {
      j := UnseenHolds(live[..|live| - 1], seen, k);
    } else {
      j := |Unseen(live[..k], seen)|;
    }
  }

  /** Every message of the stream is rendered with the stream's text, whether or not its row has
      been written, and streams until it is complete. */
  lemma StreamIsShown(rows: seq<Row>, live: seq<MessageSnapshot>, sends: Sends, k: nat) returns (i: nat)
    requires DistinctLive(live) && k < |live|
    ensures var shown := Messages(rows, live, sends);
            && i < |shown| && Key(shown[i].owner, shown[i].entry.id) == LiveKey(live[k])
            && shown[i].entry.text == live[k].text && shown[i].entry.streaming == !live[k].complete
  {
    ReducedHolds(live, k);
    if LiveKey(live[k]) in Keys(rows) {
      i :| 0 <= i < |rows| && Key(rows[i].runId, rows[i].id) == LiveKey(live[k]);
    } else {
      var j := UnseenHolds(live, Keys(rows), k);
      i := |rows| + j;
    }
  }

  // ---- the sends the console keeps beside the transcript ----

  /** `m` is the last of the stream's messages under this key. */
  ghost predicate LastUnder(live: seq<MessageSnapshot>, key: string, m: MessageSnapshot) {
    exists k :: 0 <= k < |live| && live[k] == m && LiveKey(m) == key && forall j :: k < j < |live| ==> LiveKey(live[j]) != key
  }

  lemma {:induction false} ReducedWhen(live: seq<MessageSnapshot>, key: string)
    ensures key in Reduced(live) <==> exists k :: 0 <= k < |live| && LiveKey(live[k]) == key
    ensures key in Reduced(live) ==> LastUnder(live, key, Reduced(live)[key])
    decreases |live|
  {
    if live != [] {
      var n := |live| - 1;
      ReducedWhen(live[..n], key);
      if LiveKey(live[n]) == key {
        assert live[n] == Reduced(live)[key];
      } else if key in Reduced(live[..n]) {
        var m := Reduced(live[..n])[key];
        var k :| 0 <= k < n && live[..n][k] == m && LiveKey(m) == key && forall j :: k < j < n ==> LiveKey(live[..n][j]) != key;
        assert live[k] == m;
        assert forall j :: k < j < |live| ==> LiveKey(live[j]) != key;
      }
    }
  }

  /** Each fetched row is shown in its place as itself: under its own id, role, time, attachments and
      run, with its own text unless the stream has a message for it, and then with that one's; and
      marked as on its way, as not sent, or not at all. */
  lemma RowIsShown(rows: seq<Row>, live: seq<MessageSnapshot>, sends: Sends, i: nat)
    requires i < |rows|
    ensures i < |Messages(rows, live, sends)|
    ensures var row, shown := rows[i], Messages(rows, live, sends)[i];
            var key := Key(row.runId, row.id);
            && shown.owner == row.runId && shown.entry.id == row.id && shown.entry.role == row.role
            && shown.entry.createdAt == Some(row.createdAt) && shown.entry.attachments == row.attachments
            && ((forall m :: m in live ==> LiveKey(m) != key) ==> shown.entry.text == row.text && !shown.entry.streaming)
            && ((exists m :: m in live && LiveKey(m) == key) ==>
                  exists m :: LastUnder(live, key, m) && shown.entry.text == m.text && shown.entry.streaming == !m.complete)
            && Marked(shown.entry, sends)
  {
    var key := Key(rows[i].runId, rows[i].id);
    ReducedWhen(live, key);
    if m :| m in live && LiveKey(m) == key {
      var k :| 0 <= k < |live| && live[k] == m;
      assert LastUnder(live, key, Reduced(live)[key]);
    }
  }

  /** A send that has not settled is on its way, one that failed is not sent, and nothing else is
      marked. */
  predicate Marked(e: Entry, sends: Sends)
    requires e.MessageEntry?
  {
    && (e.delivery == Sending <==> e.id in sends.pending)
    && (e.delivery == NotSent <==> e.id !in sends.pending && e.id in sends.failed)
  }

  /** Each message of the stream that no row stands for is shown once, as itself, after the rows and
      where the stream has it; the others are not shown again. */
  lemma {:induction false} OnlyUnseenAreShown(a: seq<MessageSnapshot>, m: MessageSnapshot, b: seq<MessageSnapshot>, seen: set<string>)
    ensures Unseen(a + [m] + b, seen) == Unseen(a, seen) + (if LiveKey(m) in seen then [] else [m]) + Unseen(b, seen)
    decreases |b|
  {
    var all := a + [m] + b;
    if b == [] {
      assert all[..|all| - 1] == a && all[|all| - 1] == m;
    } else {
      assert all[..|all| - 1] == a + [m] + b[..|b| - 1] && all[|all| - 1] == b[|b| - 1];
      OnlyUnseenAreShown(a, m, b[..|b| - 1], seen);
    }
  }

  lemma StreamOnlyIsShown(rows: seq<Row>, live: seq<MessageSnapshot>, sends: Sends, j: nat)
    requires j < |Unseen(live, Keys(rows))|
    ensures |Messages(rows, live, sends)| == |rows| + |Unseen(live, Keys(rows))|
    ensures var m, shown := Unseen(live, Keys(rows))[j], Messages(rows, live, sends)[|rows| + j];
            && shown.owner == Some(m.runId)
            && shown.entry == MessageEntry(m.id, m.role, m.text, None, [], !m.complete, shown.entry.delivery) && Marked(shown.entry, sends)
  {
  }

  /** A run has a card exactly when it has ended and has something to report; its block is its calls
      in order and then that card. */
  lemma BlockIs(run: RunSnapshot, outcome: Outcome)
    ensures var ended, block := run.status == Completed || run.status == RunStatus.Failed || run.status == Cancelled, Block(run, outcome);
            && |block| == |run.toolCalls| + (if ended && outcome(run) != [] then 1 else 0)
            && (forall i :: 0 <= i < |run.toolCalls| ==> block[i] == ToolEntry(run.runId, run.toolCalls[i]))
            && (ended && outcome(run) != [] ==> block[|run.toolCalls|] == CardEntry(run, outcome(run)))
  {
  }

  /** A run stands after the first user message that names it, else before the first message that
      does, else at the end. */
  lemma SlotIs(shown: seq<Shown>, runId: string)
    ensures match SlotOf(shown, runId)
            case After(i) =>
              i < |shown| && shown[i].owner == Some(runId) && shown[i].entry.MessageEntry? && shown[i].entry.role == User
              && forall j :: 0 <= j < i && shown[j].owner == Some(runId) ==> !(shown[j].entry.MessageEntry? && shown[j].entry.role == User)
            case Before(i) =>
              i < |shown| && shown[i].owner == Some(runId) && (forall j :: 0 <= j < i ==> shown[j].owner != Some(runId))
              && forall j :: 0 <= j < |shown| && shown[j].owner == Some(runId) ==> !(shown[j].entry.MessageEntry? && shown[j].entry.role == User)
            case Trailing => forall j :: 0 <= j < |shown| ==> shown[j].owner != Some(runId)
  {
    var prompt := Prompt(shown, runId);
    assert prompt.Some? ==> Prompts(shown[prompt.value], runId);
    assert forall j :: 0 <= j < |shown| ==>
      (Prompts(shown[j], runId) <==> shown[j].owner == Some(runId) && shown[j].entry.MessageEntry? && shown[j].entry.role == User);
  }

  function Ids(rows: seq<Row>): set<string> {
    set row | row in rows :: row.id
  }

  ghost predicate Distinct(rows: seq<Row>) {
    forall i, j :: 0 <= i < j < |rows| ==> rows[i].id != rows[j].id
  }

  function Outside(rows: seq<Row>, known: set<string>): (rest: seq<Row>)
    ensures forall r :: r in rest <==> r in rows && r.id !in known
  {
    if rows == [] then []
    else Outside(rows[..|rows| - 1], known) + if rows[|rows| - 1].id in known then [] else [rows[|rows| - 1]]
  }

  /** `allMessages`. */
  function AllMessages(transcript: seq<Row>, sent: seq<Row>): seq<Row> {
    transcript + Outside(sent, Ids(transcript))
  }

  function IndexOf(rows: seq<Row>, id: string): (at: Option<nat>)
    ensures at.Some? ==> at.value < |rows| && rows[at.value].id == id
    ensures at.None? <==> id !in Ids(rows)
  {
    if rows == [] then None
    else
      var earlier := IndexOf(rows[..|rows| - 1], id);
      if earlier.Some? then earlier else if rows[|rows| - 1].id == id then Some(|rows| - 1) else None
  }

  function Noted(transcript: seq<Row>, sent: seq<Row>, message: Row): seq<Row> {
    if message.id in Ids(sent) || message.id in Ids(transcript) then sent else sent + [message]
  }

  function SettledSends(transcript: seq<Row>, sent: seq<Row>, optimisticId: string, message: Row): seq<Row> {
    var at := IndexOf(sent, optimisticId);
    if message.id in Ids(transcript) then Outside(sent, {optimisticId})
    else if at.Some? then sent[at.value := message]
    else if message.id in Ids(sent) then sent else sent + [message]
  }

  class ConsoleSends {
    var transcript: seq<Row>
    var sentMessages: seq<Row>
    var pendingMessageIds: set<string>
    var failedMessageIds: set<string>

    constructor (fetched: seq<Row>)
      ensures transcript == fetched && sentMessages == [] && pendingMessageIds == failedMessageIds == {}
    {
      transcript, sentMessages, pendingMessageIds, failedMessageIds := fetched, [], {}, {};
    }

    method NoteSent(message: Row)
      modifies `sentMessages
      ensures sentMessages == Noted(transcript, old(sentMessages), message)
    {
      if message.id in Ids(sentMessages) || message.id in Ids(transcript) {
        return;
      }
      sentMessages := sentMessages + [message];
    }

    method NoteOptimistic(message: Row, optimisticId: string)
      modifies this
      ensures transcript == old(transcript) && sentMessages == Noted(transcript, old(sentMessages), message)
      ensures sentMessages != old(sentMessages) ==>
                pendingMessageIds == old(pendingMessageIds) + {optimisticId} && failedMessageIds == old(failedMessageIds) - {optimisticId}
      ensures sentMessages == old(sentMessages) ==> pendingMessageIds == old(pendingMessageIds) && failedMessageIds == old(failedMessageIds)
    {
      if message.id in Ids(sentMessages) || message.id in Ids(transcript) {
        return;
      }
      sentMessages := sentMessages + [message];
      pendingMessageIds := pendingMessageIds + {optimisticId};
      failedMessageIds := failedMessageIds - {optimisticId};
    }

    method SettleSent(optimisticId: string, message: Row)
      modifies this
      ensures transcript == old(transcript) && sentMessages == SettledSends(transcript, old(sentMessages), optimisticId, message)
      ensures pendingMessageIds == old(pendingMessageIds) - {optimisticId} && failedMessageIds == old(failedMessageIds) - {optimisticId}
    {
      var optimisticIndex := IndexOf(sentMessages, optimisticId);
      pendingMessageIds := pendingMessageIds - {optimisticId};
      failedMessageIds := failedMessageIds - {optimisticId};
      if message.id in Ids(transcript) {
        sentMessages := Outside(sentMessages, {optimisticId});
      } else if optimisticIndex.Some? {
        sentMessages := sentMessages[optimisticIndex.value := message];
      } else if message.id !in Ids(sentMessages) {
        sentMessages := sentMessages + [message];
      }
    }

    method FailSent(optimisticId: string)
      modifies this
      ensures transcript == old(transcript) && sentMessages == old(sentMessages)
      ensures optimisticId in Ids(sentMessages) ==>
                pendingMessageIds == old(pendingMessageIds) - {optimisticId} && failedMessageIds == old(failedMessageIds) + {optimisticId}
      ensures optimisticId !in Ids(sentMessages) ==> pendingMessageIds == old(pendingMessageIds) && failedMessageIds == old(failedMessageIds)
    {
      if optimisticId !in Ids(sentMessages) {
        return;
      }
      pendingMessageIds := pendingMessageIds - {optimisticId};
      failedMessageIds := failedMessageIds + {optimisticId};
    }
  }

  lemma {:induction false} OutsideDistinct(rows: seq<Row>, known: set<string>)
    requires Distinct(rows)
    ensures Distinct(Outside(rows, known))
    decreases |rows|
  {
    if rows != [] {
      OutsideDistinct(rows[..|rows| - 1], known);
    }
  }

  /** No turn is listed twice while the sends are distinct. */
  lemma AllMessagesDistinct(transcript: seq<Row>, sent: seq<Row>)
    requires Distinct(transcript) && Distinct(sent)
    ensures Distinct(AllMessages(transcript, sent))
    ensures forall row :: row in transcript ==> row in AllMessages(transcript, sent)
    ensures forall row :: row in sent ==> row.id in Ids(AllMessages(transcript, sent))
  {
    OutsideDistinct(sent, Ids(transcript));
    var all, rest := AllMessages(transcript, sent), Outside(sent, Ids(transcript));
    forall i, j | 0 <= i < j < |all|
      ensures all[i].id != all[j].id
    {
      if i < |transcript| <= j {
        assert transcript[i].id in Ids(transcript) && rest[j - |transcript|] in rest;
      }
    }
    forall row | row in sent
      ensures row.id in Ids(all)
    {
      if row.id !in Ids(transcript) {
        assert row in rest && row in all;
      }
    }
  }

  /** Noting a send keeps the sends distinct. */
  lemma NotedDistinct(transcript: seq<Row>, sent: seq<Row>, message: Row)
    requires Distinct(sent)
    ensures Distinct(Noted(transcript, sent, message))
  {
  }

  /** Settling one keeps them distinct exactly when it does not land on an answer another send
      already holds: then the same row is listed twice. */
  lemma SettledDistinctWhen(transcript: seq<Row>, sent: seq<Row>, optimisticId: string, message: Row)
    requires Distinct(sent)
    ensures Distinct(SettledSends(transcript, sent, optimisticId, message)) <==>
            message.id in Ids(transcript) || optimisticId !in Ids(sent) || message.id == optimisticId || message.id !in Ids(sent)
  {
    var at, after := IndexOf(sent, optimisticId), SettledSends(transcript, sent, optimisticId, message);
    if message.id in Ids(transcript) {
      OutsideDistinct(sent, {optimisticId});
    } else if at.Some? && message.id != optimisticId && message.id in Ids(sent) {
      var j :| 0 <= j < |sent| && sent[j].id == message.id;
      assert after[j].id == after[at.value].id;
      assert !Distinct(after);
    } else if at.Some? {
      assert forall j :: 0 <= j < |sent| && j != at.value ==> sent[j] in sent && sent[j].id != message.id;
    }
  }
}
