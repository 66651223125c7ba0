/**
 * The message composer: draft text, staged files and the send, with uploads and sends settling
 * at any time (apps/web/src/composer.ts). What the transport answers, and the sentence shown for
 * a failure, are parameters; `newNonce` mints a value never sent before.
 */
module Composer {
  import opened ByteStreams
  import opened Text

  const MAX_ATTACHMENT_BYTES := 8 * 1024 * 1024
  const MAX_ATTACHMENTS_PER_MESSAGE := 8

  const TOO_LARGE := "Too large — the limit is 8 MB."
  const TOO_MANY := "A message carries at most 8 files."

  datatype FileInput = FileInput(filename: string, contentType: string, sizeBytes: nat)

  datatype FileStatus = Invalid | Uploading | Ready | Failed

  datatype Staged = Staged(key: nat, input: FileInput, filename: string, contentType: string, status: FileStatus,
                           progress: real, detail: Option<string>, attachmentId: Option<string>)

  datatype Uploaded = Uploaded(id: string, filename: string, contentType: string)

  datatype SendCall = SendCall(text: string, attachmentIds: seq<string>, nonce: string)

  /** A send under way: what it carried and whether its one retry has been spent. */
  datatype Flight = Flight(call: SendCall, keys: set<nat>, retried: bool)

  type Guess = string -> string

  /** The closure's variables; then `uploads` and `flight` are the requests under way, `aborted`
      the uploads told to stop, and `sent` every call the transport has been given. */
  datatype Draft = Draft(
    text: string, files: seq<Staged>, sending: bool, error: Option<string>, nonce: Option<string>, textChangedWhileSending: bool,
    nextKey: nat, uploads: multiset<nat>, aborted: set<nat>, flight: Option<Flight>, sent: seq<SendCall>)

  const EMPTY := Draft("", [], false, None, None, false, 0, multiset{}, {}, None, [])

  // ---- the operations ----

  predicate AllReady(files: seq<Staged>) {
    forall i :: 0 <= i < |files| ==> files[i].status == Ready
  }

  predicate CanSend(d: Draft) {
    !Blank(d.text) && !d.sending && AllReady(d.files)
  }

  function Keys(files: seq<Staged>): set<nat> {
    set f | f in files :: f.key
  }

  function Replace(files: seq<Staged>, key: nat, update: Staged -> Staged): (r: seq<Staged>)
    ensures |r| == |files| && forall i :: 0 <= i < |r| ==> r[i] == if files[i].key == key then update(files[i]) else files[i]
  {
    seq(|files|, i requires 0 <= i < |files| => if files[i].key == key then update(files[i]) else files[i])
  }

  function Without(files: seq<Staged>, keys: set<nat>): seq<Staged> {
    if files == [] then []
    else Without(files[..|files| - 1], keys) + if files[|files| - 1].key in keys then [] else [files[|files| - 1]]
  }

  function Find(files: seq<Staged>, key: nat): (f: Option<Staged>)
    ensures f.Some? ==> f.value in files && f.value.key == key
    ensures f.None? <==> key !in Keys(files)
  {
    if files == [] then None else if files[0].key == key then Some(files[0]) else Find(files[1..], key)
  }

  function IntakeRefusal(input: FileInput, staged: nat): Option<string> {
    if input.sizeBytes > MAX_ATTACHMENT_BYTES then Some(TOO_LARGE)
    else if staged >= MAX_ATTACHMENTS_PER_MESSAGE then Some(TOO_MANY)
    else None
  }

  function ContentType(input: FileInput, guess: Guess): string {
    if Blank(input.contentType) then guess(input.filename) else Trim(input.contentType)
  }

  function Typed(d: Draft, next: string): Draft {
    if next == d.text then d
    else d.(text := next, nonce := None, textChangedWhileSending := d.textChangedWhileSending || d.sending)
  }

  function AddFile(d: Draft, input: FileInput, guess: Guess): Draft {
    var refusal, key := IntakeRefusal(input, |d.files|), d.nextKey + 1;
    var file := Staged(key, input, input.filename, ContentType(input, guess), if refusal.None? then Uploading else Invalid, 0.0, refusal, None);
    d.(nextKey := key, files := d.files + [file], uploads := if refusal.None? then d.uploads + multiset{key} else d.uploads)
  }

  function AddAll(d: Draft, inputs: seq<FileInput>, guess: Guess): Draft {
    if inputs == [] then d else AddFile(AddAll(d, inputs[..|inputs| - 1], guess), inputs[|inputs| - 1], guess)
  }

  function WithFiles(d: Draft, inputs: seq<FileInput>, guess: Guess): Draft {
    if inputs == [] then d else AddAll(d, inputs, guess).(nonce := None)
  }

  function Removed(d: Draft, key: nat): Draft {
    if key !in Keys(d.files) then d
    else d.(files := Without(d.files, {key}), nonce := None, aborted := if key in d.uploads then d.aborted + {key} else d.aborted)
  }

  function Retried(d: Draft, key: nat): Draft {
    var file := Find(d.files, key);
    if file.None? || file.value.status != Failed then d
    else d.(files := Replace(d.files, key, (f: Staged) => Requeued(f)), uploads := d.uploads + multiset{key})
  }

  function Requeued(f: Staged): Staged {
    f.(status := Uploading, progress := 0.0, detail := None)
  }

  function Advanced(f: Staged, sentBytes: nat, totalBytes: nat): Staged {
    f.(progress := if totalBytes == 0 then f.progress else if sentBytes >= totalBytes then 1.0 else sentBytes as real / totalBytes as real)
  }

  function Stored(f: Staged, uploaded: Uploaded): Staged {
    f.(filename := uploaded.filename, contentType := uploaded.contentType, status := Ready, progress := 1.0, detail := None, attachmentId := Some(uploaded.id))
  }

  function Refused(f: Staged, sentence: string): Staged {
    f.(status := Failed, detail := Some(sentence))
  }

  /** Progress, success and failure of an upload under way. */
  function UploadAdvanced(d: Draft, key: nat, sentBytes: nat, totalBytes: nat): Draft {
    d.(files := Replace(d.files, key, (f: Staged) => Advanced(f, sentBytes, totalBytes)))
  }

  function UploadResolved(d: Draft, key: nat, uploaded: Uploaded): Draft {
    d.(uploads := d.uploads - multiset{key}, files := Replace(d.files, key, (f: Staged) => Stored(f, uploaded)))
  }

  function UploadRejected(d: Draft, key: nat, sentence: string): Draft {
    d.(uploads := d.uploads - multiset{key}, files := Replace(d.files, key, (f: Staged) => Refused(f, sentence)))
  }

  /** The attachment ids there are, in file order. */
  function AttachmentIds(files: seq<Staged>): seq<string> {
    if files == [] then []
    else AttachmentIds(files[..|files| - 1]) + if files[|files| - 1].attachmentId.Some? then [files[|files| - 1].attachmentId.value] else []
  }

  function Submitted(d: Draft, mint: string): Draft {
    if !CanSend(d) then d
    else
      var nonce := if d.nonce.Some? then d.nonce.value else mint;
      var call := SendCall(d.text, AttachmentIds(d.files), nonce);
      d.(nonce := Some(nonce), sending := true, error := None, textChangedWhileSending := false, text := "",
         flight := Some(Flight(call, Keys(d.files), false)), sent := d.sent + [call])
  }

  function SendResolved(d: Draft): Draft
    requires d.flight.Some?
  {
    d.(files := Without(d.files, d.flight.value.keys), sending := false, textChangedWhileSending := false, nonce := None, flight := None)
  }

  /** A refused send; a run that ended first is answered with one more try under the same nonce. */
  function SendRejected(d: Draft, preconditionFailed: bool, sentence: string): Draft
    requires d.flight.Some?
  {
    var flight := d.flight.value;
    if preconditionFailed && !flight.retried then d.(flight := Some(flight.(retried := true)), sent := d.sent + [flight.call])
    else d.(text := if !d.textChangedWhileSending && d.text == "" then flight.call.text else d.text,
            sending := false, textChangedWhileSending := false, error := Some(sentence), flight := None)
  }

  // ---- the controller ----

  class ComposerController {
    const guess: Guess
    var text: string
    var files: seq<Staged>
    var sending: bool
    var error: Option<string>
    var nonce: Option<string>
    var textChangedWhileSending: bool
    var nextKey: nat
    var uploads: multiset<nat>
    var aborted: set<nat>
    var flight: Option<Flight>
    var sent: seq<SendCall>

    constructor (guess: Guess)
      ensures this.guess == guess && State() == EMPTY
    {
      this.guess := guess;
      text, files, sending, error, nonce, textChangedWhileSending, nextKey := "", [], false, None, None, false, 0;
      uploads, aborted, flight, sent := multiset{}, {}, None, [];
    }

    ghost function State(): Draft
      reads this
    {
      Draft(text, files, sending, error, nonce, textChangedWhileSending, nextKey, uploads, aborted, flight, sent)
    }

    method SetText(next: string)
      modifies this
      ensures State() == Typed(old(State()), next)
    {
      if next == text {
        return;
      }
      if sending {
        textChangedWhileSending := true;
      }
      text := next;
      nonce := None;
    }

    method AddFiles(inputs: seq<FileInput>)
      modifies this
      ensures State() == WithFiles(old(State()), inputs, guess)
    {
      ghost var before := State();
      var staged := |files|;
      for i := 0 to |inputs|
        invariant staged == |files|
        invariant State() == AddAll(before, inputs[..i], guess)
      {
        assert inputs[..i + 1][..i] == inputs[..i];
        StageOne(inputs[i], staged);
        staged := staged + 1;
      }
      assert inputs[..|inputs|] == inputs;
      if |inputs| > 0 {
        nonce := None;
      }
    }

    method StageOne(input: FileInput, staged: nat)
      requires staged == |files|
      modifies this
      ensures State() == AddFile(old(State()), input, guess)
    {
      ghost var before := State();
      var refusal := IntakeRefusal(input, staged);
      nextKey := nextKey + 1;
      var file := Staged(nextKey, input, input.filename, ContentType(input, guess), if refusal.None? then Uploading else Invalid, 0.0, refusal, None);
      files := files + [file];
      if refusal.None? {
        uploads := uploads + multiset{file.key};
      }
      assert State() == before.(nextKey := nextKey, files := files, uploads := uploads);
    }

    method RemoveFile(key: nat)
      modifies this
      ensures State() == Removed(old(State()), key)
    {
      if Find(files, key).None? {
        return;
      }
      if key in uploads {
        aborted := aborted + {key};
      }
      files := Without(files, {key});
      nonce := None;
    }

    method RetryFile(key: nat)
      modifies this
      ensures State() == Retried(old(State()), key)
    {
      var file := Find(files, key);
      if file.None? || file.value.status != Failed {
        return;
      }
      files := Replace(files, key, (f: Staged) => Requeued(f));
      uploads := uploads + multiset{key};
    }

    method Send(mint: string)
      modifies this
      ensures State() == Submitted(old(State()), mint)
    {
      ghost var before := State();
      if Blank(text) || sending || !AllReady(files) {
        return;
      }
      assert CanSend(before);
      var sendNonce := if nonce.Some? then nonce.value else mint;
      nonce := Some(sendNonce);
      var call := SendCall(text, AttachmentIds(files), sendNonce);
      var sentKeys := Keys(files);
      sending := true;
      error := None;
      textChangedWhileSending := false;
      text := "";
      flight := Some(Flight(call, sentKeys, false));
      sent := sent + [call];
      assert sent == before.sent + [SendCall(before.text, AttachmentIds(before.files), sendNonce)];
      assert State() == before.(text := text, sending := sending, error := error, nonce := nonce, textChangedWhileSending := false,
                                flight := flight, sent := sent);
    }

    method OnUploaded(key: nat, uploaded: Uploaded)
      modifies this
      ensures State() == UploadResolved(old(State()), key, uploaded)
    {
      uploads := uploads - multiset{key};
      files := Replace(files, key, (f: Staged) => Stored(f, uploaded));
    }

    method OnUploadFailed(key: nat, sentence: string)
      modifies this
      ensures State() == UploadRejected(old(State()), key, sentence)
    {
      uploads := uploads - multiset{key};
      files := Replace(files, key, (f: Staged) => Refused(f, sentence));
    }

    method OnSent()
      requires flight.Some?
      modifies this
      ensures State() == SendResolved(old(State()))
    {
      files := Without(files, flight.value.keys);
      sending := false;
      textChangedWhileSending := false;
      nonce := None;
      flight := None;
    }

    method OnSendFailed(preconditionFailed: bool, sentence: string)
      requires flight.Some?
      modifies this
      ensures State() == SendRejected(old(State()), preconditionFailed, sentence)
    {
      var call := flight.value.call;
      if preconditionFailed && !flight.value.retried {
        flight := Some(flight.value.(retried := true));
        sent := sent + [call];
        return;
      }
      if !textChangedWhileSending && text == "" {
        text := call.text;
      }
      sending := false;
      textChangedWhileSending := false;
      error := Some(sentence);
      flight := None;
    }
  }

  // ---- runs ----

  datatype Action =
    | Type(next: string)
    | Stage(inputs: seq<FileInput>)
    | Remove(key: nat)
    | Retry(key: nat)
    | Submit(mint: string)
    | Report(key: nat, sentBytes: nat, totalBytes: nat)
    | Store(key: nat, uploaded: Uploaded)
    | Refuse(key: nat, sentence: string)
    | Land
    | Bounce(preconditionFailed: bool, sentence: string)

  predicate Minted(d: Draft, mint: string) {
    exists i :: 0 <= i < |d.sent| && d.sent[i].nonce == mint
  }

  /** One action; None when it cannot happen: a settlement without its request, or a nonce that
      was minted before. */
  function Act(d: Draft, a: Action, guess: Guess): Option<Draft> {
    match a
    case Type(next) => Some(Typed(d, next))
    case Stage(inputs) => Some(WithFiles(d, inputs, guess))
    case Remove(key) => Some(Removed(d, key))
    case Retry(key) => Some(Retried(d, key))
    case Submit(mint) => if Minted(d, mint) then None else Some(Submitted(d, mint))
    case Report(key, sentBytes, totalBytes) => if key in d.uploads then Some(UploadAdvanced(d, key, sentBytes, totalBytes)) else None
    case Store(key, uploaded) => if key in d.uploads then Some(UploadResolved(d, key, uploaded)) else None
    case Refuse(key, sentence) => if key in d.uploads then Some(UploadRejected(d, key, sentence)) else None
    case Land => if d.flight.Some? then Some(SendResolved(d)) else None
    case Bounce(preconditionFailed, sentence) => if d.flight.Some? then Some(SendRejected(d, preconditionFailed, sentence)) else None
  }

  function Reached(run: seq<Action>, guess: Guess): Option<Draft>
    decreases |run|
  {
    if run == [] then Some(EMPTY)
    else
      match Reached(run[..|run| - 1], guess)
      case None => None
      case Some(d) => Act(d, run[|run| - 1], guess)
  }

  // ---- the invariant, of the files and of the sends ----

  function Live(files: seq<Staged>): nat {
    if files == [] then 0 else Live(files[..|files| - 1]) + if files[|files| - 1].status == Invalid then 0 else 1
  }

  ghost predicate Ordered(files: seq<Staged>, nextKey: nat) {
    && (forall i, j :: 0 <= i < j < |files| ==> files[i].key < files[j].key)
    && (forall i :: 0 <= i < |files| ==> files[i].key <= nextKey)
  }

  ghost predicate FileOk(f: Staged, uploads: multiset<nat>) {
    && (f.status == Ready <==> f.attachmentId.Some?)
    && (f.status == Uploading <==> f.key in uploads)
    && 0.0 <= f.progress <= 1.0
  }

  /** A file a send carries is stored, and stays so. */
  ghost predicate Carried(files: seq<Staged>, uploads: multiset<nat>, keys: set<nat>, nextKey: nat) {
    && (forall k :: k in keys ==> k !in uploads && k <= nextKey)
    && (forall i :: 0 <= i < |files| && files[i].key in keys ==> files[i].status == Ready)
  }

  ghost predicate AllOk(files: seq<Staged>, uploads: multiset<nat>) {
    forall i :: 0 <= i < |files| ==> FileOk(files[i], uploads)
  }

  /** One request at most per key, each for a staged file or told to stop. */
  ghost predicate UploadsOk(uploads: multiset<nat>, nextKey: nat, known: set<nat>) {
    forall k :: k in uploads ==> uploads[k] == 1 && k <= nextKey && k in known
  }

  ghost predicate FilesInv(d: Draft) {
    && (d.flight.Some? ==> Carried(d.files, d.uploads, d.flight.value.keys, d.nextKey))
    && Ordered(d.files, d.nextKey)
    && AllOk(d.files, d.uploads)
    && UploadsOk(d.uploads, d.nextKey, Keys(d.files) + d.aborted)
    && Live(d.files) <= MAX_ATTACHMENTS_PER_MESSAGE
  }

  ghost predicate SendsAgree(sent: seq<SendCall>) {
    forall i, j :: 0 <= i < j < |sent| && sent[i].nonce == sent[j].nonce ==> sent[i] == sent[j]
  }

  ghost predicate SendInv(d: Draft) {
    && SendsAgree(d.sent)
    && (d.sending <==> d.flight.Some?)
    && (d.flight.Some? ==> d.sent != [] && d.flight.value.call == d.sent[|d.sent| - 1] && d.flight.value.call.text != "")
    && (!d.sending ==> !d.textChangedWhileSending)
    && (d.sending && !d.textChangedWhileSending ==> d.text == "")
    && (d.sending && d.textChangedWhileSending ==> d.nonce.None?)
    && (d.nonce.Some? ==>
          && d.sent != [] && d.sent[|d.sent| - 1].nonce == d.nonce.value
          && AllReady(d.files) && d.sent[|d.sent| - 1].attachmentIds == AttachmentIds(d.files)
          && (!d.sending ==> d.text == d.sent[|d.sent| - 1].text))
  }

  ghost predicate Inv(d: Draft) {
    FilesInv(d) && SendInv(d)
  }

  lemma {:induction false} WithoutMembers(files: seq<Staged>, keys: set<nat>, f: Staged)
    ensures f in Without(files, keys) <==> f in files && f.key !in keys
    decreases |files|
  {
    if files != [] {
      var init, last := files[..|files| - 1], files[|files| - 1];
      WithoutMembers(init, keys, f);
      assert files == init + [last];
    }
  }

  lemma {:induction false} WithoutKeeps(files: seq<Staged>, keys: set<nat>)
    ensures forall f :: f in Without(files, keys) <==> f in files && f.key !in keys
  {
    forall f: Staged
      ensures f in Without(files, keys) <==> f in files && f.key !in keys
    {
      WithoutMembers(files, keys, f);
    }
  }

  lemma LiveSnoc(files: seq<Staged>, f: Staged)
    ensures Live(files + [f]) == Live(files) + if f.status == Invalid then 0 else 1
    ensures Keys(files + [f]) == Keys(files) + {f.key}
  {
  }

  lemma {:induction false} WithoutLive(files: seq<Staged>, keys: set<nat>)
    ensures Live(Without(files, keys)) <= Live(files)
    decreases |files|
  {
    if files != [] {
      var rest := Without(files[..|files| - 1], keys);
      WithoutLive(files[..|files| - 1], keys);
      LiveSnoc(rest, files[|files| - 1]);
      assert rest + [] == rest;
    }
  }

  lemma {:induction false} WithoutOrdered(files: seq<Staged>, keys: set<nat>, nextKey: nat)
    requires Ordered(files, nextKey)
    ensures Ordered(Without(files, keys), nextKey)
    decreases |files|
  {
    if files != [] {
      var init, last := files[..|files| - 1], files[|files| - 1];
      WithoutOrdered(init, keys, nextKey);
      var rest := Without(init, keys);
      forall i | 0 <= i < |rest|
        ensures rest[i].key < last.key
      {
        WithoutMembers(init, keys, rest[i]);
      }
    }
  }

  lemma {:induction false} ReplaceLive(files: seq<Staged>, key: nat, update: Staged -> Staged)
    requires forall i :: 0 <= i < |files| && files[i].key == key ==> (update(files[i]).status == Invalid <==> files[i].status == Invalid)
    ensures Live(Replace(files, key, update)) == Live(files)
    decreases |files|
  {
    if files != [] {
      ReplaceLive(files[..|files| - 1], key, update);
      assert Replace(files, key, update)[..|files| - 1] == Replace(files[..|files| - 1], key, update);
    }
  }

  lemma {:induction false} LiveBounded(files: seq<Staged>)
    ensures Live(files) <= |files|
    decreases |files|
  {
    if files != [] {
      LiveBounded(files[..|files| - 1]);
    }
  }

  /** Replacing one file by one in good order keeps the files in order. */
  lemma ReplaceKeeps(d: Draft, key: nat, update: Staged -> Staged, uploads: multiset<nat>)
    requires FilesInv(d) && key in Keys(d.files)
    requires forall i :: 0 <= i < |d.files| && d.files[i].key == key ==>
               && update(d.files[i]).key == key && FileOk(update(d.files[i]), uploads)
               && (update(d.files[i]).status == Invalid <==> d.files[i].status == Invalid)
    requires d.flight.Some? ==> key !in d.flight.value.keys
    requires uploads[key] <= 1 && forall k :: k != key ==> uploads[k] == d.uploads[k]
    ensures FilesInv(d.(files := Replace(d.files, key, update), uploads := uploads))
  {
    ReplaceLive(d.files, key, update);
    ReplaceKeys(d.files, key, update);
    ReplaceFileOk(d.files, key, update, d.uploads, uploads);
  }

  lemma ReplaceKeys(files: seq<Staged>, key: nat, update: Staged -> Staged)
    requires forall i :: 0 <= i < |files| && files[i].key == key ==> update(files[i]).key == key
    ensures Keys(Replace(files, key, update)) == Keys(files)
    ensures forall i :: 0 <= i < |files| ==> Replace(files, key, update)[i].key == files[i].key
  {
  }

  lemma ReplaceFileOk(files: seq<Staged>, key: nat, update: Staged -> Staged, was: multiset<nat>, uploads: multiset<nat>)
    requires forall i :: 0 <= i < |files| ==> FileOk(files[i], was)
    requires forall i :: 0 <= i < |files| && files[i].key == key ==> FileOk(update(files[i]), uploads)
    requires forall k :: k != key ==> uploads[k] == was[k]
    ensures forall i :: 0 <= i < |files| ==> FileOk(Replace(files, key, update)[i], uploads)
  {
  }

  /** A file with a fresh key joins the list, uploading unless it was turned away. */
  lemma NewFileKeeps(d: Draft, file: Staged, uploads: multiset<nat>)
    requires FilesInv(d) && file.key == d.nextKey + 1 && file.progress == 0.0 && file.attachmentId.None?
    requires (file.status == Invalid && uploads == d.uploads) || (file.status == Uploading && uploads == d.uploads + multiset{file.key} && |d.files| < MAX_ATTACHMENTS_PER_MESSAGE)
    ensures FilesInv(d.(nextKey := file.key, files := d.files + [file], uploads := uploads))
  {
    var files := d.files + [file];
    LiveBounded(d.files);
    LiveSnoc(d.files, file);
    assert file.key !in d.uploads;
    OrderedSnoc(d.files, file);
    if d.flight.Some? {
      CarriedSnoc(d.files, file, d.uploads, uploads, d.flight.value.keys);
    }
    AllOkSnoc(d.files, file, d.uploads, uploads);
    UploadsOkSnoc(d.uploads, uploads, file.key, Keys(d.files) + d.aborted, Keys(files) + d.aborted);
    assert Live(files) <= MAX_ATTACHMENTS_PER_MESSAGE;
    Assemble(d, files, file.key, uploads);
  }

  lemma Assemble(d: Draft, files: seq<Staged>, nextKey: nat, uploads: multiset<nat>)
    requires d.flight.Some? ==> Carried(files, uploads, d.flight.value.keys, nextKey)
    requires Ordered(files, nextKey) && AllOk(files, uploads) && UploadsOk(uploads, nextKey, Keys(files) + d.aborted)
    requires Live(files) <= MAX_ATTACHMENTS_PER_MESSAGE
    ensures FilesInv(d.(nextKey := nextKey, files := files, uploads := uploads))
  {
  }

  lemma OrderedSnoc(files: seq<Staged>, file: Staged)
    requires file.key > 0 && Ordered(files, file.key - 1)
    ensures Ordered(files + [file], file.key)
  {
  }

  lemma CarriedSnoc(files: seq<Staged>, file: Staged, was: multiset<nat>, uploads: multiset<nat>, keys: set<nat>)
    requires file.key > 0 && Carried(files, was, keys, file.key - 1)
    requires forall k :: k != file.key ==> uploads[k] == was[k]
    ensures Carried(files + [file], uploads, keys, file.key)
  {
  }

  lemma AllOkSnoc(files: seq<Staged>, file: Staged, was: multiset<nat>, uploads: multiset<nat>)
    requires AllOk(files, was) && FileOk(file, uploads)
    requires forall i :: 0 <= i < |files| ==> files[i].key < file.key
    requires forall k :: k != file.key ==> uploads[k] == was[k]
    ensures AllOk(files + [file], uploads)
  {
  }

  lemma UploadsOkSnoc(was: multiset<nat>, uploads: multiset<nat>, key: nat, known: set<nat>, nowKnown: set<nat>)
    requires key > 0 && UploadsOk(was, key - 1, known) && nowKnown == known + {key}
    requires uploads == was || uploads == was + multiset{key}
    ensures UploadsOk(uploads, key, nowKnown)
  {
  }

  lemma AddFileKeeps(d: Draft, input: FileInput, guess: Guess)
    requires FilesInv(d)
    ensures FilesInv(AddFile(d, input, guess))
  {
    var t := AddFile(d, input, guess);
    NewFileKeeps(d, t.files[|d.files|], t.uploads);
  }

  lemma {:induction false} AddAllKeeps(d: Draft, inputs: seq<FileInput>, guess: Guess)
    requires FilesInv(d)
    ensures FilesInv(AddAll(d, inputs, guess))
    ensures var t := AddAll(d, inputs, guess); d == t.(files := d.files, nextKey := d.nextKey, uploads := d.uploads)
    decreases |inputs|
  {
    if inputs != [] {
      AddAllKeeps(d, inputs[..|inputs| - 1], guess);
      AddFileKeeps(AddAll(d, inputs[..|inputs| - 1], guess), inputs[|inputs| - 1], guess);
    }
  }

  lemma WithoutKeepsFiles(d: Draft, keys: set<nat>, aborted: set<nat>)
    requires FilesInv(d) && d.aborted <= aborted
    requires forall k :: k in keys && k in d.uploads ==> k in aborted
    ensures FilesInv(d.(files := Without(d.files, keys), aborted := aborted))
  {
    var rest := Without(d.files, keys);
    WithoutKeeps(d.files, keys);
    WithoutLive(d.files, keys);
    WithoutOrdered(d.files, keys, d.nextKey);
    forall i | 0 <= i < |rest|
      ensures FileOk(rest[i], d.uploads)
    {
      assert rest[i] in d.files;
    }
    forall k | k in Keys(d.files) && k !in keys
      ensures k in Keys(rest)
    {
      var f :| f in d.files && f.key == k;
      assert f in rest;
    }
  }

  /** A request under way belongs to a file that is uploading, or to none. */
  lemma UploadIsUploading(d: Draft, key: nat, i: nat)
    requires FilesInv(d) && key in d.uploads && i < |d.files| && d.files[i].key == key
    ensures d.files[i].status == Uploading && d.files[i].attachmentId.None?
  {
  }

  lemma NothingToReplace(files: seq<Staged>, key: nat, update: Staged -> Staged)
    requires key !in Keys(files)
    ensures Replace(files, key, update) == files
  {
  }

  lemma SettleKeeps(d: Draft, key: nat, update: Staged -> Staged, uploads: multiset<nat>)
    requires FilesInv(d) && key in d.uploads && (uploads == d.uploads || uploads == d.uploads - multiset{key})
    requires forall f: Staged :: f.key == key && FileOk(f, d.uploads) && f.status == Uploading ==>
               update(f).key == key && FileOk(update(f), uploads) && update(f).status != Invalid
    ensures FilesInv(d.(files := Replace(d.files, key, update), uploads := uploads))
  {
    if key in Keys(d.files) {
      forall i | 0 <= i < |d.files| && d.files[i].key == key
        ensures update(d.files[i]).key == key && FileOk(update(d.files[i]), uploads) && update(d.files[i]).status != Invalid
        ensures d.files[i].status != Invalid
      {
        UploadIsUploading(d, key, i);
      }
      ReplaceKeeps(d, key, update, uploads);
    } else {
      NothingToReplace(d.files, key, update);
      SettleUnknown(d, key, uploads);
    }
  }

  /** The request of a file that is gone settles: nothing is written. */
  lemma SettleUnknown(d: Draft, key: nat, uploads: multiset<nat>)
    requires FilesInv(d) && key !in Keys(d.files) && (uploads == d.uploads || uploads == d.uploads - multiset{key})
    ensures FilesInv(d.(uploads := uploads))
  {
  }

  lemma ReportKeeps(d: Draft, key: nat, sentBytes: nat, totalBytes: nat)
    requires FilesInv(d) && key in d.uploads
    ensures FilesInv(UploadAdvanced(d, key, sentBytes, totalBytes))
  {
    if totalBytes != 0 && sentBytes < totalBytes {
      Fraction(sentBytes, totalBytes);
    }
    SettleKeeps(d, key, (f: Staged) => Advanced(f, sentBytes, totalBytes), d.uploads);
  }

  lemma Fraction(part: nat, whole: nat)
    requires part < whole
    ensures 0.0 <= part as real / whole as real <= 1.0
  {
  }

  lemma StoreKeeps(d: Draft, key: nat, uploaded: Uploaded)
    requires FilesInv(d) && key in d.uploads
    ensures FilesInv(UploadResolved(d, key, uploaded))
  {
    SettleKeeps(d, key, (f: Staged) => Stored(f, uploaded), d.uploads - multiset{key});
  }

  lemma RefuseKeeps(d: Draft, key: nat, sentence: string)
    requires FilesInv(d) && key in d.uploads
    ensures FilesInv(UploadRejected(d, key, sentence))
  {
    SettleKeeps(d, key, (f: Staged) => Refused(f, sentence), d.uploads - multiset{key});
  }

  lemma RemoveKeeps(d: Draft, key: nat)
    requires FilesInv(d)
    ensures FilesInv(Removed(d, key))
  {
    if key in Keys(d.files) {
      WithoutKeepsFiles(d, {key}, if key in d.uploads then d.aborted + {key} else d.aborted);
    }
  }

  lemma SubmitKeeps(d: Draft, mint: string)
    requires FilesInv(d)
    ensures FilesInv(Submitted(d, mint))
  {
  }

  lemma RestKeeps(d: Draft, a: Action, guess: Guess)
    requires FilesInv(d) && Act(d, a, guess).Some? && (a.Type? || a.Bounce? || a.Submit?)
    ensures FilesInv(Act(d, a, guess).value)
  {
    match a
    case Submit(mint) => SubmitKeeps(d, mint);
    case _ =>
  }

  lemma SettlementKeeps(d: Draft, a: Action, guess: Guess)
    requires FilesInv(d) && Act(d, a, guess).Some? && (a.Report? || a.Store? || a.Refuse?)
    ensures FilesInv(Act(d, a, guess).value)
  {
    match a
    case Report(key, sentBytes, totalBytes) => ReportKeeps(d, key, sentBytes, totalBytes);
    case Store(key, uploaded) => StoreKeeps(d, key, uploaded);
    case Refuse(key, sentence) => RefuseKeeps(d, key, sentence);
  }

  lemma FilesKept(d: Draft, a: Action, guess: Guess)
    requires FilesInv(d) && SendInv(d) && Act(d, a, guess).Some?
    ensures FilesInv(Act(d, a, guess).value)
  {
    match a
    case Stage(inputs) => AddAllKeeps(d, inputs, guess);
    case Remove(key) => RemoveKeeps(d, key);
    case Retry(key) => RetryKeeps(d, key);
    case Land => LandKeeps(d);
    case Report(_, _, _) => SettlementKeeps(d, a, guess);
    case Store(_, _) => SettlementKeeps(d, a, guess);
    case Refuse(_, _) => SettlementKeeps(d, a, guess);
    case _ => RestKeeps(d, a, guess);
  }

  lemma RetryKeeps(d: Draft, key: nat)
    requires FilesInv(d)
    ensures FilesInv(Retried(d, key))
  {
    var file := Find(d.files, key);
    if file.Some? && file.value.status == Failed {
      var i :| 0 <= i < |d.files| && d.files[i] == file.value;
      assert FileOk(d.files[i], d.uploads) && d.uploads[key] == 0;
      assert forall j :: 0 <= j < |d.files| && d.files[j].key == key ==> j == i;
      ReplaceKeeps(d, key, (f: Staged) => Requeued(f), d.uploads + multiset{key});
    }
  }

  lemma LandKeeps(d: Draft)
    requires FilesInv(d) && d.flight.Some?
    ensures FilesInv(SendResolved(d))
  {
    WithoutKeepsFiles(d, d.flight.value.keys, d.aborted);
  }

  // ---- the sends ----

  lemma {:induction false} IdsOfReady(files: seq<Staged>)
    requires forall i :: 0 <= i < |files| ==> files[i].attachmentId.Some?
    ensures |AttachmentIds(files)| == |files|
    ensures forall i :: 0 <= i < |files| ==> AttachmentIds(files)[i] == files[i].attachmentId.value
    decreases |files|
  {
    if files != [] {
      IdsOfReady(files[..|files| - 1]);
    }
  }

  /** A submission under an old nonce repeats the last send; under a fresh one it stands alone. */
  lemma SubmitSends(d: Draft, mint: string)
    requires SendInv(d) && !Minted(d, mint)
    ensures SendInv(Submitted(d, mint))
  {
  }

  /** A send with a nonce still standing finds every file stored; nothing can be uploading. */
  lemma NonceFreezesFiles(d: Draft, key: nat, update: Staged -> Staged)
    requires FilesInv(d) && SendInv(d) && d.nonce.Some? && key in d.uploads
    ensures Replace(d.files, key, update) == d.files
  {
  }

  /** An upload's settlement touches no send. */
  lemma SettleSends(d: Draft, key: nat, update: Staged -> Staged, uploads: multiset<nat>)
    requires FilesInv(d) && SendInv(d) && key in d.uploads
    ensures SendInv(d.(files := Replace(d.files, key, update), uploads := uploads))
  {
    if d.nonce.Some? {
      NonceFreezesFiles(d, key, update);
    }
  }

  lemma BounceSends(d: Draft, preconditionFailed: bool, sentence: string)
    requires SendInv(d) && d.flight.Some?
    ensures SendInv(SendRejected(d, preconditionFailed, sentence))
  {
  }

  lemma EditSends(d: Draft, a: Action, guess: Guess)
    requires FilesInv(d) && SendInv(d) && (a.Type? || a.Stage? || a.Remove? || a.Retry? || a.Land?) && Act(d, a, guess).Some?
    ensures SendInv(Act(d, a, guess).value)
  {
    match a
    case Stage(inputs) => AddAllKeeps(d, inputs, guess);
    case Retry(key) =>
      var file := Find(d.files, key);
      if file.Some? && file.value.status == Failed {
        var i :| 0 <= i < |d.files| && d.files[i] == file.value;
        assert d.nonce.None?;
      }
    case _ =>
  }

  lemma SendsKept(d: Draft, a: Action, guess: Guess)
    requires FilesInv(d) && SendInv(d) && Act(d, a, guess).Some?
    ensures SendInv(Act(d, a, guess).value)
  {
    match a
    case Submit(mint) => SubmitSends(d, mint);
    case Report(key, sentBytes, totalBytes) => SettleSends(d, key, (f: Staged) => Advanced(f, sentBytes, totalBytes), d.uploads);
    case Store(key, uploaded) => SettleSends(d, key, (f: Staged) => Stored(f, uploaded), d.uploads - multiset{key});
    case Refuse(key, sentence) => SettleSends(d, key, (f: Staged) => Refused(f, sentence), d.uploads - multiset{key});
    case Bounce(preconditionFailed, sentence) => BounceSends(d, preconditionFailed, sentence);
    case _ => EditSends(d, a, guess);
  }

  lemma {:induction false} EveryDraftIsSound(run: seq<Action>, guess: Guess)
    requires Reached(run, guess).Some?
    ensures Inv(Reached(run, guess).value)
    decreases |run|
  {
    if run != [] {
      var before := run[..|run| - 1];
      EveryDraftIsSound(before, guess);
      FilesKept(Reached(before, guess).value, run[|run| - 1], guess);
      SendsKept(Reached(before, guess).value, run[|run| - 1], guess);
    }
  }

  // ---- what the composer promises ----

  /** Some run of actions ends in `d`. */
  ghost predicate Reachable(d: Draft, guess: Guess) {
    exists run :: Reached(run, guess) == Some(d)
  }

  lemma ReachableIsSound(d: Draft, guess: Guess)
    requires Reachable(d, guess)
    ensures Inv(d)
  {
    var run :| Reached(run, guess) == Some(d);
    EveryDraftIsSound(run, guess);
  }

  /** Two sends with one nonce are one message: the same text and the same attachments. */
  lemma SameNonceSameMessage(d: Draft, guess: Guess, i: nat, j: nat)
    requires Reachable(d, guess) && i < |d.sent| && j < |d.sent|
    requires d.sent[i].nonce == d.sent[j].nonce
    ensures d.sent[i] == d.sent[j]
  {
    ReachableIsSound(d, guess);
    if i < j {
      assert SendsAgree(d.sent);
    } else if j < i {
      assert SendsAgree(d.sent);
    }
  }

  /** At most a message's worth of staged files was let in, a file is ready exactly when it has
      an attachment id, it uploads exactly while its one request is under way, and a request
      whose file is gone has been told to stop. */
  lemma FilesAreAccountedFor(d: Draft, guess: Guess)
    requires Reachable(d, guess)
    ensures Live(d.files) <= MAX_ATTACHMENTS_PER_MESSAGE
    ensures forall i :: 0 <= i < |d.files| ==> (d.files[i].status == Ready <==> d.files[i].attachmentId.Some?)
    ensures forall i :: 0 <= i < |d.files| ==> (d.files[i].status == Uploading <==> d.files[i].key in d.uploads)
    ensures forall k :: k in d.uploads ==> d.uploads[k] == 1 && (k in Keys(d.files) || k in d.aborted)
  {
    ReachableIsSound(d, guess);
    assert forall i :: 0 <= i < |d.files| ==> FileOk(d.files[i], d.uploads);
  }

  /** A send leaves with one id for every staged file, in order, and with the whole text. */
  lemma SendCarriesEveryFile(d: Draft, guess: Guess, mint: string)
    requires Reachable(d, guess) && CanSend(d)
    ensures var t := Submitted(d, mint);
            && |t.sent| == |d.sent| + 1
            && t.sent[|d.sent|].text == d.text && |t.sent[|d.sent|].attachmentIds| == |d.files|
            && (forall i :: 0 <= i < |d.files| ==> Some(t.sent[|d.sent|].attachmentIds[i]) == d.files[i].attachmentId)
  {
    ReachableIsSound(d, guess);
    assert forall i :: 0 <= i < |d.files| ==> FileOk(d.files[i], d.uploads);
    IdsOfReady(d.files);
  }

  /** A send that lands removes exactly the files it carried; what was typed or staged since is
      the next draft, and the next send has a nonce of its own. */
  lemma LandingTakesOnlyItsOwn(d: Draft, guess: Guess)
    requires Reachable(d, guess) && d.flight.Some?
    ensures var t := SendResolved(d);
            && t.text == d.text && t.nonce.None? && !t.sending
            && (forall f :: f in t.files <==> f in d.files && f.key !in d.flight.value.keys)
            && (forall f :: f in d.files && f.key in d.flight.value.keys ==> f.status == Ready)
  {
    ReachableIsSound(d, guess);
    WithoutKeeps(d.files, d.flight.value.keys);
  }

  /** A send that fails puts its text back exactly when the text was not edited meanwhile, and
      then, if the files were not either, sending again repeats it under its nonce. */
  lemma FailureRestoresTheDraft(d: Draft, guess: Guess, sentence: string, mint: string)
    requires Reachable(d, guess) && d.flight.Some?
    ensures var t := SendRejected(d, false, sentence);
            && (!d.textChangedWhileSending ==> t.text == d.flight.value.call.text)
            && (d.textChangedWhileSending ==> t.text == d.text)
            && t.files == d.files
            && (d.nonce.Some? ==> CanSend(t) ==> Submitted(t, mint).sent == d.sent + [d.flight.value.call])
  {
    ReachableIsSound(d, guess);
  }

  // ---- what each action writes ----

  /** Nothing is typed, put back or taken away in these steps. */
  predicate LeavesText(a: Action) {
    !a.Type? && !a.Submit? && !a.Bounce?
  }

  lemma {:induction false} AddAllLeavesText(d: Draft, inputs: seq<FileInput>, guess: Guess)
    ensures AddAll(d, inputs, guess).text == d.text
    decreases |inputs|
  {
    if inputs != [] {
      AddAllLeavesText(d, inputs[..|inputs| - 1], guess);
    }
  }

  /** What was typed last stands until it is sent, and goes out whole. */
  lemma {:induction false} WhatWasTypedIsSent(run: seq<Action>, next: string, more: seq<Action>, guess: Guess, mint: string)
    requires Reached(run + [Type(next)] + more, guess).Some? && forall i :: 0 <= i < |more| ==> LeavesText(more[i])
    ensures var d := Reached(run + [Type(next)] + more, guess).value;
            && d.text == next
            && (CanSend(d) ==> Submitted(d, mint).sent == d.sent + [Submitted(d, mint).flight.value.call] && Submitted(d, mint).flight.value.call.text == next)
    decreases |more|
  {
    var whole := run + [Type(next)] + more;
    if more == [] {
      assert whole[..|whole| - 1] == run;
    } else {
      assert whole[..|whole| - 1] == run + [Type(next)] + more[..|more| - 1];
      WhatWasTypedIsSent(run, next, more[..|more| - 1], guess, mint);
      var before, a := Reached(whole[..|whole| - 1], guess).value, more[|more| - 1];
      assert whole[|whole| - 1] == a && LeavesText(a);
      if a.Stage? {
        AddAllLeavesText(before, a.inputs, guess);
      }
    }
  }

  /** Typing changes the text alone; a text that differs ends the nonce, and is noted while a send
      is under way. */
  lemma TypingChangesTheText(d: Draft, next: string, guess: Guess)
    ensures var t := Act(d, Type(next), guess).value;
            && t == d.(text := next, nonce := t.nonce, textChangedWhileSending := t.textChangedWhileSending)
            && t.nonce == (if d.text == next then d.nonce else None)
            && (t.textChangedWhileSending <==> d.textChangedWhileSending || (d.sending && d.text != next))
  {
    assert Act(d, Type(next), guess) == Some(Typed(d, next));
  }

  /** The row of the `n`th file offered: refused over 8 MB and past eight files, else uploading. */
  ghost predicate Offered(f: Staged, input: FileInput, guess: Guess, staged: nat, key: nat) {
    && f.input == input && f.filename == input.filename && f.key == key && f.progress == 0.0 && f.attachmentId.None?
    && f.contentType == (if forall i :: 0 <= i < |input.contentType| ==> Space(input.contentType[i]) then guess(input.filename) else Trim(input.contentType))
    && (f.status == Invalid <==> input.sizeBytes > 8_388_608 || staged >= 8)
    && (f.status == Uploading <==> input.sizeBytes <= 8_388_608 && staged < 8)
    && f.detail == (if input.sizeBytes > 8_388_608 then Some("Too large — the limit is 8 MB.")
                    else if staged >= 8 then Some("A message carries at most 8 files.") else None)
  }

  lemma StagesOne(d: Draft, input: FileInput, guess: Guess)
    ensures var t := AddFile(d, input, guess);
            && |t.files| == |d.files| + 1 && t.files[..|d.files|] == d.files
            && Offered(t.files[|d.files|], input, guess, |d.files|, d.nextKey + 1)
            && t.uploads == d.uploads + (if t.files[|d.files|].status == Uploading then multiset{d.nextKey + 1} else multiset{})
            && t == d.(nextKey := d.nextKey + 1, files := t.files, uploads := t.uploads)
  {
    BlankIsAllSpace(input.contentType);
  }

  lemma {:induction false} StagesAll(d: Draft, inputs: seq<FileInput>, guess: Guess)
    ensures var t := AddAll(d, inputs, guess);
            && |t.files| == |d.files| + |inputs| && t.files[..|d.files|] == d.files && t.nextKey == d.nextKey + |inputs|
            && (forall i :: 0 <= i < |inputs| ==> Offered(t.files[|d.files| + i], inputs[i], guess, |d.files| + i, d.nextKey + 1 + i))
            && t == d.(nextKey := t.nextKey, files := t.files, uploads := t.uploads)
    decreases |inputs|
  {
    if inputs != [] {
      var init, n := inputs[..|inputs| - 1], |inputs| - 1;
      StagesAll(d, init, guess);
      var before, t := AddAll(d, init, guess), AddAll(d, inputs, guess);
      StagesOne(before, inputs[n], guess);
      forall i | 0 <= i < |inputs|
        ensures Offered(t.files[|d.files| + i], inputs[i], guess, |d.files| + i, d.nextKey + 1 + i)
      {
        if i < n {
          assert t.files[|d.files| + i] == before.files[|d.files| + i] && inputs[i] == init[i];
        } else {
          assert i == n && |before.files| == |d.files| + i && before.nextKey + 1 == d.nextKey + 1 + i;
        }
      }
    }
  }

  /** Every file offered gets a row after those there are, in the order offered; nothing is
      dropped silently, and a changed set of files ends the nonce. */
  lemma EveryFileIsStaged(d: Draft, inputs: seq<FileInput>, guess: Guess)
    ensures var t := Act(d, Stage(inputs), guess).value;
            && |t.files| == |d.files| + |inputs| && t.files[..|d.files|] == d.files
            && (forall i :: 0 <= i < |inputs| ==> Offered(t.files[|d.files| + i], inputs[i], guess, |d.files| + i, d.nextKey + 1 + i))
            && t.nonce == (if inputs == [] then d.nonce else None)
            && t == d.(nextKey := t.nextKey, files := t.files, uploads := t.uploads, nonce := t.nonce)
  {
    assert Act(d, Stage(inputs), guess) == Some(WithFiles(d, inputs, guess));
    StagesAll(d, inputs, guess);
  }

  /** An upload's answer is written to its file alone, and its request is over. */
  lemma UploadIsAnswered(d: Draft, a: Action, guess: Guess, i: nat)
    requires (a.Store? || a.Refuse?) && a.key in d.uploads && i < |d.files|
    ensures var t := Act(d, a, guess).value;
            && t == d.(files := t.files, uploads := d.uploads - multiset{a.key}) && |t.files| == |d.files|
            && (d.files[i].key != a.key ==> t.files[i] == d.files[i])
            && (d.files[i].key == a.key && a.Store? ==>
                  t.files[i] == Staged(a.key, d.files[i].input, a.uploaded.filename, a.uploaded.contentType, Ready, 1.0, None, Some(a.uploaded.id)))
            && (d.files[i].key == a.key && a.Refuse? ==> t.files[i] == d.files[i].(status := Failed, detail := Some(a.sentence)))
  {
    if a.Store? {
      assert Act(d, a, guess) == Some(UploadResolved(d, a.key, a.uploaded));
    } else {
      assert Act(d, a, guess) == Some(UploadRejected(d, a.key, a.sentence));
    }
  }

  /** Progress is the part that was sent, at most the whole; nothing else moves. */
  lemma ProgressIsTheSentPart(d: Draft, key: nat, sentBytes: nat, totalBytes: nat, guess: Guess, i: nat)
    requires key in d.uploads && i < |d.files|
    ensures var t := Act(d, Report(key, sentBytes, totalBytes), guess).value;
            && t == d.(files := t.files) && |t.files| == |d.files|
            && t.files[i] == d.files[i].(progress := t.files[i].progress)
            && (d.files[i].key != key || totalBytes == 0 ==> t.files[i] == d.files[i])
            && (d.files[i].key == key && totalBytes > 0 ==>
                  t.files[i].progress * totalBytes as real == (if sentBytes < totalBytes then sentBytes else totalBytes) as real)
  {
    assert Act(d, Report(key, sentBytes, totalBytes), guess) == Some(UploadAdvanced(d, key, sentBytes, totalBytes));
  }

  /** A retry uploads a failed file afresh and touches no other. */
  lemma RetryUploadsAFailedFile(d: Draft, key: nat, guess: Guess, i: nat)
    requires Reachable(d, guess) && i < |d.files|
    ensures var t := Act(d, Retry(key), guess).value;
            && |t.files| == |d.files| && t == d.(files := t.files, uploads := t.uploads)
            && (d.files[i].key != key ==> t.files[i] == d.files[i])
            && (d.files[i].key == key && d.files[i].status != Failed ==> t == d)
            && (d.files[i].key == key && d.files[i].status == Failed ==>
                  && t.files[i] == d.files[i].(status := Uploading, progress := 0.0, detail := None)
                  && t.uploads == d.uploads + multiset{key})
  {
    ReachableIsSound(d, guess);
    var found := Find(d.files, key);
    if found.Some? {
      var j :| 0 <= j < |d.files| && d.files[j] == found.value;
      assert d.files[i].key == key ==> i == j;
    }
  }

  lemma {:induction false} WithoutJoins(a: seq<Staged>, b: seq<Staged>, keys: set<nat>)
    ensures Without(a + b, keys) == Without(a, keys) + Without(b, keys)
    decreases |b|
  {
    if b == [] {
      assert a + b == a;
    } else {
      assert (a + b)[..|a + b| - 1] == a + b[..|b| - 1];
      WithoutJoins(a, b[..|b| - 1], keys);
    }
  }

  lemma OthersHaveOtherKeys(files: seq<Staged>, a: seq<Staged>, f: Staged, b: seq<Staged>, nextKey: nat)
    requires Ordered(files, nextKey) && files == a + [f] + b
    ensures forall g :: g in a ==> g.key !in {f.key}
    ensures forall g :: g in b ==> g.key !in {f.key}
  {
    assert files[|a|] == f;
    forall g | g in a
      ensures g.key != f.key
    {
      var i :| 0 <= i < |a| && a[i] == g;
      assert files[i] == g;
    }
    forall g | g in b
      ensures g.key != f.key
    {
      var i :| 0 <= i < |b| && b[i] == g;
      assert files[|a| + 1 + i] == g;
    }
  }

  lemma WithoutOne(files: seq<Staged>, a: seq<Staged>, f: Staged, b: seq<Staged>, nextKey: nat)
    requires Ordered(files, nextKey) && files == a + [f] + b
    ensures Without(files, {f.key}) == a + b
  {
    OthersHaveOtherKeys(files, a, f, b, nextKey);
    WithoutJoins(a + [f], b, {f.key});
    WithoutJoins(a, [f], {f.key});
    WithoutNothing(a, {f.key});
    WithoutNothing(b, {f.key});
    assert [f][..0] == [] && a + [] == a;
  }

  /** Removing takes out the file with that key, leaves the rest in their order, and stops the
      upload under way. */
  lemma RemovalTakesOneFile(d: Draft, a: seq<Staged>, f: Staged, b: seq<Staged>, guess: Guess)
    requires Reachable(d, guess) && d.files == a + [f] + b
    ensures Act(d, Remove(f.key), guess) ==
            Some(d.(files := a + b, nonce := None, aborted := d.aborted + (if f.status == Uploading then {f.key} else {})))
  {
    ReachableIsSound(d, guess);
    WithoutOne(d.files, a, f, b, d.nextKey);
    assert f == d.files[|a|] && FileOk(f, d.uploads);
    assert Removed(d, f.key).aborted == d.aborted + (if f.status == Uploading then {f.key} else {});
  }

  lemma {:induction false} WithoutNothing(files: seq<Staged>, keys: set<nat>)
    requires forall f :: f in files ==> f.key !in keys
    ensures Without(files, keys) == files
    decreases |files|
  {
    if files != [] {
      WithoutNothing(files[..|files| - 1], keys);
    }
  }

  /** The send goes out exactly when there is text, no send is under way and every file is
      stored; it keeps the nonce the draft has, and empties the text alone. */
  lemma SendsWhen(d: Draft, mint: string, guess: Guess)
    requires !Minted(d, mint)
    ensures var t := Act(d, Submit(mint), guess).value;
            && (t != d <==> (exists i :: 0 <= i < |d.text| && !Space(d.text[i])) && !d.sending && forall f :: f in d.files ==> f.status == Ready)
            && (t != d ==>
                  && t.flight.Some? && t.sent == d.sent + [t.flight.value.call] && t.sending
                  && t.nonce == Some(t.flight.value.call.nonce) && t.flight.value.call.nonce == (if d.nonce.Some? then d.nonce.value else mint)
                  && !t.flight.value.retried && (forall k :: k in t.flight.value.keys <==> exists f :: f in d.files && f.key == k)
                  && t.text == "" && t.error.None? && !t.textChangedWhileSending
                  && t.files == d.files && t.uploads == d.uploads && t.aborted == d.aborted && t.nextKey == d.nextKey)
  {
    BlankIsAllSpace(d.text);
    assert AllReady(d.files) <==> forall f :: f in d.files ==> f.status == Ready;
  }

  /** A send whose run had ended goes out once more as it was; any other refusal, and a second
      one, ends it with its sentence. */
  lemma OneRetry(d: Draft, ended: bool, sentence: string, guess: Guess)
    requires Reachable(d, guess) && d.flight.Some?
    ensures var t := Act(d, Bounce(ended, sentence), guess).value; var flight := d.flight.value;
            && (ended && !flight.retried ==> t == d.(flight := Some(Flight(flight.call, flight.keys, true)), sent := d.sent + [flight.call]))
            && (!ended || flight.retried ==>
                  t == d.(text := if d.textChangedWhileSending then d.text else flight.call.text,
                          sending := false, textChangedWhileSending := false, error := Some(sentence), flight := None))
  {
    ReachableIsSound(d, guess);
  }
}
