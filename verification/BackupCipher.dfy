/**
 * The encrypted backup object: its header, its 64 KiB records, and what a reader makes of
 * an arbitrary byte stream (apps/backup/src/cipher.ts).
 *
 * AES-256-GCM and HKDF are values of the datatype `Crypto`. Nothing is assumed about them
 * globally: a lemma that needs a fact about them says so in its `requires`.
 */
module BackupCipher {
  import opened ByteStreams

  const MAGIC: Bytes := [80, 66, 66, 75]
  const STREAM_VERSION: byte := 1
  const SALT_BYTES := 16
  const PREFIX_BYTES := 8
  const TAG_BYTES := 16
  const CHUNK_BYTES := 65536

  /** HKDF (master key, salt), and GCM seal and open over (key, nonce, aad, text). */
  datatype Crypto = Crypto(
    derive: (Bytes, Bytes) -> Bytes,
    seal: (Bytes, Bytes, Bytes, Bytes) -> Bytes,
    open: (Bytes, Bytes, Bytes, Bytes) -> Option<Bytes>)

  /** What GCM guarantees an honest reader: the tag adds 16 bytes and the text comes back. */
  ghost predicate Correct(c: Crypto) {
    forall k, n, a, p ::
      |c.seal(k, n, a, p)| == |p| + TAG_BYTES && c.open(k, n, a, c.seal(k, n, a, p)) == Some(p)
  }

  predicate IdByte(b: byte) {
    48 <= b <= 57 || 65 <= b <= 90 || 97 <= b <= 122 || b == 95 || b == 45
  }

  /** `keyIdPatternSafe`: 1 to 32 letters, digits, `_` or `-`. */
  predicate SafeKeyId(id: Bytes) {
    1 <= |id| <= 32 && forall i :: 0 <= i < |id| ==> IdByte(id[i])
  }

  /** One object as the writer makes it: the key it is written under, its fresh salt and
      nonce prefix, and the plaintext. */
  datatype BackupObject = BackupObject(keyId: Bytes, masterKey: Bytes, salt: Bytes, prefix: Bytes, plain: Bytes) {
    predicate WellFormed() {
      SafeKeyId(keyId) && |salt| == SALT_BYTES && |prefix| == PREFIX_BYTES && Terminal() < MAX_UINT32
    }

    function Header(): Bytes {
      MAGIC + [STREAM_VERSION, |keyId| % 256] + keyId + salt + prefix
    }

    function DataKey(c: Crypto): Bytes {
      c.derive(masterKey, salt)
    }

    /** How many data records the plaintext needs; also the terminal record's counter. */
    function Terminal(): nat {
      (|plain| + CHUNK_BYTES - 1) / CHUNK_BYTES
    }

    /** Where record `i` starts in the plaintext. */
    function Start(i: nat): nat {
      if i * CHUNK_BYTES <= |plain| then i * CHUNK_BYTES else |plain|
    }

    /** The plaintext of record `i`; the terminal record's is empty. */
    function Slice(i: nat): (p: Bytes)
      requires i <= Terminal()
      ensures |p| <= CHUNK_BYTES
      ensures |p| == 0 <==> i == Terminal()
    {
      plain[Start(i)..Start(i + 1)]
    }

    /** The plaintext chunks a complete read yields from record `i` on. */
    function Slices(i: nat): (s: seq<Bytes>)
      requires i <= Terminal()
      ensures |s| == Terminal() - i
      ensures forall j :: 0 <= j < |s| ==> s[j] == Slice(i + j)
      decreases Terminal() - i
    {
      if i == Terminal() then [] else [Slice(i)] + Slices(i + 1)
    }

    function RecordAt(c: Crypto, i: nat): Bytes
      requires i <= Terminal() && i < MAX_UINT32
    {
      EncryptRecord(c, DataKey(c), Header(), prefix, i, i == Terminal(), Slice(i))
    }

    /** The ciphertext from record `i` to the end of the object. */
    function Tail(c: Crypto, i: nat): Bytes
      requires WellFormed() && i <= Terminal() + 1
      decreases Terminal() + 1 - i
    {
      if i == Terminal() + 1 then [] else RecordAt(c, i) + Tail(c, i + 1)
    }

    /** The whole object, byte for byte. */
    function Encode(c: Crypto): Bytes
      requires WellFormed()
    {
      Header() + Tail(c, 0)
    }
  }

  function RecordAad(header: Bytes, counter: nat, final: bool): Bytes
    requires counter < MAX_UINT32
  {
    header + (BigEndian(counter) + [if final then 1 else 0])
  }

  function NonceFor(prefix: Bytes, counter: nat): Bytes
    requires counter < MAX_UINT32
  {
    prefix + BigEndian(counter)
  }

  function EncryptRecord(c: Crypto, key: Bytes, header: Bytes, prefix: Bytes, counter: nat, final: bool, plain: Bytes): Bytes
    requires counter < MAX_UINT32 && |plain| <= CHUNK_BYTES
  {
    BigEndian(|plain|) + c.seal(key, NonceFor(prefix, counter), RecordAad(header, counter, final), plain)
  }

  // ---- what a reader makes of a flat byte stream ----

  datatype Reason =
    | Truncated | SourceFailed | BadMagic | UnknownVersion | NoUsableKey | UnsafeKeyId | UnknownKey
    | OversizedRecord | NotAuthentic | CounterOverflow | TrailingBytes

  datatype Ending = Complete | Failed(reason: Reason)

  /** What a generator hands its caller: the chunks it yielded, then how it ended. */
  datatype Reading = Reading(yielded: seq<Bytes>, ending: Ending)

  function Short(sourceFails: bool): Reason {
    if sourceFails then SourceFailed else Truncated
  }

  function Refuse(reason: Reason): Reading {
    Reading([], Failed(reason))
  }

  /** The first record of `rest` has a plausible length and is all there. */
  predicate Framed(rest: Bytes) {
    |rest| >= 4 && FromBigEndian(rest[..4]) <= CHUNK_BYTES && |rest| >= 4 + FromBigEndian(rest[..4]) + TAG_BYTES
  }

  function FrameLength(rest: Bytes): (n: nat)
    requires Framed(rest)
    ensures n <= |rest|
  {
    4 + FromBigEndian(rest[..4]) + TAG_BYTES
  }

  /** Opening the first record of `rest` as record `counter`; length 0 means terminal. */
  function OpenRecord(c: Crypto, key: Bytes, header: Bytes, prefix: Bytes, counter: nat, rest: Bytes): Option<Bytes>
    requires Framed(rest) && counter < MAX_UINT32
  {
    c.open(key, NonceFor(prefix, counter), RecordAad(header, counter, FromBigEndian(rest[..4]) == 0), rest[4..FrameLength(rest)])
  }

  /** The record loop, from record `counter` with `rest` still to be read. */
  function ReadRecords(c: Crypto, key: Bytes, header: Bytes, prefix: Bytes, counter: nat, rest: Bytes, sourceFails: bool): Reading
    decreases |rest|
  {
    if |rest| < 4 then Refuse(Short(sourceFails))
    else if FromBigEndian(rest[..4]) > CHUNK_BYTES then Refuse(OversizedRecord)
    else if !Framed(rest) then Refuse(Short(sourceFails))
    else if counter >= MAX_UINT32 then Refuse(CounterOverflow)
    else
      var text := OpenRecord(c, key, header, prefix, counter, rest);
      if text.None? then Refuse(NotAuthentic)
      else if FromBigEndian(rest[..4]) == 0 then
        if sourceFails then Refuse(SourceFailed)
        else if |rest| > FrameLength(rest) then Refuse(TrailingBytes)
        else Reading([], Complete)
      else
        var after := ReadRecords(c, key, header, prefix, counter + 1, rest[FrameLength(rest)..], sourceFails);
        Reading([text.value] + after.yielded, after.ending)
  }

  /** What the header tells the record loop. */
  datatype HeaderFields = HeaderFields(id: Bytes, salt: Bytes, prefix: Bytes, header: Bytes)

  /** The reader's checks before its first record, in its order. */
  function ParseHeader(keyring: map<Bytes, Bytes>, s: Bytes, sourceFails: bool): (h: Result<HeaderFields, Reason>)
    ensures h.Success? ==> h.value.id in keyring && HeaderLength(|h.value.id|) <= |s|
  {
    if |s| < 6 then Failure(Short(sourceFails))
    else if s[..4] != MAGIC then Failure(BadMagic)
    else if s[4] != STREAM_VERSION then Failure(UnknownVersion)
    else
      var n := s[5];
      if n == 0 || n > 32 then Failure(NoUsableKey)
      else if |s| < 6 + n then Failure(Short(sourceFails))
      else
        var id := s[6..6 + n];
        if !SafeKeyId(id) then Failure(UnsafeKeyId)
        else if id !in keyring then Failure(UnknownKey)
        else if |s| < HeaderLength(n) then Failure(Short(sourceFails))
        else Success(HeaderFields(id, s[6 + n..6 + n + SALT_BYTES], s[6 + n + SALT_BYTES..HeaderLength(n)], s[..HeaderLength(n)]))
  }

  /** The whole reader over the concatenated stream; `sourceFails` says the source throws
      where a healthy one would end. */
  function ReadStream(c: Crypto, keyring: map<Bytes, Bytes>, s: Bytes, sourceFails: bool): Reading {
    match ParseHeader(keyring, s, sourceFails)
    case Failure(reason) => Refuse(reason)
    case Success(f) =>
      ReadRecords(c, c.derive(keyring[f.id], f.salt), f.header, f.prefix, 0, s[HeaderLength(|f.id|)..], sourceFails)
  }

  function HeaderLength(keyIdLength: nat): nat {
    6 + keyIdLength + SALT_BYTES + PREFIX_BYTES
  }

  // ---- round trip ----

  /** The keyring opens what `o` was written under. */
  predicate Holds(c: Crypto, keyring: map<Bytes, Bytes>, o: BackupObject) {
    o.keyId in keyring && c.derive(keyring[o.keyId], o.salt) == o.DataKey(c)
  }

  lemma {:induction false} SlicesConcat(o: BackupObject, i: nat)
    requires i <= o.Terminal()
    ensures Concat(o.Slices(i)) == o.plain[o.Start(i)..]
    decreases o.Terminal() - i
  {
    if i < o.Terminal() {
      SlicesConcat(o, i + 1);
      assert o.Slices(i)[1..] == o.Slices(i + 1);
      assert o.plain[o.Start(i)..] == o.Slice(i) + o.plain[o.Start(i + 1)..];
    }
  }

  /** A tail opens with the frame of its first record. */
  lemma TailLayout(c: Crypto, o: BackupObject, i: nat)
    requires Correct(c) && o.WellFormed() && i <= o.Terminal()
    ensures var tail, p := o.Tail(c, i), o.Slice(i);
            && |tail| >= 4 && FromBigEndian(tail[..4]) == |p| && Framed(tail) && FrameLength(tail) == 4 + |p| + TAG_BYTES
            && tail[FrameLength(tail)..] == o.Tail(c, i + 1)
            && OpenRecord(c, o.DataKey(c), o.Header(), o.prefix, i, tail) == Some(p)
  {
    var tail, p := o.Tail(c, i), o.Slice(i);
    BigEndianRoundTrip(|p|);
    assert tail[..4] == BigEndian(|p|);
    assert tail[4..4 + |p| + TAG_BYTES] == c.seal(o.DataKey(c), NonceFor(o.prefix, i), RecordAad(o.Header(), i, i == o.Terminal()), p);
    assert tail[4 + |p| + TAG_BYTES..] == o.Tail(c, i + 1);
  }

  lemma {:induction false} ReadTail(c: Crypto, o: BackupObject, i: nat)
    requires Correct(c) && o.WellFormed() && i <= o.Terminal()
    ensures ReadRecords(c, o.DataKey(c), o.Header(), o.prefix, i, o.Tail(c, i), false) == Reading(o.Slices(i), Complete)
    decreases o.Terminal() - i
  {
    TailLayout(c, o, i);
    if i == o.Terminal() {
      assert o.Tail(c, i + 1) == [];
    } else {
      ReadTail(c, o, i + 1);
    }
  }

  /** Header fields sit where the reader looks for them. */
  lemma HeaderLayout(o: BackupObject, rest: Bytes)
    requires o.WellFormed()
    ensures var s, n := o.Header() + rest, |o.keyId|;
            && |o.Header()| == HeaderLength(n)
            && s[..4] == MAGIC && s[4] == STREAM_VERSION && s[5] == n
            && s[6..6 + n] == o.keyId
            && s[6 + n..6 + n + SALT_BYTES] == o.salt
            && s[6 + n + SALT_BYTES..HeaderLength(n)] == o.prefix
            && s[..HeaderLength(n)] == o.Header()
            && s[HeaderLength(n)..] == rest
  {
  }

  lemma HeaderNamesObject(o: BackupObject, s: Bytes)
    requires o.WellFormed() && 6 <= |s| && HeaderLength(s[5]) <= |s| && s[..HeaderLength(s[5])] == o.Header()
    ensures s[6..6 + s[5]] == o.keyId && s[6 + s[5]..6 + s[5] + SALT_BYTES] == o.salt
  {
  }

  /** Decrypting what was encrypted yields the plaintext and ends normally. */
  lemma RoundTrip(c: Crypto, keyring: map<Bytes, Bytes>, o: BackupObject)
    requires Correct(c) && o.WellFormed() && Holds(c, keyring, o)
    ensures ReadStream(c, keyring, o.Encode(c), false) == Reading(o.Slices(0), Complete)
    ensures Concat(o.Slices(0)) == o.plain
  {
    HeaderLayout(o, o.Tail(c, 0));
    ReadTail(c, o, 0);
    SlicesConcat(o, 0);
  }

  // ---- exact size and distinct nonces ----

  lemma {:induction false} TailLength(c: Crypto, o: BackupObject, i: nat)
    requires Correct(c) && o.WellFormed() && i <= o.Terminal()
    ensures |o.Tail(c, i)| == |Concat(o.Slices(i))| + (4 + TAG_BYTES) * (o.Terminal() + 1 - i)
    decreases o.Terminal() - i
  {
    if i < o.Terminal() {
      TailLength(c, o, i + 1);
      assert o.Slices(i)[1..] == o.Slices(i + 1);
    }
  }

  /** 30 + |keyId| + n + 20 * (ceil(n / 65536) + 1) bytes, whatever the content. */
  lemma EncodedSize(c: Crypto, o: BackupObject)
    requires Correct(c) && o.WellFormed()
    ensures |o.Encode(c)| == 30 + |o.keyId| + |o.plain| + 20 * ((|o.plain| + 65535) / 65536 + 1)
  {
    TailLength(c, o, 0);
    SlicesConcat(o, 0);
  }

  /** No two records of one object share a nonce. */
  lemma NoncesDistinct(prefix: Bytes, i: nat, j: nat)
    requires i < MAX_UINT32 && j < MAX_UINT32 && NonceFor(prefix, i) == NonceFor(prefix, j)
    ensures i == j
  {
    BigEndianRoundTrip(i);
    BigEndianRoundTrip(j);
    assert NonceFor(prefix, i)[|prefix|..] == BigEndian(i);
    assert NonceFor(prefix, j)[|prefix|..] == BigEndian(j);
  }

  // ---- authenticity: what any byte stream at all can make the reader do ----

  /** (k, nonce, aad, body) is what sealing record `i` of `o` produced. */
  ghost predicate SealedBy(c: Crypto, o: BackupObject, i: nat, k: Bytes, n: Bytes, a: Bytes, body: Bytes) {
    && i <= o.Terminal() && i < MAX_UINT32
    && k == o.DataKey(c)
    && n == NonceFor(o.prefix, i)
    && a == RecordAad(o.Header(), i, i == o.Terminal())
    && body == c.seal(k, n, a, o.Slice(i))
  }

  /** The stream holds no forgery: whatever piece of it opens under a key the keyring can
      derive was sealed when one of `written` was written. */
  ghost predicate NoForgery(c: Crypto, written: set<BackupObject>, keyring: map<Bytes, Bytes>, s: Bytes) {
    forall id, salt, n, a, lo: nat, hi: nat {:trigger c.open(c.derive(keyring[id], salt), n, a, s[lo..hi])} ::
      id in keyring && lo <= hi <= |s| && c.open(c.derive(keyring[id], salt), n, a, s[lo..hi]).Some? ==>
        exists o, i: nat :: o in written && SealedBy(c, o, i, c.derive(keyring[id], salt), n, a, s[lo..hi])
  }

  /** Fresh salts and prefixes: a header names one object. */
  ghost predicate DistinctHeaders(written: set<BackupObject>) {
    forall o, o' :: o in written && o' in written && o.Header() == o'.Header() ==> o == o'
  }

  ghost predicate Honest(c: Crypto, written: set<BackupObject>, keyring: map<Bytes, Bytes>, s: Bytes) {
    && Correct(c)
    && (forall o :: o in written ==> o.WellFormed())
    && DistinctHeaders(written)
    && NoForgery(c, written, keyring, s)
  }

  lemma AadInjective(h: Bytes, i: nat, f: bool, h': Bytes, i': nat, f': bool)
    requires i < MAX_UINT32 && i' < MAX_UINT32 && RecordAad(h, i, f) == RecordAad(h', i', f')
    ensures h == h' && i == i' && f == f'
  {
    var a := RecordAad(h, i, f);
    BigEndianRoundTrip(i);
    BigEndianRoundTrip(i');
    assert |h| == |h'|;
    assert h == a[..|h|] == h';
    assert BigEndian(i) == a[|h|..|h| + 4] == BigEndian(i');
    assert a[|h| + 4] == if f then 1 else 0;
  }

  /** A record of `rest` that opens as record `counter` under `o`'s header is that record. */
  ghost predicate IsRecord(c: Crypto, key: Bytes, header: Bytes, prefix: Bytes, counter: nat, rest: Bytes, o: BackupObject)
    requires Framed(rest) && counter < MAX_UINT32
  {
    && o.Header() == header && key == o.DataKey(c) && counter <= o.Terminal()
    && (FromBigEndian(rest[..4]) == 0 <==> counter == o.Terminal())
    && rest[..FrameLength(rest)] == o.RecordAt(c, counter)
    && OpenRecord(c, key, header, prefix, counter, rest) == Some(o.Slice(counter))
  }

  lemma OpenedRecord(c: Crypto, written: set<BackupObject>, keyring: map<Bytes, Bytes>, s: Bytes, off: nat,
                     id: Bytes, salt: Bytes, header: Bytes, prefix: Bytes, counter: nat) returns (o: BackupObject)
    requires Honest(c, written, keyring, s) && id in keyring && off <= |s| && counter < MAX_UINT32
    requires Framed(s[off..]) && OpenRecord(c, c.derive(keyring[id], salt), header, prefix, counter, s[off..]).Some?
    ensures o in written && IsRecord(c, c.derive(keyring[id], salt), header, prefix, counter, s[off..], o)
  {
    var rest := s[off..];
    var length := FromBigEndian(rest[..4]);
    var k, n, a := c.derive(keyring[id], salt), NonceFor(prefix, counter), RecordAad(header, counter, length == 0);
    var body := s[off + 4..off + FrameLength(rest)];
    assert rest[4..FrameLength(rest)] == body;
    var w, i: nat :| w in written && SealedBy(c, w, i, k, n, a, body);
    o := w;
    AadInjective(header, counter, length == 0, o.Header(), i, i == o.Terminal());
    BigEndianOnto(rest[..4]);
    assert rest[..FrameLength(rest)] == rest[..4] + body;
  }

  /** Everything in `s` that opens under `o`'s header is a record of `o` at its own place. */
  ghost predicate OnlyRecordsOf(c: Crypto, key: Bytes, prefix: Bytes, s: Bytes, o: BackupObject) {
    forall off: nat, counter: nat {:trigger OpenRecord(c, key, o.Header(), prefix, counter, s[off..])} ::
      off <= |s| && Framed(s[off..]) && counter < MAX_UINT32 && OpenRecord(c, key, o.Header(), prefix, counter, s[off..]).Some? ==>
        IsRecord(c, key, o.Header(), prefix, counter, s[off..], o)
  }

  lemma HeaderFixesObject(c: Crypto, written: set<BackupObject>, keyring: map<Bytes, Bytes>, s: Bytes,
                          id: Bytes, salt: Bytes, prefix: Bytes, o: BackupObject)
    requires Honest(c, written, keyring, s) && id in keyring && o in written
    ensures OnlyRecordsOf(c, c.derive(keyring[id], salt), prefix, s, o)
  {
    var key := c.derive(keyring[id], salt);
    forall off: nat, counter: nat | off <= |s| && Framed(s[off..]) && counter < MAX_UINT32 && OpenRecord(c, key, o.Header(), prefix, counter, s[off..]).Some?
      ensures IsRecord(c, key, o.Header(), prefix, counter, s[off..], o)
    {
      var w := OpenedRecord(c, written, keyring, s, off, id, salt, o.Header(), prefix, counter);
      assert w == o;
    }
  }

  /** `r` replays `o` from record `counter` over `rest`: a prefix, and all of it on success. */
  ghost predicate Replays(c: Crypto, o: BackupObject, counter: nat, rest: Bytes, sourceFails: bool, r: Reading)
    requires o.WellFormed() && counter <= o.Terminal()
  {
    && r.yielded <= o.Slices(counter)
    && (r.ending.Complete? ==> rest == o.Tail(c, counter) && r.yielded == o.Slices(counter) && !sourceFails)
  }

  lemma ReplayStep(c: Crypto, key: Bytes, prefix: Bytes, o: BackupObject, counter: nat, rest: Bytes, sourceFails: bool, after: Reading)
    requires o.WellFormed() && Framed(rest) && counter < o.Terminal()
    requires IsRecord(c, key, o.Header(), prefix, counter, rest, o)
    requires Replays(c, o, counter + 1, rest[FrameLength(rest)..], sourceFails, after)
    ensures Replays(c, o, counter, rest, sourceFails, Reading([o.Slice(counter)] + after.yielded, after.ending))
  {
  }

  /** Once a header is fixed, the record loop can only replay the object that carries it. */
  lemma {:induction false} ReplaysOnly(c: Crypto, key: Bytes, s: Bytes, off: nat, prefix: Bytes, o: BackupObject, counter: nat, sourceFails: bool)
    requires o.WellFormed() && OnlyRecordsOf(c, key, prefix, s, o) && off <= |s| && counter <= o.Terminal()
    ensures Replays(c, o, counter, s[off..], sourceFails, ReadRecords(c, key, o.Header(), prefix, counter, s[off..], sourceFails))
    decreases |s| - off
  {
    var rest := s[off..];
    if Framed(rest) && OpenRecord(c, key, o.Header(), prefix, counter, rest).Some? {
      assert IsRecord(c, key, o.Header(), prefix, counter, rest, o);
      var next := off + FrameLength(rest);
      assert rest[FrameLength(rest)..] == s[next..];
      if counter < o.Terminal() {
        ReplaysOnly(c, key, s, next, prefix, o, counter + 1, sourceFails);
        ReplayStep(c, key, prefix, o, counter, rest, sourceFails, ReadRecords(c, key, o.Header(), prefix, counter + 1, s[next..], sourceFails));
      } else {
        assert o.Tail(c, counter) == o.RecordAt(c, counter) + o.Tail(c, counter + 1) == o.RecordAt(c, counter);
      }
    }
  }

  /** For any byte stream at all, the reader yields nothing or a record-aligned prefix of one
      written plaintext, and ends normally only on that object byte for byte: truncating,
      reordering, splicing, flipping the final flag or appending all end in failure. */
  lemma OnlyWrittenObjects(c: Crypto, written: set<BackupObject>, keyring: map<Bytes, Bytes>, s: Bytes, sourceFails: bool)
    requires Honest(c, written, keyring, s)
    ensures var r := ReadStream(c, keyring, s, sourceFails);
            || (r.yielded == [] && r.ending.Failed?)
            || exists o :: && o in written && r.yielded <= o.Slices(0)
                           && (r.ending.Complete? ==> s == o.Encode(c) && r.yielded == o.Slices(0) && !sourceFails && Holds(c, keyring, o))
  {
    var r := ReadStream(c, keyring, s, sourceFails);
    if r.yielded != [] || r.ending.Complete? {
      var n := s[5];
      var at := HeaderLength(n);
      var id, salt, prefix, header := s[6..6 + n], s[6 + n..6 + n + SALT_BYTES], s[6 + n + SALT_BYTES..at], s[..at];
      assert r == ReadRecords(c, c.derive(keyring[id], salt), header, prefix, 0, s[at..], sourceFails);
      var o := OpenedRecord(c, written, keyring, s, at, id, salt, header, prefix, 0);
      HeaderNamesObject(o, s);
      HeaderFixesObject(c, written, keyring, s, id, salt, prefix, o);
      ReplaysOnly(c, c.derive(keyring[id], salt), s, at, prefix, o, 0, sourceFails);
      assert s == header + s[at..];
    }
  }

  /** Normal completion, exactly: the stream is a written object the keyring opens, and the
      source ended without throwing. */
  lemma CompletesExactly(c: Crypto, written: set<BackupObject>, keyring: map<Bytes, Bytes>, s: Bytes, sourceFails: bool)
    requires Honest(c, written, keyring, s)
    ensures ReadStream(c, keyring, s, sourceFails).ending.Complete? <==>
            !sourceFails && exists o :: o in written && Holds(c, keyring, o) && s == o.Encode(c)
  {
    OnlyWrittenObjects(c, written, keyring, s, sourceFails);
    if !sourceFails && exists o :: o in written && Holds(c, keyring, o) && s == o.Encode(c) {
      var o :| o in written && Holds(c, keyring, o) && s == o.Encode(c);
      RoundTrip(c, keyring, o);
    }
  }
}
