/**
 * The writer and reader of apps/backup/src/cipher.ts as they run: a 64 KiB buffer refilled
 * from chunks of any size, and a `pending` buffer that records are cut from. Both are proved
 * against the flat specifications of BackupCipher, so no chunk boundary shows in a result.
 */
module BackupStream {
  import opened ByteStreams
  import opened BackupCipher

  /** The object a writer makes of `plain`. */
  function Written(keyring: map<Bytes, Bytes>, keyId: Bytes, salt: Bytes, prefix: Bytes, plain: Bytes): BackupObject
    requires keyId in keyring
  {
    BackupObject(keyId, keyring[keyId], salt, prefix, plain)
  }

  /** The first `n` records of `o`, as the writer yields them. */
  function Records(c: Crypto, o: BackupObject, n: nat): (r: seq<Bytes>)
    requires n <= o.Terminal() + 1 && n <= MAX_UINT32
    ensures |r| == n
    ensures forall i :: 0 <= i < n ==> r[i] == o.RecordAt(c, i)
  {
    if n == 0 then [] else Records(c, o, n - 1) + [o.RecordAt(c, n - 1)]
  }

  /** The chunks a writer yields are the object, cut after the header and each record. */
  lemma {:induction false} RecordsConcat(c: Crypto, o: BackupObject, n: nat)
    requires o.WellFormed() && n <= o.Terminal() + 1
    ensures Concat(Records(c, o, n)) + o.Tail(c, n) == o.Tail(c, 0)
  {
    if n > 0 {
      RecordsConcat(c, o, n - 1);
      ConcatSnoc(Records(c, o, n - 1), o.RecordAt(c, n - 1));
    }
  }

  lemma YieldsConcat(c: Crypto, o: BackupObject)
    requires o.WellFormed()
    ensures Concat([o.Header()] + Records(c, o, o.Terminal() + 1)) == o.Encode(c)
  {
    var rs := Records(c, o, o.Terminal() + 1);
    RecordsConcat(c, o, o.Terminal() + 1);
    ConcatAppend([o.Header()], rs);
    assert Concat([o.Header()]) == o.Header() + Concat([]);
    assert o.Tail(c, o.Terminal() + 1) == [];
  }

  /** How far a 32-bit counter lets the writer go: all records, or the first 2^32. */
  function Reach(o: BackupObject): (n: nat)
    ensures n <= o.Terminal() + 1 && n <= MAX_UINT32
  {
    if o.Terminal() < MAX_UINT32 then o.Terminal() + 1 else MAX_UINT32
  }

  /** The full buffers of the plaintext are past what the counter can number. */
  predicate Overflows(o: BackupObject) {
    |o.plain| / CHUNK_BYTES > MAX_UINT32
  }

  /** How many records come out: all the counter reaches, or the full ones if the source throws at
      the end of the plaintext. */
  function Out(o: BackupObject, sourceThrows: bool): (n: nat)
    ensures n <= o.Terminal() + 1 && n <= MAX_UINT32
  {
    if sourceThrows && !Overflows(o) then |o.plain| / CHUNK_BYTES else Reach(o)
  }

  function WriterEnding(o: BackupObject, sourceThrows: bool): Ending {
    if sourceThrows && !Overflows(o) then Failed(SourceFailed)
    else if o.Terminal() < MAX_UINT32 then Complete else Failed(CounterOverflow)
  }

  lemma OverflowEnds(o: BackupObject, sourceThrows: bool)
    requires Overflows(o)
    ensures Out(o, sourceThrows) == MAX_UINT32 && WriterEnding(o, sourceThrows) == Failed(CounterOverflow)
  {
  }

  /** What has been taken and what is copied next make one slice of the plaintext. */
  lemma SliceGrows(plain: Bytes, start: nat, taken: nat, bytes: Bytes, offset: nat, copied: nat)
    requires start <= taken && offset + copied <= |bytes| && taken + |bytes| - offset <= |plain|
    requires bytes[offset..] == plain[taken..taken + |bytes| - offset]
    ensures plain[start..taken] + bytes[offset..offset + copied] == plain[start..taken + copied]
  {
    assert bytes[offset..offset + copied] == bytes[offset..][..copied];
    assert plain[taken..taken + |bytes| - offset][..copied] == plain[taken..taken + copied];
  }

  /** `encryptBackupStream`'s running state. `whole` is the object being written, known to the
      proof only; `taken` counts the plaintext bytes pulled so far. */
  class RecordWriter {
    const c: Crypto
    const key: Bytes
    const header: Bytes
    const prefix: Bytes
    const buffered: array<byte>
    var bufferedBytes: nat
    var counter: nat
    var yielded: seq<Bytes>
    ghost const whole: BackupObject
    ghost var taken: nat

    /** The buffer holds the plaintext after the last full record, and every full record is out. */
    ghost predicate Valid()
      reads this, buffered
    {
      && Filled() && bufferedBytes < CHUNK_BYTES
    }

    /** Every record that is out is full. */
    ghost predicate Full()
      reads this
    {
      whole.Start(counter) == counter * CHUNK_BYTES
    }

    ghost predicate Filled()
      reads this, buffered
    {
      && buffered.Length == CHUNK_BYTES && bufferedBytes <= CHUNK_BYTES
      && header == whole.Header() && key == whole.DataKey(c) && prefix == whole.prefix
      && taken == whole.Start(counter) + bufferedBytes <= |whole.plain|
      && counter <= whole.Terminal() && counter <= MAX_UINT32
      && buffered[..bufferedBytes] == whole.plain[whole.Start(counter)..taken]
      && yielded == [header] + Records(c, whole, counter)
    }

    constructor (c: Crypto, masterKey: Bytes, keyId: Bytes, salt: Bytes, prefix: Bytes, ghost whole: BackupObject)
      requires whole.keyId == keyId && whole.masterKey == masterKey && whole.salt == salt && whole.prefix == prefix
      ensures Valid() && Full() && fresh(buffered) && taken == 0 && this.whole == whole && this.c == c
    {
      var header := MAGIC + [STREAM_VERSION, |keyId| % 256] + keyId + salt + prefix;
      this.c, this.key, this.prefix, this.header := c, c.derive(masterKey, salt), prefix, header;
      this.whole, taken := whole, 0;
      buffered := new byte[CHUNK_BYTES];
      bufferedBytes, counter, yielded := 0, 0, [header];
    }

    /** `bytes.copy(buffered, ...)` of as much of the chunk as fits. */
    method Copy(bytes: Bytes, offset: nat) returns (copied: nat)
      requires Valid() && offset < |bytes|
      requires taken + |bytes| - offset <= |whole.plain| && bytes[offset..] == whole.plain[taken..taken + |bytes| - offset]
      modifies this, buffered
      ensures Filled() && 0 < copied <= |bytes| - offset && taken == old(taken) + copied && counter == old(counter)
    {
      copied := if CHUNK_BYTES - bufferedBytes < |bytes| - offset then CHUNK_BYTES - bufferedBytes else |bytes| - offset;
      forall i | 0 <= i < copied {
        buffered[bufferedBytes + i] := bytes[offset + i];
      }
      assert buffered[..bufferedBytes + copied] == old(buffered[..bufferedBytes]) + bytes[offset..offset + copied];
      SliceGrows(whole.plain, whole.Start(counter), taken, bytes, offset, copied);
      bufferedBytes := bufferedBytes + copied;
      taken := taken + copied;
    }

    /** Yields the buffered record and empties the buffer; a counter past 32 bits throws. */
    method Flush() returns (thrown: bool)
      requires Filled() && bufferedBytes > 0
      requires bufferedBytes == CHUNK_BYTES || taken == |whole.plain|
      modifies this
      ensures taken == old(taken) && (thrown <==> old(counter) == MAX_UINT32)
      ensures thrown ==> Filled()
      ensures !thrown ==> Valid() && bufferedBytes == 0
      ensures !thrown && old(Full() && bufferedBytes == CHUNK_BYTES) ==> Full()
      ensures thrown ==> whole.Terminal() > MAX_UINT32 && yielded == [whole.Header()] + Records(c, whole, MAX_UINT32)
      ensures thrown && old(bufferedBytes) == CHUNK_BYTES ==> Overflows(whole)
    {
      if counter >= MAX_UINT32 {
        return true;
      }
      assert buffered[..bufferedBytes] == whole.Slice(counter);
      yielded := yielded + [EncryptRecord(c, key, header, prefix, counter, false, buffered[..bufferedBytes])];
      counter := counter + 1;
      bufferedBytes := 0;
      return false;
    }

    /** One turn of the `for await` loop. */
    method Absorb(bytes: Bytes) returns (thrown: bool)
      requires Valid() && Full() && taken + |bytes| <= |whole.plain| && bytes == whole.plain[taken..taken + |bytes|]
      modifies this, buffered
      ensures !thrown ==> Valid() && Full() && taken == old(taken) + |bytes|
      ensures thrown ==> Overflows(whole) && yielded == [whole.Header()] + Records(c, whole, MAX_UINT32)
    {
      var offset: nat := 0;
      while offset < |bytes|
        invariant offset <= |bytes| && Valid() && Full() && taken == old(taken) + offset
      {
        assert bytes[offset..] == whole.plain[taken..taken + |bytes| - offset];
        var copied := Copy(bytes, offset);
        offset := offset + copied;
        if bufferedBytes == CHUNK_BYTES {
          thrown := Flush();
          if thrown {
            return;
          }
        }
      }
      thrown := false;
    }

    /** The last partial record, then the terminal record that says "this is the whole object". */
    method Finish() returns (thrown: bool)
      requires Valid() && taken == |whole.plain|
      modifies this
      ensures yielded == [whole.Header()] + Records(c, whole, Reach(whole))
      ensures thrown <==> whole.Terminal() >= MAX_UINT32
    {
      if bufferedBytes > 0 {
        thrown := Flush();
        if thrown {
          return;
        }
      }
      assert counter == whole.Terminal();
      thrown := Terminate();
    }

    /** The end of the `for await` loop: the source is through, or it throws. */
    method Close(sourceThrows: bool) returns (ending: Ending)
      requires Valid() && Full() && taken == |whole.plain|
      modifies this
      ensures yielded == [whole.Header()] + Records(c, whole, Out(whole, sourceThrows))
      ensures ending == WriterEnding(whole, sourceThrows)
    {
      assert counter == |whole.plain| / CHUNK_BYTES;
      if sourceThrows {
        return Failed(SourceFailed);
      }
      var thrown := Finish();
      return if thrown then Failed(CounterOverflow) else Complete;
    }

    method Terminate() returns (thrown: bool)
      requires Valid() && counter == whole.Terminal()
      modifies this
      ensures yielded == [whole.Header()] + Records(c, whole, Reach(whole))
      ensures thrown <==> whole.Terminal() >= MAX_UINT32
    {
      if counter >= MAX_UINT32 {
        return true;
      }
      assert whole.Slice(counter) == [];
      ghost var terminal := whole.RecordAt(c, counter);
      assert terminal == EncryptRecord(c, key, header, prefix, counter, true, []);
      AppendAssociates([whole.Header()], Records(c, whole, counter), [terminal]);
      yielded := yielded + [EncryptRecord(c, key, header, prefix, counter, true, [])];
      return false;
    }
  }

  /** `encryptBackupStream`: `salt` and `prefix` are the random bytes it draws, and `sourceThrows`
      says the source throws where a healthy one would end. */
  method EncryptBackupStream(c: Crypto, keyring: map<Bytes, Bytes>, active: Bytes, source: seq<Bytes>, sourceThrows: bool, salt: Bytes, prefix: Bytes)
    returns (yielded: seq<Bytes>, ending: Ending)
    ensures active !in keyring || !SafeKeyId(active) ==> yielded == [] && ending == Failed(UnknownKey)
    ensures active in keyring && SafeKeyId(active) ==>
              var o := Written(keyring, active, salt, prefix, Concat(source));
              && yielded == [o.Header()] + Records(c, o, Out(o, sourceThrows))
              && ending == WriterEnding(o, sourceThrows)
  {
    if active !in keyring || !SafeKeyId(active) {
      return [], Failed(UnknownKey);
    }
    ghost var o := Written(keyring, active, salt, prefix, Concat(source));
    var writer := new RecordWriter(c, keyring[active], active, salt, prefix, o);
    for k := 0 to |source|
      invariant fresh(writer) && fresh(writer.buffered) && writer.whole == o && writer.c == c
      invariant writer.Valid() && writer.Full() && writer.taken == |Concat(source[..k])|
    {
      ConsumedChunk(source, k);
      var thrown := writer.Absorb(source[k]);
      if thrown {
        OverflowEnds(o, sourceThrows);
        return writer.yielded, Failed(CounterOverflow);
      }
    }
    assert source[..|source|] == source;
    ending := writer.Close(sourceThrows);
    yielded := writer.yielded;
  }

  lemma ConsumedChunk(source: seq<Bytes>, k: nat)
    requires k < |source|
    ensures Concat(source[..k + 1]) == Concat(source[..k]) + source[k]
    ensures Concat(source[..k + 1]) <= Concat(source)
    ensures var before := |Concat(source[..k])|;
            before + |source[k]| <= |Concat(source)| && Concat(source)[before..before + |source[k]|] == source[k]
  {
    assert source[..k + 1] == source[..k] + [source[k]];
    ConcatSnoc(source[..k], source[k]);
    ConcatSplit(source, k + 1);
  }

  // ---- reading ----

  /** The size and hash an archive read may demand of the stored bytes. */
  datatype Expected = Expected(size: nat, checksum: Bytes)

  datatype Pull = Chunk(bytes: Bytes) | Done | Threw

  /** The body a reader pulls: storage chunks, metered and hashed as they pass, and checked
      against `expected` where the body ends (apps/backup/src/archive.ts:103-124). */
  class MeteredSource {
    const chunks: seq<Bytes>
    const bodyFails: bool
    const digest: Bytes -> Bytes
    const expected: Option<Expected>
    var next: nat
    var size: nat
    var hashed: Bytes

    constructor (chunks: seq<Bytes>, bodyFails: bool, digest: Bytes -> Bytes, expected: Option<Expected>)
      ensures this.chunks == chunks && this.bodyFails == bodyFails && this.digest == digest && this.expected == expected
      ensures Valid() && next == 0
    {
      this.chunks, this.bodyFails, this.digest, this.expected := chunks, bodyFails, digest, expected;
      next, size, hashed := 0, 0, [];
    }

    ghost predicate Valid()
      reads this
    {
      next <= |chunks| && hashed == Concat(chunks[..next]) && size == |hashed|
    }

    /** Whether the source throws where a healthy one would end. */
    ghost predicate Fails() {
      bodyFails || (expected.Some? && (|Concat(chunks)| != expected.value.size || digest(Concat(chunks)) != expected.value.checksum))
    }

    ghost function Remaining(): Bytes
      requires next <= |chunks|
      reads this
    {
      Concat(chunks[next..])
    }

    method Next() returns (p: Pull)
      requires Valid()
      modifies this
      ensures Valid()
      ensures p.Chunk? ==> old(next) < |chunks| && next == old(next) + 1 && old(Remaining()) == p.bytes + Remaining()
      ensures !p.Chunk? ==> next == old(next) == |chunks| && Remaining() == [] && (p.Threw? <==> Fails())
    {
      if next < |chunks| {
        var bytes := chunks[next];
        ConsumedChunk(chunks, next);
        hashed := hashed + bytes;
        size := size + |bytes|;
        next := next + 1;
        return Chunk(bytes);
      }
      assert chunks[..next] == chunks;
      if bodyFails {
        return Threw;
      }
      if expected.Some? && (size != expected.value.size || digest(hashed) != expected.value.checksum) {
        return Threw;
      }
      return Done;
    }
  }

  /** `decryptBackupStream`'s closure: the source and the bytes read ahead of their use. */
  class StreamReader {
    const source: MeteredSource
    var pending: Bytes

    constructor (source: MeteredSource)
      ensures this.source == source && pending == []
    {
      this.source := source;
      pending := [];
    }

    /** What is still to be read, in `pending` or in the source. */
    ghost function Rest(): Bytes
      requires source.Valid()
      reads this, source
    {
      pending + source.Remaining()
    }

    method Take(length: nat) returns (r: Result<Bytes, Reason>)
      requires source.Valid()
      modifies this, source
      ensures source.Valid()
      ensures r.Success? <==> |old(Rest())| >= length
      ensures r.Success? ==> r.value == old(Rest())[..length] && Rest() == old(Rest())[length..]
      ensures r.Failure? ==> r.error == Short(source.Fails())
    {
      while |pending| < length
        invariant source.Valid() && Rest() == old(Rest())
        decreases |source.chunks| - source.next
      {
        var pulled := source.Next();
        match pulled {
          case Done => return Failure(Truncated);
          case Threw => return Failure(SourceFailed);
          case Chunk(bytes) => pending := pending + bytes;
        }
      }
      var taken := pending[..length];
      pending := pending[length..];
      return Success(taken);
    }

    /** After the terminal record: pull the source to its end, so its own check runs. */
    method Drain() returns (threw: bool)
      requires source.Valid()
      modifies this, source
      ensures source.Valid() && threw == source.Fails()
      ensures !threw ==> pending == old(Rest())
    {
      while true
        invariant source.Valid() && Rest() == old(Rest())
        decreases |source.chunks| - source.next
      {
        var pulled := source.Next();
        match pulled {
          case Done => return false;
          case Threw => return true;
          case Chunk(bytes) => pending := pending + bytes;
        }
      }
    }

    /** One turn of the record loop. */
    method DecryptOne(c: Crypto, key: Bytes, header: Bytes, prefix: Bytes, counter: nat) returns (step: Result<Bytes, Ending>)
      requires source.Valid()
      modifies this, source
      ensures source.Valid()
      ensures var whole := ReadRecords(c, key, header, prefix, counter, old(Rest()), source.Fails());
              match step
              case Failure(ending) => whole == Reading([], ending)
              case Success(text) =>
                var after := ReadRecords(c, key, header, prefix, counter + 1, Rest(), source.Fails());
                |Rest()| < |old(Rest())| && whole == Reading([text] + after.yielded, after.ending)
    {
      ghost var rest := Rest();
      var lengthBytes := Take(4);
      if lengthBytes.Failure? {
        return Failure(Failed(lengthBytes.error));
      }
      var length := FromBigEndian(lengthBytes.value);
      if length > CHUNK_BYTES {
        return Failure(Failed(OversizedRecord));
      }
      var body := Take(length + TAG_BYTES);
      if body.Failure? {
        return Failure(Failed(body.error));
      }
      if counter >= MAX_UINT32 {
        return Failure(Failed(CounterOverflow));
      }
      FramePieces(rest, lengthBytes.value, body.value, Rest());
      var text := c.open(key, NonceFor(prefix, counter), RecordAad(header, counter, length == 0), body.value);
      if text.None? {
        return Failure(Failed(NotAuthentic));
      }
      if length == 0 {
        var threw := Drain();
        if threw {
          return Failure(Failed(SourceFailed));
        }
        return Failure(if |pending| > 0 then Failed(TrailingBytes) else Complete);
      }
      return Success(text.value);
    }

    /** The record loop. */
    method DecryptRecords(c: Crypto, key: Bytes, header: Bytes, prefix: Bytes) returns (yielded: seq<Bytes>, ending: Ending)
      requires source.Valid()
      modifies this, source
      ensures Reading(yielded, ending) == ReadRecords(c, key, header, prefix, 0, old(Rest()), source.Fails())
    {
      yielded := [];
      var counter: nat := 0;
      ghost var whole := ReadRecords(c, key, header, prefix, 0, Rest(), source.Fails());
      while true
        invariant source.Valid()
        invariant var after := ReadRecords(c, key, header, prefix, counter, Rest(), source.Fails());
                  whole == Reading(yielded + after.yielded, after.ending)
        decreases |Rest()|
      {
        var step := DecryptOne(c, key, header, prefix, counter);
        if step.Failure? {
          return yielded, step.error;
        }
        ghost var after := ReadRecords(c, key, header, prefix, counter + 1, Rest(), source.Fails());
        AppendAssociates(yielded, [step.value], after.yielded);
        yielded := yielded + [step.value];
        counter := counter + 1;
      }
    }

    /** The fields before the records, checked in the source's order. */
    method ReadHeader(keyring: map<Bytes, Bytes>) returns (h: Result<HeaderFields, Reason>)
      requires source.Valid()
      modifies this, source
      ensures source.Valid()
      ensures h == ParseHeader(keyring, old(Rest()), source.Fails())
      ensures h.Success? ==> Rest() == old(Rest())[HeaderLength(|h.value.id|)..]
    {
      ghost var s := Rest();
      var start := Take(6);
      if start.Failure? {
        return Failure(start.error);
      }
      assert s[..4] == start.value[..4] && s[4] == start.value[4] && s[5] == start.value[5];
      if start.value[..4] != MAGIC {
        return Failure(BadMagic);
      }
      if start.value[4] != STREAM_VERSION {
        return Failure(UnknownVersion);
      }
      var n := start.value[5];
      if n == 0 || n > 32 {
        return Failure(NoUsableKey);
      }
      var id := Take(n);
      if id.Failure? {
        return Failure(id.error);
      }
      assert s == start.value + id.value + Rest();
      assert s[6..6 + n] == id.value;
      if !SafeKeyId(id.value) {
        return Failure(UnsafeKeyId);
      }
      if id.value !in keyring {
        return Failure(UnknownKey);
      }
      var random := TakeRandom();
      if random.Failure? {
        return Failure(random.error);
      }
      var (salt, prefix) := random.value;
      HeaderPieces(s, n, id.value, salt, prefix, Rest());
      return Success(HeaderFields(id.value, salt, prefix, start.value + id.value + salt + prefix));
    }

    /** The salt and the nonce prefix. */
    method TakeRandom() returns (r: Result<(Bytes, Bytes), Reason>)
      requires source.Valid()
      modifies this, source
      ensures source.Valid()
      ensures r.Success? <==> |old(Rest())| >= SALT_BYTES + PREFIX_BYTES
      ensures r.Success? ==> |r.value.0| == SALT_BYTES && |r.value.1| == PREFIX_BYTES && old(Rest()) == r.value.0 + r.value.1 + Rest()
      ensures r.Failure? ==> r.error == Short(source.Fails())
    {
      var salt := Take(SALT_BYTES);
      if salt.Failure? {
        return Failure(salt.error);
      }
      var prefix := Take(PREFIX_BYTES);
      if prefix.Failure? {
        return Failure(prefix.error);
      }
      return Success((salt.value, prefix.value));
    }

    /** `decryptBackupStream`. */
    method Decrypt(c: Crypto, keyring: map<Bytes, Bytes>) returns (yielded: seq<Bytes>, ending: Ending)
      requires source.Valid() && source.next == 0 && pending == []
      modifies this, source
      ensures Reading(yielded, ending) == ReadStream(c, keyring, Concat(source.chunks), source.Fails())
    {
      assert Rest() == Concat(source.chunks);
      var h := ReadHeader(keyring);
      match h {
        case Failure(reason) =>
          yielded, ending := [], Failed(reason);
        case Success(f) =>
          yielded, ending := DecryptRecords(c, c.derive(keyring[f.id], f.salt), f.header, f.prefix);
      }
    }
  }

  lemma FramePieces(rest: Bytes, lengthBytes: Bytes, body: Bytes, after: Bytes)
    requires |lengthBytes| == 4 && FromBigEndian(lengthBytes) <= CHUNK_BYTES && |body| == FromBigEndian(lengthBytes) + TAG_BYTES
    requires rest == lengthBytes + body + after
    ensures rest[..4] == lengthBytes && Framed(rest) && rest[4..FrameLength(rest)] == body && rest[FrameLength(rest)..] == after
  {
  }

  lemma HeaderPieces(s: Bytes, n: nat, id: Bytes, salt: Bytes, prefix: Bytes, rest: Bytes)
    requires 6 <= |s| && |id| == n && |salt| == SALT_BYTES && |prefix| == PREFIX_BYTES
    requires s == s[..6] + id + salt + prefix + rest
    ensures |s| >= HeaderLength(n)
    ensures s[6..6 + n] == id && s[6 + n..6 + n + SALT_BYTES] == salt && s[6 + n + SALT_BYTES..HeaderLength(n)] == prefix
    ensures s[..HeaderLength(n)] == s[..6] + id + salt + prefix && s[HeaderLength(n)..] == rest
  {
  }
}
