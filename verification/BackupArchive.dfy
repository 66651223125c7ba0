/**
 * The encrypted archive over a storage seam: what `put` stores and records, and what a read
 * that is given the recorded size and checksum proves (apps/backup/src/archive.ts).
 * The storage is a map from key to bytes; how it chunks a body, and whether a call throws,
 * are parameters.
 */
module BackupArchive {
  import opened ByteStreams
  import opened BackupCipher
  import opened BackupStream

  datatype StoredObject = StoredObject(key: string, size: nat, checksum: Bytes)

  datatype PutError = CipherRefused(reason: Reason) | StorageRefused

  /** Whether the `verified` generator throws at the end of a body holding `bytes`. */
  predicate VerificationFails(digest: Bytes -> Bytes, expected: Option<Expected>, bytes: Bytes) {
    expected.Some? && (|bytes| != expected.value.size || digest(bytes) != expected.value.checksum)
  }

  /** The `metered` generator: the bytes stored, the bytes hashed and the running size. */
  method Meter(yielded: seq<Bytes>) returns (body: Bytes, hashed: Bytes, size: nat)
    ensures body == hashed == Concat(yielded) && size == |Concat(yielded)|
  {
    body, hashed, size := [], [], 0;
    for k := 0 to |yielded|
      invariant body == hashed == Concat(yielded[..k]) && size == |hashed|
    {
      ConsumedChunk(yielded, k);
      hashed, size, body := hashed + yielded[k], size + |yielded[k]|, body + yielded[k];
    }
    assert yielded[..|yielded|] == yielded;
  }

  class Archive {
    const c: Crypto
    const keyring: map<Bytes, Bytes>
    const active: Bytes
    const digest: Bytes -> Bytes
    var objects: map<string, Bytes>

    constructor (c: Crypto, keyring: map<Bytes, Bytes>, active: Bytes, digest: Bytes -> Bytes)
      ensures this.c == c && this.keyring == keyring && this.active == active && this.digest == digest && objects == map[]
    {
      this.c, this.keyring, this.active, this.digest, objects := c, keyring, active, digest, map[];
    }

    /** Encrypts and stores; the object is invisible until complete, so a refusal changes nothing. */
    method Put(key: string, source: seq<Bytes>, sourceThrows: bool, salt: Bytes, prefix: Bytes, storageRefuses: bool) returns (r: Result<StoredObject, PutError>)
      requires |salt| == SALT_BYTES && |prefix| == PREFIX_BYTES
      modifies this
      ensures r.Success? <==> active in keyring && SafeKeyId(active) && !sourceThrows && !storageRefuses
                              && Written(keyring, active, salt, prefix, Concat(source)).WellFormed()
      ensures r.Success? ==>
                var stored := Written(keyring, active, salt, prefix, Concat(source)).Encode(c);
                && objects == old(objects)[key := stored]
                && r.value == StoredObject(key, |stored|, digest(stored))
      ensures r.Failure? ==> objects == old(objects)
    {
      var sealed := Seal(source, sourceThrows, salt, prefix);
      if sealed.Failure? {
        return Failure(CipherRefused(sealed.error));
      }
      if storageRefuses {
        return Failure(StorageRefused);
      }
      var (body, size, checksum) := sealed.value;
      objects := objects[key := body];
      return Success(StoredObject(key, size, checksum));
    }

    /** The metered ciphertext on its way to the storage. */
    method Seal(source: seq<Bytes>, sourceThrows: bool, salt: Bytes, prefix: Bytes) returns (r: Result<(Bytes, nat, Bytes), Reason>)
      requires |salt| == SALT_BYTES && |prefix| == PREFIX_BYTES
      ensures r.Success? <==> active in keyring && SafeKeyId(active) && !sourceThrows && Written(keyring, active, salt, prefix, Concat(source)).WellFormed()
      ensures r.Success? ==>
                var stored := Written(keyring, active, salt, prefix, Concat(source)).Encode(c);
                r.value == (stored, |stored|, digest(stored))
    {
      var yielded, ending := EncryptBackupStream(c, keyring, active, source, sourceThrows, salt, prefix);
      var body, hashed, size := Meter(yielded);
      if ending.Failed? {
        return Failure(ending.reason);
      }
      ghost var o := Written(keyring, active, salt, prefix, Concat(source));
      YieldsConcat(c, o);
      return Success((body, size, digest(hashed)));
    }

    /** Streams and verifies; `chunks` is how the storage delivers the body, all of it unless
        the body throws early. */
    method Read(key: string, expected: Option<Expected>, chunks: seq<Bytes>, bodyFails: bool) returns (r: Option<Reading>)
      requires key in objects && !bodyFails ==> Concat(chunks) == objects[key]
      ensures r.None? <==> key !in objects
      ensures r.Some? ==> r.value == ReadStream(c, keyring, Concat(chunks), bodyFails || VerificationFails(digest, expected, Concat(chunks)))
      ensures r.Some? && r.value.ending.Complete? ==>
                !bodyFails && (expected.Some? ==> |objects[key]| == expected.value.size && digest(objects[key]) == expected.value.checksum)
    {
      if key !in objects {
        return None;
      }
      var source := new MeteredSource(chunks, bodyFails, digest, expected);
      var reader := new StreamReader(source);
      var yielded, ending := reader.Decrypt(c, keyring);
      CompleteMeansSourceEnded(c, keyring, Concat(chunks), source.Fails());
      return Some(Reading(yielded, ending));
    }

    /** Deletes keys in order; `throwsAt` is the first deletion that throws, if any does. The
        count is of deletions asked for, present or not. */
    method Remove(keys: seq<string>, throwsAt: nat) returns (removed: nat, threw: bool)
      modifies this
      ensures threw <==> throwsAt < |keys|
      ensures removed == if throwsAt < |keys| then throwsAt else |keys|
      ensures objects == old(objects) - (set k | k in keys[..removed])
    {
      removed := 0;
      while removed < |keys|
        invariant removed <= |keys| && removed <= throwsAt
        invariant objects == old(objects) - (set k | k in keys[..removed])
      {
        if removed == throwsAt {
          return removed, true;
        }
        objects := objects - {keys[removed]};
        assert keys[..removed + 1] == keys[..removed] + [keys[removed]];
        removed := removed + 1;
      }
      return removed, false;
    }
  }

  lemma {:induction false} RecordsCompleteMeansSourceEnded(c: Crypto, key: Bytes, header: Bytes, prefix: Bytes, counter: nat, rest: Bytes, sourceFails: bool)
    requires ReadRecords(c, key, header, prefix, counter, rest, sourceFails).ending.Complete?
    ensures !sourceFails
    decreases |rest|
  {
    if FromBigEndian(rest[..4]) != 0 {
      RecordsCompleteMeansSourceEnded(c, key, header, prefix, counter + 1, rest[FrameLength(rest)..], sourceFails);
    }
  }

  /** A read that ends normally drained its source, so the source's own check ran and passed;
      this needs nothing of the cryptography. */
  lemma CompleteMeansSourceEnded(c: Crypto, keyring: map<Bytes, Bytes>, s: Bytes, sourceFails: bool)
    ensures ReadStream(c, keyring, s, sourceFails).ending.Complete? ==> !sourceFails
  {
    var h := ParseHeader(keyring, s, sourceFails);
    if h.Success? && ReadStream(c, keyring, s, sourceFails).ending.Complete? {
      var f := h.value;
      RecordsCompleteMeansSourceEnded(c, c.derive(keyring[f.id], f.salt), f.header, f.prefix, 0, s[HeaderLength(|f.id|)..], sourceFails);
    }
  }

  /** Reading what was put, given what was recorded, returns the plaintext, however the storage
      chunks the body; the recorded size is exact. */
  lemma PutThenRead(c: Crypto, keyring: map<Bytes, Bytes>, active: Bytes, digest: Bytes -> Bytes,
                    salt: Bytes, prefix: Bytes, plain: Bytes, chunks: seq<Bytes>, recorded: Expected)
    requires Correct(c) && active in keyring
    requires var o := Written(keyring, active, salt, prefix, plain);
             && o.WellFormed() && Concat(chunks) == o.Encode(c)
             && recorded == Expected(|o.Encode(c)|, digest(o.Encode(c)))
    ensures var r := ReadStream(c, keyring, Concat(chunks), VerificationFails(digest, Some(recorded), Concat(chunks)));
            r.ending == Complete && Concat(r.yielded) == plain
    ensures recorded.size == 30 + |active| + |plain| + 20 * ((|plain| + 65535) / 65536 + 1)
  {
    var o := Written(keyring, active, salt, prefix, plain);
    RoundTrip(c, keyring, o);
    EncodedSize(c, o);
  }

  /** With authentic cryptography, an unverified read that completes names the written object. */
  lemma CompletedReadIsAWrittenObject(c: Crypto, written: set<BackupObject>, keyring: map<Bytes, Bytes>, s: Bytes, sourceFails: bool)
    requires Honest(c, written, keyring, s) && ReadStream(c, keyring, s, sourceFails).ending.Complete?
    ensures exists o :: o in written && s == o.Encode(c) && Concat(ReadStream(c, keyring, s, sourceFails).yielded) == o.plain
  {
    OnlyWrittenObjects(c, written, keyring, s, sourceFails);
    var o :| o in written && s == o.Encode(c) && ReadStream(c, keyring, s, sourceFails).yielded == o.Slices(0);
    SlicesConcat(o, 0);
  }
}
