/**
 * How much plaintext a reader of a damaged backup object hands out before it fails: for every
 * point a written object can be cut at, and for any byte stream at all
 * (apps/backup/src/cipher.ts:176-299).
 */
module BackupCuts {
  import opened ByteStreams
  import opened BackupCipher

  /** How many bytes a full record is on the wire. */
  const RECORD_BYTES := 4 + CHUNK_BYTES + TAG_BYTES

  // ---- a written object cut anywhere ----

  /** How many data records from `i` on are whole within `k` bytes. */
  function WholeRecords(o: BackupObject, i: nat, k: nat): (n: nat)
    requires i <= o.Terminal()
    ensures n <= o.Terminal() - i
    decreases o.Terminal() - i
  {
    if i == o.Terminal() || k < 4 + |o.Slice(i)| + TAG_BYTES then 0
    else 1 + WholeRecords(o, i + 1, k - (4 + |o.Slice(i)| + TAG_BYTES))
  }

  lemma TailCut(tail: Bytes, k: nat, frame: nat)
    requires frame <= |tail| && k <= |tail|
    ensures k >= frame ==> tail[..k][..frame] == tail[..frame] && tail[..k][frame..] == tail[frame..][..k - frame]
    ensures k >= 4 ==> tail[..k][..4] == tail[..4]
  {
  }

  lemma CutInside(c: Crypto, o: BackupObject, i: nat, k: nat, sourceFails: bool)
    requires Correct(c) && o.WellFormed() && i <= o.Terminal() && k < 4 + |o.Slice(i)| + TAG_BYTES && k <= |o.Tail(c, i)|
    ensures ReadRecords(c, o.DataKey(c), o.Header(), o.prefix, i, o.Tail(c, i)[..k], sourceFails) == Refuse(Short(sourceFails))
  {
    TailLayout(c, o, i);
    TailCut(o.Tail(c, i), k, 0);
  }

  lemma CutOutside(c: Crypto, o: BackupObject, i: nat, k: nat)
    requires Correct(c) && o.WellFormed() && i <= o.Terminal() && 4 + |o.Slice(i)| + TAG_BYTES <= k <= |o.Tail(c, i)|
    ensures var rest, frame := o.Tail(c, i)[..k], 4 + |o.Slice(i)| + TAG_BYTES;
            && |rest| >= 4 && FromBigEndian(rest[..4]) == |o.Slice(i)| && Framed(rest) && FrameLength(rest) == frame
            && OpenRecord(c, o.DataKey(c), o.Header(), o.prefix, i, rest) == Some(o.Slice(i))
            && k - frame <= |o.Tail(c, i + 1)| && rest[frame..] == o.Tail(c, i + 1)[..k - frame]
  {
    TailLayout(c, o, i);
    var tail, frame := o.Tail(c, i), 4 + |o.Slice(i)| + TAG_BYTES;
    TailCut(tail, k, frame);
    assert tail[..k][4..frame] == tail[4..frame];
  }

  lemma ReadOne(c: Crypto, key: Bytes, header: Bytes, prefix: Bytes, counter: nat, rest: Bytes, sourceFails: bool)
    requires Framed(rest) && FromBigEndian(rest[..4]) > 0 && counter < MAX_UINT32 && OpenRecord(c, key, header, prefix, counter, rest).Some?
    ensures var after := ReadRecords(c, key, header, prefix, counter + 1, rest[FrameLength(rest)..], sourceFails);
            ReadRecords(c, key, header, prefix, counter, rest, sourceFails)
            == Reading([OpenRecord(c, key, header, prefix, counter, rest).value] + after.yielded, after.ending)
  {
  }

  lemma CutLast(c: Crypto, o: BackupObject, sourceFails: bool)
    requires Correct(c) && o.WellFormed()
    ensures var tail := o.Tail(c, o.Terminal());
            && |tail| == 4 + TAG_BYTES && tail[..|tail|] == tail
            && ReadRecords(c, o.DataKey(c), o.Header(), o.prefix, o.Terminal(), tail, sourceFails)
               == Reading([], if sourceFails then Failed(Short(sourceFails)) else Complete)
  {
    TailLayout(c, o, o.Terminal());
  }

  lemma SlicesStep(o: BackupObject, i: nat, n: nat)
    requires i < o.Terminal() && n <= o.Terminal() - (i + 1)
    ensures o.Slices(i)[..1 + n] == [o.Slice(i)] + o.Slices(i + 1)[..n]
  {
  }

  lemma CutStep(c: Crypto, o: BackupObject, i: nat, k: nat, sourceFails: bool, after: Reading)
    requires Correct(c) && o.WellFormed() && i < o.Terminal() && 4 + |o.Slice(i)| + TAG_BYTES <= k <= |o.Tail(c, i)|
    requires var left := k - (4 + |o.Slice(i)| + TAG_BYTES);
             left <= |o.Tail(c, i + 1)| && ReadRecords(c, o.DataKey(c), o.Header(), o.prefix, i + 1, o.Tail(c, i + 1)[..left], sourceFails) == after
    ensures ReadRecords(c, o.DataKey(c), o.Header(), o.prefix, i, o.Tail(c, i)[..k], sourceFails) == Reading([o.Slice(i)] + after.yielded, after.ending)
  {
    CutOutside(c, o, i, k);
    ReadOne(c, o.DataKey(c), o.Header(), o.prefix, i, o.Tail(c, i)[..k], sourceFails);
  }

  /** What a tail cut after `k` bytes yields: its whole records; and it ends normally only uncut. */
  function CutReading(c: Crypto, o: BackupObject, i: nat, k: nat, sourceFails: bool): Reading
    requires o.WellFormed() && i <= o.Terminal()
  {
    Reading(o.Slices(i)[..WholeRecords(o, i, k)], if k == |o.Tail(c, i)| && !sourceFails then Complete else Failed(Short(sourceFails)))
  }

  lemma CutReadingStep(c: Crypto, o: BackupObject, i: nat, k: nat, sourceFails: bool)
    requires Correct(c) && o.WellFormed() && i < o.Terminal() && 4 + |o.Slice(i)| + TAG_BYTES <= k
    ensures var after := CutReading(c, o, i + 1, k - (4 + |o.Slice(i)| + TAG_BYTES), sourceFails);
            CutReading(c, o, i, k, sourceFails) == Reading([o.Slice(i)] + after.yielded, after.ending)
  {
    TailSizes(c, o, i);
    SlicesStep(o, i, WholeRecords(o, i + 1, k - (4 + |o.Slice(i)| + TAG_BYTES)));
  }

  lemma CutReadingEnds(c: Crypto, o: BackupObject, i: nat, k: nat, sourceFails: bool)
    requires Correct(c) && o.WellFormed() && i <= o.Terminal() && k < 4 + |o.Slice(i)| + TAG_BYTES
    ensures CutReading(c, o, i, k, sourceFails) == Refuse(Short(sourceFails))
  {
    TailLayout(c, o, i);
  }

  lemma {:induction false} CutTail(c: Crypto, o: BackupObject, i: nat, k: nat, sourceFails: bool)
    requires Correct(c) && o.WellFormed() && i <= o.Terminal() && k <= |o.Tail(c, i)|
    ensures ReadRecords(c, o.DataKey(c), o.Header(), o.prefix, i, o.Tail(c, i)[..k], sourceFails) == CutReading(c, o, i, k, sourceFails)
    decreases o.Terminal() - i
  {
    var frame := 4 + |o.Slice(i)| + TAG_BYTES;
    if k < frame {
      CutInside(c, o, i, k, sourceFails);
      CutReadingEnds(c, o, i, k, sourceFails);
    } else if i == o.Terminal() {
      CutLast(c, o, sourceFails);
    } else {
      TailSizes(c, o, i);
      CutTail(c, o, i + 1, k - frame, sourceFails);
      CutStep(c, o, i, k, sourceFails, CutReading(c, o, i + 1, k - frame, sourceFails));
      CutReadingStep(c, o, i, k, sourceFails);
    }
  }

  lemma TailSizes(c: Crypto, o: BackupObject, i: nat)
    requires Correct(c) && o.WellFormed() && i < o.Terminal()
    ensures |o.Tail(c, i)| == 4 + |o.Slice(i)| + TAG_BYTES + |o.Tail(c, i + 1)|
  {
    TailLayout(c, o, i);
  }

  /** How many bytes the records from `i` on take. */
  function BytesLeft(o: BackupObject, i: nat): nat
    requires i <= o.Terminal()
  {
    |o.plain| - o.Start(i) + (4 + TAG_BYTES) * (o.Terminal() - i)
  }

  lemma BytesLeftStep(o: BackupObject, i: nat)
    requires i < o.Terminal()
    ensures BytesLeft(o, i) == 4 + |o.Slice(i)| + TAG_BYTES + BytesLeft(o, i + 1)
    ensures i + 1 < o.Terminal() ==> |o.Slice(i)| == CHUNK_BYTES
    ensures i + 1 == o.Terminal() ==> BytesLeft(o, i + 1) == 0
  {
    assert |o.Slice(i)| == o.Start(i + 1) - o.Start(i);
  }

  lemma OneRecordLess(k: nat)
    requires k >= RECORD_BYTES
    ensures k / RECORD_BYTES == 1 + (k - RECORD_BYTES) / RECORD_BYTES
  {
  }

  /** Full records but the last one, counted by division. */
  function Counted(left: nat, records: nat, k: nat): nat {
    if k >= left then records else k / RECORD_BYTES
  }

  lemma CountOneMore(left: nat, records: nat, k: nat, frame: nat)
    requires frame <= k && (if records > 0 then frame == RECORD_BYTES else left == 0)
    ensures Counted(frame + left, records + 1, k) == 1 + Counted(left, records, k - frame)
  {
    if records > 0 {
      OneRecordLess(k);
    }
  }

  lemma {:induction false} WholeRecordsCount(o: BackupObject, i: nat, k: nat)
    requires i <= o.Terminal()
    ensures WholeRecords(o, i, k) == Counted(BytesLeft(o, i), o.Terminal() - i, k)
    decreases o.Terminal() - i
  {
    if i < o.Terminal() {
      var frame := 4 + |o.Slice(i)| + TAG_BYTES;
      BytesLeftStep(o, i);
      if k >= frame {
        WholeRecordsCount(o, i + 1, k - frame);
        CountOneMore(BytesLeft(o, i + 1), o.Terminal() - i - 1, k, frame);
      }
    }
  }

  /** The header of a written object, cut short, is refused for being short. */
  lemma CutHeader(keyring: map<Bytes, Bytes>, o: BackupObject, rest: Bytes, k: nat, sourceFails: bool)
    requires o.WellFormed() && o.keyId in keyring && k < |o.Header()|
    ensures ParseHeader(keyring, (o.Header() + rest)[..k], sourceFails) == Failure(Short(sourceFails))
  {
    HeaderLayout(o, rest);
    var s := o.Header() + rest;
    var cut := s[..k];
    if k >= 6 {
      assert cut[..4] == s[..4] && cut[4] == s[4] && cut[5] == s[5];
      if k >= 6 + |o.keyId| {
        assert cut[6..6 + |o.keyId|] == s[6..6 + |o.keyId|];
      }
    }
  }

  lemma WholeHeader(keyring: map<Bytes, Bytes>, o: BackupObject, rest: Bytes, sourceFails: bool)
    requires o.WellFormed() && o.keyId in keyring
    ensures ParseHeader(keyring, o.Header() + rest, sourceFails) == Success(HeaderFields(o.keyId, o.salt, o.prefix, o.Header()))
  {
    HeaderLayout(o, rest);
  }

  /** A written object cut after `k` bytes yields exactly its whole data records before it fails:
      none within the header, one per 65,556 bytes after it, all of them once the last is there;
      it ends normally only uncut. */
  lemma CutObject(c: Crypto, keyring: map<Bytes, Bytes>, o: BackupObject, k: nat, sourceFails: bool)
    requires Correct(c) && o.WellFormed() && Holds(c, keyring, o) && k <= |o.Encode(c)|
    ensures var h := |o.Header()|;
            var whole := if k < h then 0 else if k - h >= |o.plain| + 20 * o.Terminal() then o.Terminal() else (k - h) / 65_556;
            && whole <= o.Terminal()
            && ReadStream(c, keyring, o.Encode(c)[..k], sourceFails)
               == Reading(o.Slices(0)[..whole], if k == |o.Encode(c)| && !sourceFails then Complete else Failed(Short(sourceFails)))
  {
    var h, tail := |o.Header()|, o.Tail(c, 0);
    if k < h {
      CutHeader(keyring, o, tail, k, sourceFails);
    } else {
      assert o.Encode(c)[..k] == o.Header() + tail[..k - h];
      WholeHeader(keyring, o, tail[..k - h], sourceFails);
      HeaderLayout(o, tail[..k - h]);
      CutTail(c, o, 0, k - h, sourceFails);
      WholeRecordsCount(o, 0, k - h);
    }
  }

  lemma FirstRecordIsACut(c: Crypto, o: BackupObject)
    requires Correct(c) && o.WellFormed() && o.Terminal() >= 1
    ensures var frame := |o.RecordAt(c, 0)|;
            && frame == 4 + |o.Slice(0)| + TAG_BYTES && frame < |o.Tail(c, 0)| && o.Tail(c, 0)[..frame] == o.RecordAt(c, 0)
  {
    TailLayout(c, o, 1);
    TailSizes(c, o, 0);
    assert o.Tail(c, 0) == o.RecordAt(c, 0) + o.Tail(c, 1);
  }

  lemma OneRecordYields(c: Crypto, o: BackupObject)
    requires Correct(c) && o.WellFormed() && o.Terminal() >= 1
    ensures CutReading(c, o, 0, |o.RecordAt(c, 0)|, false) == Reading([o.Slice(0)], Failed(Truncated))
  {
    FirstRecordIsACut(c, o);
    SlicesStep(o, 0, 0);
    assert WholeRecords(o, 1, 0) == 0;
  }

  /** The header and one record of an object that has more: its plaintext is out before the failure. */
  lemma FirstRecordBeforeTheFailure(c: Crypto, keyring: map<Bytes, Bytes>, o: BackupObject)
    requires Correct(c) && o.WellFormed() && Holds(c, keyring, o) && o.Terminal() >= 1
    ensures ReadStream(c, keyring, o.Header() + o.RecordAt(c, 0), false) == Reading([o.Slice(0)], Failed(Truncated))
  {
    FirstRecordIsACut(c, o);
    OneRecordYields(c, o);
    WholeHeader(keyring, o, o.RecordAt(c, 0), false);
    HeaderLayout(o, o.RecordAt(c, 0));
    CutTail(c, o, 0, |o.RecordAt(c, 0)|, false);
  }

  // ---- any byte stream ----

  /** The stream begins with the header and the first data record of a written object. */
  ghost predicate StartsAnObject(c: Crypto, written: set<BackupObject>, keyring: map<Bytes, Bytes>, s: Bytes) {
    exists o :: o in written && o.Terminal() >= 1 && Holds(c, keyring, o) && o.Header() + o.RecordAt(c, 0) <= s
  }

  lemma SameFirstRecord(c: Crypto, o: BackupObject, rest: Bytes)
    requires Correct(c) && o.WellFormed() && o.Terminal() >= 1 && o.RecordAt(c, 0) <= rest
    ensures |rest| >= 4 && FromBigEndian(rest[..4]) == |o.Slice(0)| && Framed(rest)
    ensures OpenRecord(c, o.DataKey(c), o.Header(), o.prefix, 0, rest) == Some(o.Slice(0))
  {
    var record := o.RecordAt(c, 0);
    TailLayout(c, o, 0);
    assert o.Tail(c, 0)[..|record|] == record;
    assert rest[..4] == record[..4] == o.Tail(c, 0)[..4];
    assert rest[4..|record|] == record[4..] == o.Tail(c, 0)[4..|record|];
  }

  lemma StartYields(c: Crypto, keyring: map<Bytes, Bytes>, o: BackupObject, s: Bytes, sourceFails: bool)
    requires Correct(c) && o.WellFormed() && o.Terminal() >= 1 && Holds(c, keyring, o) && o.Header() + o.RecordAt(c, 0) <= s
    ensures ReadStream(c, keyring, s, sourceFails).yielded != []
  {
    var h, record := |o.Header()|, o.RecordAt(c, 0);
    var rest := s[h..];
    assert s == o.Header() + rest && rest[..|record|] == record;
    WholeHeader(keyring, o, rest, sourceFails);
    HeaderLayout(o, rest);
    SameFirstRecord(c, o, rest);
  }

  lemma YieldsOnlyAStart(c: Crypto, written: set<BackupObject>, keyring: map<Bytes, Bytes>, s: Bytes, sourceFails: bool)
    requires Honest(c, written, keyring, s) && ReadStream(c, keyring, s, sourceFails).yielded != []
    ensures StartsAnObject(c, written, keyring, s)
  {
    var n := s[5];
    var at := HeaderLength(n);
    var id, salt, prefix, header := s[6..6 + n], s[6 + n..6 + n + SALT_BYTES], s[6 + n + SALT_BYTES..at], s[..at];
    var rest := s[at..];
    assert ReadStream(c, keyring, s, sourceFails) == ReadRecords(c, c.derive(keyring[id], salt), header, prefix, 0, rest, sourceFails);
    var o := OpenedRecord(c, written, keyring, s, at, id, salt, header, prefix, 0);
    HeaderNamesObject(o, s);
    assert o.Header() + o.RecordAt(c, 0) == s[..at + FrameLength(rest)];
  }

  /** With no forgery, a read hands out plaintext and then fails exactly when the stream begins
      with a written object's header and first data record and is not all of that object from a
      source that ends: the reader cannot know the difference before it has yielded. */
  lemma PlaintextBeforeFailureWhen(c: Crypto, written: set<BackupObject>, keyring: map<Bytes, Bytes>, s: Bytes, sourceFails: bool)
    requires Honest(c, written, keyring, s)
    ensures var r := ReadStream(c, keyring, s, sourceFails);
            r.yielded != [] && r.ending.Failed? <==>
            StartsAnObject(c, written, keyring, s) && (sourceFails || forall o :: o in written && Holds(c, keyring, o) ==> s != o.Encode(c))
  {
    CompletesExactly(c, written, keyring, s, sourceFails);
    if ReadStream(c, keyring, s, sourceFails).yielded != [] {
      YieldsOnlyAStart(c, written, keyring, s, sourceFails);
    }
    if o :| o in written && o.Terminal() >= 1 && Holds(c, keyring, o) && o.Header() + o.RecordAt(c, 0) <= s {
      StartYields(c, keyring, o, s, sourceFails);
    }
  }
}
