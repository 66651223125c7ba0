/**
 * The ustar archive the computer emulators exchange (packages/adapters/src/computer-archive.ts;
 * the header is the "ustar Interchange Format" of POSIX.1-2017's pax utility).
 * A name is the bytes of its UTF-8 form; the order names are sorted by is any strict total order.
 */
module Tar {
  import opened ByteStreams

  datatype TarEntry = TarEntry(name: Bytes, content: Bytes)

  const BLOCK := 512

  function Zeros(n: nat): (z: Bytes)
    ensures |z| == n && forall i :: 0 <= i < n ==> z[i] == 0
  {
    seq(n, i => 0)
  }

  // ---- octal text ----

  /** `n.toString(8)`. */
  function ToOctal(n: nat): (s: Bytes)
    ensures |s| >= 1 && AllOctal(s)
  {
    if n < 8 then [48 + n] else ToOctal(n / 8) + [48 + n % 8]
  }

  predicate OctalDigit(b: byte) { 48 <= b <= 55 }

  predicate AllOctal(s: Bytes) {
    forall i :: 0 <= i < |s| ==> OctalDigit(s[i])
  }

  function PadStart(s: Bytes, width: nat): Bytes {
    if |s| >= width then s else seq(width - |s|, i => 48) + s
  }

  function OctalValue(s: Bytes): nat
    requires AllOctal(s)
  {
    if s == [] then 0 else OctalValue(s[..|s| - 1]) * 8 + (s[|s| - 1] - 48)
  }

  function Pow8(k: nat): (p: nat)
    ensures p >= 1
  {
    if k == 0 then 1 else 8 * Pow8(k - 1)
  }

  /** The octal text of `n` has at most `k` digits exactly when `n < 8^k`. */
  lemma {:induction false} OctalWidth(n: nat, k: nat)
    requires k >= 1
    ensures |ToOctal(n)| <= k <==> n < Pow8(k)
  {
    if n < 8 {
    } else if k == 1 {
      assert Pow8(1) == 8;
    } else {
      OctalWidth(n / 8, k - 1);
    }
  }

  lemma {:induction false} OctalOfPadded(zeros: nat, s: Bytes)
    requires AllOctal(s)
    ensures AllOctal(seq(zeros, i => 48) + s) && OctalValue(seq(zeros, i => 48) + s) == OctalValue(s)
    decreases zeros + |s|
  {
    var all := seq(zeros, i => 48) + s;
    if s != [] {
      OctalOfPadded(zeros, s[..|s| - 1]);
      assert all[..|all| - 1] == seq(zeros, i => 48) + s[..|s| - 1];
    } else if zeros > 0 {
      OctalOfPadded(zeros - 1, []);
      assert all[..|all| - 1] == seq(zeros - 1, i => 48) + [];
    }
  }

  lemma {:induction false} OctalRoundTrip(n: nat)
    ensures OctalValue(ToOctal(n)) == n
  {
    if n >= 8 {
      OctalRoundTrip(n / 8);
      assert ToOctal(n)[..|ToOctal(n)| - 1] == ToOctal(n / 8);
    } else {
      assert OctalValue([]) == 0;
      assert ToOctal(n)[..0] == [];
    }
  }

  // ---- the header ----

  predicate Continuation(b: byte) { 128 <= b < 192 }

  /** What `Buffer.write` keeps of a name: the longest prefix of at most `limit` bytes that
      does not split a character. */
  function Fit(name: Bytes, limit: nat): (kept: Bytes)
    ensures |kept| <= limit && (|name| <= limit ==> kept == name)
  {
    if |name| <= limit then name
    else if limit == 0 || !Continuation(name[limit]) then name[..limit]
    else Fit(name, limit - 1)
  }

  function SizeText(size: nat): (s: Bytes)
    ensures |s| >= 12
  {
    PadStart(ToOctal(size), 11) + [0]
  }

  const MODE: Bytes := [48, 48, 48, 48, 54, 52, 52, 0]
  const NOBODY: Bytes := [48, 48, 48, 48, 48, 48, 48, 0]
  const MTIME: Bytes := [48, 48, 48, 48, 48, 48, 48, 48, 48, 48, 48, 0]
  const SPACES: Bytes := [32, 32, 32, 32, 32, 32, 32, 32]
  const USTAR: Bytes := [117, 115, 116, 97, 114, 0]
  const VERSION: Bytes := [48, 48]

  function NameField(name: Bytes): (f: Bytes)
    ensures |f| == 100
  {
    Fit(name, 100) + Zeros(100 - |Fit(name, 100)|)
  }

  /** The header with a given checksum field. */
  function Fields(name: Bytes, size: nat, checksum: Bytes): (h: Bytes)
    requires |checksum| == 8
    ensures |h| == BLOCK
  {
    NameField(name) + MODE + NOBODY + NOBODY + SizeText(size)[..12] + MTIME + checksum + [48] + Zeros(100) + USTAR + VERSION + Zeros(247)
  }

  function Sum(s: Bytes): nat {
    if s == [] then 0 else Sum(s[..|s| - 1]) + s[|s| - 1]
  }

  function Checksum(name: Bytes, size: nat): nat {
    Sum(Fields(name, size, SPACES))
  }

  function ChecksumField(sum: nat): Bytes {
    PadStart(ToOctal(sum), 6) + [0, 32]
  }

  lemma {:induction false} SumBound(s: Bytes)
    ensures Sum(s) <= 255 * |s|
  {
    if s != [] {
      SumBound(s[..|s| - 1]);
    }
  }

  /** The checksum always fits its six octal digits. */
  lemma ChecksumFits(name: Bytes, size: nat)
    ensures Checksum(name, size) < Pow8(6) && |ChecksumField(Checksum(name, size))| == 8
  {
    SumBound(Fields(name, size, SPACES));
    OctalWidth(Checksum(name, size), 6);
    assert Pow8(6) == 8 * Pow8(5) && Pow8(5) == 8 * Pow8(4) && Pow8(4) == 8 * Pow8(3) && Pow8(3) == 512;
  }

  function Header(name: Bytes, size: nat): (h: Bytes)
    ensures |h| == BLOCK
  {
    ChecksumFits(name, size);
    Fields(name, size, ChecksumField(Checksum(name, size)))
  }

  /** A written header passes the check POSIX prescribes: its checksum field is the octal sum
      of the header with that field blank; and it is never the all-zero terminator. */
  lemma HeaderChecks(name: Bytes, size: nat)
    ensures var h := Header(name, size);
            && AllOctal(h[148..154])
            && OctalValue(h[148..154]) == Sum(h[..148] + SPACES + h[156..])
            && !AllZero(h)
  {
    var h, sum := Header(name, size), Checksum(name, size);
    ChecksumFits(name, size);
    assert h[148..154] == PadStart(ToOctal(sum), 6);
    OctalOfPadded(6 - |ToOctal(sum)|, ToOctal(sum));
    OctalRoundTrip(sum);
    assert h[..148] + SPACES + h[156..] == Fields(name, size, SPACES);
    assert h[100] == 48;
  }

  // ---- the header as it is built: writes into a zeroed buffer, then a summing loop ----

  /** `header.write(text, offset, limit)`. */
  method Write(header: array<byte>, text: Bytes, offset: nat, limit: nat)
    requires offset + limit <= header.Length
    modifies header
    ensures var n := if |text| < limit then |text| else limit;
            header[..] == old(header[..offset]) + text[..n] + old(header[offset + n..])
  {
    var n := if |text| < limit then |text| else limit;
    forall i | 0 <= i < n {
      header[offset + i] := text[i];
    }
  }

  method SumBytes(header: array<byte>) returns (checksum: nat)
    ensures checksum == Sum(header[..])
  {
    checksum := 0;
    for i := 0 to header.Length
      invariant checksum == Sum(header[..i])
    {
      checksum := checksum + header[i];
      assert header[..i + 1][..i] == header[..i];
    }
    assert header[..header.Length] == header[..];
  }

  /** Writing just after what is done, on a zeroed tail. */
  lemma AppendAt(done: Bytes, text: Bytes, total: nat)
    requires |done| + |text| <= total
    ensures var h := done + Zeros(total - |done|);
            h[..|done|] + text + h[|done| + |text|..] == done + text + Zeros(total - |done| - |text|)
  {
  }

  method WriteName(header: array<byte>, name: Bytes)
    requires header.Length == 512 && header[..] == Zeros(512)
    modifies header
    ensures header[..] == NameField(name) + Zeros(412)
  {
    Write(header, Fit(name, 100), 0, 100);
    assert header[..] == Fit(name, 100) + Zeros(512 - |Fit(name, 100)|);
  }

  /** Writes a field just after the ones that are done, on a zeroed tail. */
  method WriteNext(header: array<byte>, ghost done: Bytes, text: Bytes, offset: nat, limit: nat)
    requires header.Length == 512 && offset == |done| && |text| >= limit && offset + limit <= 512
    requires header[..] == done + Zeros(512 - |done|)
    modifies header
    ensures header[..] == done + text[..limit] + Zeros(512 - |done| - limit)
  {
    AppendAt(done, text[..limit], 512);
    assert header[..offset] == done;
    Write(header, text, offset, limit);
  }

  /** The fields before the checksum. */
  method WriteIdentity(header: array<byte>, name: Bytes, size: nat)
    requires header.Length == 512 && header[..] == Zeros(512)
    modifies header
    ensures header[..] == NameField(name) + MODE + NOBODY + NOBODY + SizeText(size)[..12] + Zeros(376)
  {
    WriteName(header, name);
    ghost var done := NameField(name);
    WriteNext(header, done, MODE, 100, 8);
    done := done + MODE[..8];
    WriteNext(header, done, NOBODY, 108, 8);
    done := done + NOBODY[..8];
    WriteNext(header, done, NOBODY, 116, 8);
    done := done + NOBODY[..8];
    WriteNext(header, done, SizeText(size), 124, 12);
    assert MODE[..8] == MODE && NOBODY[..8] == NOBODY;
  }

  method WriteRest(header: array<byte>, ghost identity: Bytes)
    requires header.Length == 512 && |identity| == 136 && header[..] == identity + Zeros(376)
    modifies header
    ensures header[..] == identity + MTIME + SPACES + [48] + Zeros(100) + USTAR + VERSION + Zeros(247)
  {
    WriteNext(header, identity, MTIME, 136, 12);
    ghost var done := identity + MTIME[..12];
    WriteNext(header, done, SPACES, 148, 8);
    done := done + SPACES[..8];
    WriteNext(header, done, [48], 156, 1);
    done := done + [48][..1];
    assert MTIME[..12] == MTIME && SPACES[..8] == SPACES && [48][..1] == [48];
    SkipZeros(done, 100, 255);
    WriteMagic(header, done + Zeros(100));
  }

  /** The link name is left zeroed. */
  lemma SkipZeros(done: Bytes, skipped: nat, rest: nat)
    ensures done + Zeros(skipped + rest) == done + Zeros(skipped) + Zeros(rest)
  {
  }

  method WriteMagic(header: array<byte>, ghost done: Bytes)
    requires header.Length == 512 && |done| == 257 && header[..] == done + Zeros(255)
    modifies header
    ensures header[..] == done + USTAR + VERSION + Zeros(247)
  {
    WriteNext(header, done, USTAR, 257, 6);
    WriteNext(header, done + USTAR[..6], VERSION, 263, 2);
    assert USTAR[..6] == USTAR && VERSION[..2] == VERSION;
  }

  lemma ChecksumPlace(name: Bytes, size: nat, checksum: Bytes)
    requires |checksum| == 8
    ensures var blank := Fields(name, size, SPACES);
            blank[..148] + checksum + blank[156..] == Fields(name, size, checksum)
  {
  }

  /** The header with its checksum field still blank. */
  method BlankHeader(name: Bytes, size: nat) returns (header: array<byte>)
    ensures fresh(header) && header[..] == Fields(name, size, SPACES)
  {
    header := new byte[512](i => 0);
    assert header[..] == Zeros(512);
    WriteIdentity(header, name, size);
    ghost var identity := NameField(name) + MODE + NOBODY + NOBODY + SizeText(size)[..12];
    WriteRest(header, identity);
  }

  method TarHeader(name: Bytes, size: nat) returns (header: array<byte>)
    ensures fresh(header) && header[..] == Header(name, size)
  {
    header := BlankHeader(name, size);
    var checksum := SumBytes(header);
    ChecksumFits(name, size);
    ChecksumPlace(name, size, ChecksumField(checksum));
    Write(header, ChecksumField(checksum), 148, 8);
  }

  // ---- the writer ----

  ghost predicate StrictOrder(less: (Bytes, Bytes) -> bool) {
    && (forall a :: !less(a, a))
    && (forall a, b, c :: less(a, b) && less(b, c) ==> less(a, c))
    && (forall a, b :: a != b ==> less(a, b) || less(b, a))
  }

  /** A stable sort by name, as `Array.prototype.sort` is. */
  function Insert(less: (Bytes, Bytes) -> bool, e: TarEntry, sorted: seq<TarEntry>): seq<TarEntry> {
    if sorted == [] then [e]
    else if less(e.name, sorted[0].name) then [e] + sorted
    else [sorted[0]] + Insert(less, e, sorted[1..])
  }

  function Sort(less: (Bytes, Bytes) -> bool, es: seq<TarEntry>): seq<TarEntry> {
    if es == [] then [] else Insert(less, es[|es| - 1], Sort(less, es[..|es| - 1]))
  }

  function Padding(n: nat): Bytes {
    Zeros((BLOCK - n % BLOCK) % BLOCK)
  }

  function EntryBytes(e: TarEntry): Bytes {
    Header(e.name, |e.content|) + e.content + Padding(|e.content|)
  }

  function Blocks(es: seq<TarEntry>): (blocks: seq<Bytes>)
    ensures |blocks| == |es| && forall i :: 0 <= i < |es| ==> blocks[i] == EntryBytes(es[i])
  {
    seq(|es|, i requires 0 <= i < |es| => EntryBytes(es[i]))
  }

  function WriteTar(less: (Bytes, Bytes) -> bool, es: seq<TarEntry>): Bytes {
    Concat(Blocks(Sort(less, es))) + Zeros(1024)
  }

  // ---- the reader ----

  /** A line terminator somewhere in `s`: LF, CR, U+2028 or U+2029. */
  predicate HasLineEnd(s: Bytes) {
    exists i :: 0 <= i < |s| && LineEndAt(s, i)
  }

  predicate LineEndAt(s: Bytes, i: nat)
    requires i < |s|
  {
    s[i] == 10 || s[i] == 13 || (i + 2 < |s| && s[i] == 0xE2 && s[i + 1] == 0x80 && (s[i + 2] == 0xA8 || s[i + 2] == 0xA9))
  }

  /** `replace(/\0.*$/, "")` from index `i` on: `.` does not cross a line terminator. */
  function CutName(field: Bytes, i: nat): Bytes
    requires i <= |field|
    decreases |field| - i
  {
    if i == |field| then field
    else if field[i] == 0 && !HasLineEnd(field[i + 1..]) then field[..i]
    else CutName(field, i + 1)
  }

  predicate Space(b: byte) { 9 <= b <= 13 || b == 32 }

  function SkipSpaces(s: Bytes): Bytes {
    if s != [] && Space(s[0]) then SkipSpaces(s[1..]) else s
  }

  function OctalPrefix(s: Bytes): (p: Bytes)
    ensures AllOctal(p)
    ensures AllOctal(s) ==> p == s
  {
    if s != [] && OctalDigit(s[0]) then [s[0]] + OctalPrefix(s[1..]) else []
  }

  /** `Number.parseInt(field.toString("ascii").trim(), 8)`; None is NaN. */
  function ParseSize(field: Bytes): Option<int> {
    var text := SkipSpaces(seq(|field|, i requires 0 <= i < |field| => field[i] % 128));
    var negative := text != [] && text[0] == 45;
    var digits := OctalPrefix(if negative || (text != [] && text[0] == 43) then text[1..] else text);
    if digits == [] then None
    else
      var value: int := OctalValue(digits);
      Some(if negative then -value else value)
  }

  /** Where a bound of `subarray` lies: a negative one counts from the end. */
  function Clip(n: nat, bound: int): (at: nat)
    ensures at <= n
  {
    if bound < 0 then (if n + bound > 0 then n + bound else 0) else if bound < n then bound else n
  }

  /** `bytes.subarray(start, end)`. */
  function Slice(bytes: Bytes, start: int, end: int): Bytes {
    var lo, hi := Clip(|bytes|, start), Clip(|bytes|, end);
    if lo < hi then bytes[lo..hi] else []
  }

  predicate AllZero(header: Bytes) {
    forall i :: 0 <= i < |header| ==> header[i] == 0
  }

  /** `Math.ceil(size / 512) * 512`. */
  function RoundUp(size: int): int {
    if size >= 0 then (size + BLOCK - 1) / BLOCK * BLOCK else -(-size / BLOCK * BLOCK)
  }

  /** One turn of the reader's loop: it is over, it is over with a last entry whose size is no
      number, or it goes on with an entry at another offset. A negative size takes it back. */
  datatype Turn = Done | Last(entry: TarEntry) | Step(entry: TarEntry, next: int)

  function TurnAt(bytes: Bytes, offset: int): Turn {
    var header := Slice(bytes, offset, offset + BLOCK);
    if offset + BLOCK > |bytes| || AllZero(header) then Done
    else Take(bytes, offset + BLOCK, CutName(Slice(header, 0, 100), 0), ParseSize(Slice(header, 124, 135)))
  }

  function Take(bytes: Bytes, start: int, name: Bytes, size: Option<int>): Turn {
    if size.None? then Last(TarEntry(name, []))
    else Step(TarEntry(name, Slice(bytes, start, start + size.value)), start + RoundUp(size.value))
  }

  /** One turn as the loop takes it. */
  method ReadTurn(bytes: Bytes, offset: int) returns (turn: Turn)
    ensures turn == TurnAt(bytes, offset)
  {
    if offset + BLOCK > |bytes| {
      return Done;
    }
    var header := Slice(bytes, offset, offset + BLOCK);
    if AllZero(header) {
      return Done;
    }
    var name, size := CutName(Slice(header, 0, 100), 0), ParseSize(Slice(header, 124, 135));
    var start := offset + BLOCK;
    if size.None? {
      return Last(TarEntry(name, []));
    }
    return Step(TarEntry(name, Slice(bytes, start, start + size.value)), start + RoundUp(size.value));
  }

  /** The loop after some turns; no offset once it has ended. */
  datatype Progress = Progress(entries: seq<TarEntry>, offset: Option<int>)

  function Turned(turn: int -> Turn, p: Progress): Progress {
    if p.offset.None? then p
    else
      match turn(p.offset.value)
      case Done => p.(offset := None)
      case Last(e) => Progress(p.entries + [e], None)
      case Step(e, next) => Progress(p.entries + [e], Some(next))
  }

  function Turns(turn: int -> Turn, from: int, n: nat): Progress {
    if n == 0 then Progress([], Some(from)) else Turned(turn, Turns(turn, from, n - 1))
  }

  /** The turns over one buffer. */
  function Over(bytes: Bytes): int -> Turn {
    offset => TurnAt(bytes, offset)
  }

  /** The first turns of `readTar`, all of them if the loop ends within them. */
  method ReadTar(bytes: Bytes, turns: nat) returns (p: Progress)
    ensures p == Turns(Over(bytes), 0, turns)
  {
    var entries: seq<TarEntry> := [];
    var offset: int := 0;
    ghost var over := Over(bytes);
    for n := 0 to turns
      invariant Turns(over, 0, n) == Progress(entries, Some(offset))
    {
      EndedStays(over, 0, n + 1, turns);
      OneMoreTurn(over, 0, n, entries, offset);
      var turn := ReadTurn(bytes, offset);
      if turn.Done? {
        return Progress(entries, None);
      }
      entries := entries + [turn.entry];
      if turn.Last? {
        return Progress(entries, None);
      }
      offset := turn.next;
    }
    return Progress(entries, Some(offset));
  }

  /** What one more turn makes of a reading still under way. */
  lemma OneMoreTurn(turn: int -> Turn, from: int, n: nat, entries: seq<TarEntry>, offset: int)
    requires Turns(turn, from, n) == Progress(entries, Some(offset))
    ensures Turns(turn, from, n + 1) == match turn(offset)
                                        case Done => Progress(entries, None)
                                        case Last(e) => Progress(entries + [e], None)
                                        case Step(e, next) => Progress(entries + [e], Some(next))
  {
  }

  lemma TurnsSnoc(turn: int -> Turn, from: int, n: nat)
    ensures Turns(turn, from, n + 1) == Turned(turn, Turns(turn, from, n))
  {
  }

  lemma {:induction false} EndedStays(turn: int -> Turn, from: int, n: nat, m: nat)
    requires n <= m
    ensures Turns(turn, from, n).offset.None? ==> Turns(turn, from, m) == Turns(turn, from, n)
    decreases m - n
  {
    if n < m {
      EndedStays(turn, from, n, m - 1);
    }
  }

  // ---- when the reader ends ----

  ghost predicate Ends(turn: int -> Turn, from: int) {
    exists n: nat :: Turns(turn, from, n).offset.None?
  }

  /** The offset comes round: after two different numbers of turns the reader stands at the same place. */
  ghost predicate Repeats(turn: int -> Turn, from: int) {
    exists i: nat, j: nat :: i < j && Turns(turn, from, i).offset.Some? && Turns(turn, from, i).offset == Turns(turn, from, j).offset
  }

  /** Where turns lead depends on the offset only. */
  lemma {:induction false} RoundAgain(turn: int -> Turn, from: int, i: nat, j: nat, k: nat)
    requires Turns(turn, from, i).offset == Turns(turn, from, j).offset
    ensures Turns(turn, from, i + k).offset == Turns(turn, from, j + k).offset
    decreases k
  {
    if k > 0 {
      RoundAgain(turn, from, i, j, k - 1);
      TurnsSnoc(turn, from, i + k - 1);
      TurnsSnoc(turn, from, j + k - 1);
    }
  }

  lemma {:induction false} RoundAndRound(turn: int -> Turn, from: int, i: nat, d: nat, times: nat)
    requires Turns(turn, from, i).offset == Turns(turn, from, i + d).offset
    ensures Turns(turn, from, i).offset == Turns(turn, from, i + times * d).offset
    decreases times
  {
    if times > 0 {
      RoundAndRound(turn, from, i, d, times - 1);
      RoundAgain(turn, from, i, i + d, (times - 1) * d);
      assert i + d + (times - 1) * d == i + times * d;
    }
  }

  lemma {:induction false} TimesIsMore(n: nat, d: nat)
    requires d > 0
    ensures n <= n * d
    decreases n
  {
    if n > 0 {
      TimesIsMore(n - 1, d);
    }
  }

  lemma NotEndedYet(turn: int -> Turn, from: int, i: nat, d: nat, n: nat)
    requires d > 0 && Turns(turn, from, i).offset.Some? && Turns(turn, from, i).offset == Turns(turn, from, i + d).offset
    ensures Turns(turn, from, n).offset.Some?
  {
    RoundAndRound(turn, from, i, d, n);
    TimesIsMore(n, d);
    var later := i + n * d;
    EndedStays(turn, from, n, later);
  }

  lemma RepeatsNeverEnds(turn: int -> Turn, from: int)
    requires Repeats(turn, from)
    ensures !Ends(turn, from)
  {
    var i: nat, j: nat :| i < j && Turns(turn, from, i).offset.Some? && Turns(turn, from, i).offset == Turns(turn, from, j).offset;
    forall n: nat
      ensures Turns(turn, from, n).offset.Some?
    {
      NotEndedYet(turn, from, i, j - i, n);
    }
  }

  function Range(lo: int, n: nat): (s: set<int>)
    ensures |s| == n && forall x :: x in s <==> lo <= x < lo + n
  {
    if n == 0 then {} else Range(lo, n - 1) + {lo + n - 1}
  }

  lemma {:induction false} WithinRange(a: set<int>, lo: int, n: nat)
    requires a <= Range(lo, n)
    ensures |a| <= n
    decreases n
  {
    if n > 0 {
      var rest := a - {lo + n - 1};
      WithinRange(rest, lo, n - 1);
      assert a <= rest + {lo + n - 1};
      assert a == rest || a == rest + {lo + n - 1};
    }
  }

  /** Where the reader stands after `k` turns. */
  predicate Stands(turn: int -> Turn, from: int, k: nat, at: int) {
    Turns(turn, from, k).offset == Some(at)
  }

  ghost function Visited(turn: int -> Turn, from: int, n: nat): set<int> {
    if n == 0 then {}
    else Visited(turn, from, n - 1) + if Turns(turn, from, n - 1).offset.Some? then {Turns(turn, from, n - 1).offset.value} else {}
  }

  lemma {:induction false} VisitedWhen(turn: int -> Turn, from: int, n: nat, x: int)
    ensures x in Visited(turn, from, n) <==> exists k: nat :: k < n && Stands(turn, from, k, x)
    decreases n
  {
    if n > 0 {
      VisitedWhen(turn, from, n - 1, x);
      assert x in Visited(turn, from, n) <==> x in Visited(turn, from, n - 1) || Stands(turn, from, n - 1, x);
    }
  }

  lemma {:induction false} VisitedCount(turn: int -> Turn, from: int, n: nat)
    requires !Repeats(turn, from) && !Ends(turn, from)
    ensures |Visited(turn, from, n)| == n
    decreases n
  {
    if n > 0 {
      VisitedCount(turn, from, n - 1);
      var at := Turns(turn, from, n - 1).offset.value;
      VisitedWhen(turn, from, n - 1, at);
      assert forall k: nat :: k < n - 1 ==> !Stands(turn, from, k, at);
    }
  }

  /** A reader that never ends comes round, if there are only so many places to go on from. */
  lemma EndlessRepeats(turn: int -> Turn, from: int, lo: int, n: nat)
    requires !Ends(turn, from) && forall x :: turn(x).Step? ==> lo <= x < lo + n
    ensures Repeats(turn, from)
  {
    if !Repeats(turn, from) {
      VisitedCount(turn, from, n + 1);
      forall x | x in Visited(turn, from, n + 1)
        ensures x in Range(lo, n)
      {
        VisitedWhen(turn, from, n + 1, x);
        var k: nat :| k < n + 1 && Stands(turn, from, k, x);
        TurnsSnoc(turn, from, k);
        assert Turns(turn, from, k + 1).offset.Some?;
      }
      WithinRange(Visited(turn, from, n + 1), lo, n);
    }
  }

  /** Before a turn that goes on the offset is within the buffer's length of the buffer. */
  lemma StepIsNear(bytes: Bytes, offset: int)
    requires TurnAt(bytes, offset).Step?
    ensures -|bytes| - BLOCK <= offset < |bytes|
  {
    assert offset <= -|bytes| - BLOCK ==> Slice(bytes, offset, offset + BLOCK) == [];
  }

  /** The reader of any buffer ends exactly when its offset never comes round. */
  lemma EndsWhen(bytes: Bytes)
    ensures Ends(Over(bytes), 0) <==> !Repeats(Over(bytes), 0)
  {
    if Repeats(Over(bytes), 0) {
      RepeatsNeverEnds(Over(bytes), 0);
    } else if !Ends(Over(bytes), 0) {
      forall x | Over(bytes)(x).Step?
        ensures -|bytes| - BLOCK <= x < -|bytes| - BLOCK + (2 * |bytes| + BLOCK)
      {
        StepIsNear(bytes, x);
      }
      EndlessRepeats(Over(bytes), 0, -|bytes| - BLOCK, 2 * |bytes| + BLOCK);
    }
  }

  /** A first header whose size takes the reader back by the block it has just read. */
  lemma BackToTheStart(bytes: Bytes)
    requires |bytes| >= BLOCK && !AllZero(bytes[..BLOCK])
    requires var size := ParseSize(bytes[124..135]); size.Some? && -2 * BLOCK < size.value <= -BLOCK
    ensures !Ends(Over(bytes), 0)
  {
    var header := Slice(bytes, 0, BLOCK);
    assert header == bytes[..BLOCK] && Slice(header, 124, 135) == bytes[124..135];
    assert TurnAt(bytes, 0).Step? && TurnAt(bytes, 0).next == 0;
    OneMoreTurn(Over(bytes), 0, 0, [], 0);
    assert Turns(Over(bytes), 0, 0).offset == Turns(Over(bytes), 0, 1).offset == Some(0);
    RepeatsNeverEnds(Over(bytes), 0);
  }

  const MINUS_ONE_BLOCK: Bytes := [45, 49, 48, 48, 48, 0, 0, 0, 0, 0, 0]

  lemma OneThousand()
    ensures OctalValue([49, 48, 48, 48]) == 512
  {
    assert [49, 48, 48, 48][..3] == [49, 48, 48] && [49, 48, 48][..2] == [49, 48] && [49, 48][..1] == [49] && [49][..0] == [];
    assert OctalValue([49]) == 1 && OctalValue([49, 48]) == 8 && OctalValue([49, 48, 48]) == 64;
  }

  /** The octal digits in front, up to something that is none. */
  lemma {:induction false} DigitsInFront(digits: Bytes, rest: Bytes)
    requires AllOctal(digits) && (rest == [] || !OctalDigit(rest[0]))
    ensures OctalPrefix(digits + rest) == digits
    decreases |digits|
  {
    if digits == [] {
      assert [] + rest == rest;
    } else {
      DigitsInFront(digits[1..], rest);
      assert (digits + rest)[1..] == digits[1..] + rest && digits == [digits[0]] + digits[1..];
    }
  }

  lemma MinusOneBlock()
    ensures ParseSize(MINUS_ONE_BLOCK) == Some(-BLOCK)
  {
    var text := seq(|MINUS_ONE_BLOCK|, i requires 0 <= i < |MINUS_ONE_BLOCK| => MINUS_ONE_BLOCK[i] % 128);
    assert text == [45] + ([49, 48, 48, 48] + Zeros(6));
    DigitsInFront([49, 48, 48, 48], Zeros(6));
    OneThousand();
    assert text[1..] == [49, 48, 48, 48] + Zeros(6);
  }

  /** A size of minus one block: the reader stands at the first header again and again. */
  lemma NegativeSizeComesRound(rest: Bytes) returns (bytes: Bytes)
    ensures |bytes| >= BLOCK && bytes[BLOCK..] == rest && Repeats(Over(bytes), 0) && !Ends(Over(bytes), 0)
  {
    bytes := Zeros(124) + MINUS_ONE_BLOCK + Zeros(377) + rest;
    assert bytes[124] == 45 && bytes[124..135] == MINUS_ONE_BLOCK;
    assert bytes[..BLOCK][124] == 45;
    MinusOneBlock();
    BackToTheStart(bytes);
    EndsWhen(bytes);
  }

  // ---- what a reading comes to ----

  datatype TarReading = Entries(entries: seq<TarEntry>) | Endless

  function Prepend(e: TarEntry, r: TarReading): TarReading {
    if r.Endless? then r else Entries([e] + r.entries)
  }

  type Reader = (Bytes, int) -> TarReading

  ghost function Outcome(turn: int -> Turn, from: int): TarReading {
    if Ends(turn, from) then
      var n: nat :| Turns(turn, from, n).offset.None?;
      Entries(Turns(turn, from, n).entries)
    else Endless
  }

  ghost function ReadFrom(bytes: Bytes, from: int): TarReading {
    Outcome(Over(bytes), from)
  }

  /** A reading that has ended is what it comes to. */
  lemma EndedIsRead(turn: int -> Turn, from: int, n: nat)
    requires Turns(turn, from, n).offset.None?
    ensures Outcome(turn, from) == Entries(Turns(turn, from, n).entries)
  {
    forall m: nat | Turns(turn, from, m).offset.None?
      ensures Turns(turn, from, m) == Turns(turn, from, n)
    {
      EndedStays(turn, from, if m < n then m else n, if m < n then n else m);
    }
  }

  lemma {:induction false} TurnsAfterStep(turn: int -> Turn, from: int, n: nat)
    requires turn(from).Step?
    ensures var rest := Turns(turn, turn(from).next, n);
            Turns(turn, from, n + 1) == Progress([turn(from).entry] + rest.entries, rest.offset)
    decreases n
  {
    var first := turn(from);
    TurnsSnoc(turn, from, n);
    if n == 0 {
      assert Turns(turn, from, 0) == Progress([], Some(from));
      assert [] + [first.entry] == [first.entry] + [];
    } else {
      TurnsAfterStep(turn, from, n - 1);
      var before := Turns(turn, first.next, n - 1);
      var last := if before.offset.Some? then turn(before.offset.value) else Done;
      if last.Last? || last.Step? {
        assert ([first.entry] + before.entries) + [last.entry] == [first.entry] + (before.entries + [last.entry]);
      }
    }
  }

  /** A reading goes on from where its first turn leads. */
  lemma ReadOn(turn: int -> Turn, from: int)
    requires turn(from).Step?
    ensures Outcome(turn, from) == Prepend(turn(from).entry, Outcome(turn, turn(from).next))
  {
    var next := turn(from).next;
    if n: nat :| Turns(turn, next, n).offset.None? {
      TurnsAfterStep(turn, from, n);
      EndedIsRead(turn, next, n);
      EndedIsRead(turn, from, n + 1);
    } else if n: nat :| Turns(turn, from, n).offset.None? {
      TurnsAfterStep(turn, from, n - 1);
    }
  }

  /** Where a size that is not negative leads, and what it takes. */
  function NextOffset(offset: nat, size: nat): (next: nat) {
    offset + BLOCK + (size + BLOCK - 1) / BLOCK * BLOCK
  }

  function Content(bytes: Bytes, start: nat, size: nat): Bytes
    requires start <= |bytes|
  {
    if start + size <= |bytes| then bytes[start..start + size] else bytes[start..]
  }

  // ---- what survives a round trip, exactly ----

  /** The header's name field gives this name back. */
  predicate NameSurvives(name: Bytes) {
    |name| <= 100 && forall i :: 0 <= i < |name| && name[i] == 0 ==> HasLineEnd(name[i + 1..])
  }

  predicate Survives(e: TarEntry) {
    NameSurvives(e.name) && |e.content| < Pow8(11)
  }

  lemma LineEndInPadded(s: Bytes, n: nat)
    ensures HasLineEnd(s + Zeros(n)) <==> HasLineEnd(s)
  {
    var padded := s + Zeros(n);
    forall i | 0 <= i < |s|
      ensures LineEndAt(padded, i) <==> LineEndAt(s, i)
    {
    }
    forall i | |s| <= i < |padded|
      ensures !LineEndAt(padded, i)
    {
    }
  }

  lemma {:induction false} CutPadded(name: Bytes, n: nat, i: nat)
    requires i <= |name| && n + |name| == 100
    ensures CutName(name + Zeros(n), i) == name <==> (forall j :: i <= j < |name| && name[j] == 0 ==> HasLineEnd(name[j + 1..]))
    decreases |name| - i
  {
    var field := name + Zeros(n);
    if i < |name| {
      assert field[i + 1..] == name[i + 1..] + Zeros(n);
      LineEndInPadded(name[i + 1..], n);
      CutPadded(name, n, i + 1);
    } else if n > 0 {
      assert field[i + 1..] == Zeros(n - 1);
      assert field[..i] == name;
    } else {
      assert field == name;
    }
  }

  lemma {:induction false} CutShortens(field: Bytes, i: nat)
    requires i <= |field|
    ensures |CutName(field, i)| <= |field|
    decreases |field| - i
  {
    if i < |field| {
      CutShortens(field, i + 1);
    }
  }

  lemma NameRoundTrip(name: Bytes)
    ensures CutName(NameField(name), 0) == name <==> NameSurvives(name)
  {
    if |name| <= 100 {
      CutPadded(name, 100 - |name|, 0);
    } else {
      CutShortens(NameField(name), 0);
    }
  }

  lemma {:induction false} PrefixValue(s: Bytes, k: nat)
    requires AllOctal(s) && k < |s|
    ensures AllOctal(s[..k]) && OctalValue(s[..k]) <= OctalValue(s) && (OctalValue(s[..k]) == OctalValue(s) ==> OctalValue(s) == 0)
    decreases |s|
  {
    var init := s[..|s| - 1];
    if k < |init| {
      PrefixValue(init, k);
      assert init[..k] == s[..k];
    }
  }

  lemma OctalTextParses(field: Bytes)
    requires AllOctal(field) && field != []
    ensures ParseSize(field) == Some(OctalValue(field))
  {
    var text := seq(|field|, i requires 0 <= i < |field| => field[i] % 128);
    assert text == field;
    assert SkipSpaces(text) == text;
  }

  /** The size field reads back as the size exactly when it fits eleven octal digits, and
      otherwise as something smaller. */
  lemma SizeRoundTrip(size: nat)
    ensures var read := ParseSize(SizeText(size)[..11]);
            read.Some? && 0 <= read.value <= size && (read.value == size <==> size < Pow8(11))
  {
    var digits, field := ToOctal(size), SizeText(size)[..11];
    OctalWidth(size, 11);
    OctalRoundTrip(size);
    if |digits| <= 11 {
      OctalOfPadded(11 - |digits|, digits);
      assert field == PadStart(digits, 11);
    } else {
      assert field == digits[..11];
      PrefixValue(digits, 11);
      assert Pow8(11) > 0;
    }
    OctalTextParses(field);
  }

  /** `h` reads as the header of `e`: its name when the name survives, and its size when that does. */
  ghost predicate Heads(h: Bytes, e: TarEntry) {
    && |h| == BLOCK && !AllZero(h)
    && (CutName(h[..100], 0) == e.name <==> NameSurvives(e.name))
    && var read := ParseSize(h[124..135]);
       read.Some? && 0 <= read.value <= |e.content| && (read.value == |e.content| <==> |e.content| < Pow8(11))
  }

  lemma HeaderHeads(e: TarEntry)
    ensures Heads(Header(e.name, |e.content|), e)
  {
    var h := Header(e.name, |e.content|);
    ChecksumFits(e.name, |e.content|);
    HeaderChecks(e.name, |e.content|);
    assert h[..100] == NameField(e.name);
    assert h[124..135] == SizeText(|e.content|)[..11];
    NameRoundTrip(e.name);
    SizeRoundTrip(|e.content|);
  }

  /** What is read at `at` is one entry, `e` exactly when `e` survives, and then what follows
      `length` bytes on. */
  ghost predicate ReadsAt(read: Reader, bytes: Bytes, at: nat, length: nat, e: TarEntry) {
    ReadsFirst(read(bytes, at), e, read(bytes, at + length))
  }

  /** A reading that starts with `e`, and goes on with `after`, exactly when `e` survives. */
  ghost predicate ReadsFirst(r: TarReading, e: TarEntry, after: TarReading) {
    exists first, next :: r == Prepend(first, next) && (first == e <==> Survives(e)) && (Survives(e) ==> next == after)
  }

  /** `block` reads back as `e` wherever it stands. */
  ghost predicate ReadsAs(read: Reader, block: Bytes, e: TarEntry) {
    forall before: Bytes, rest: Bytes {:trigger before + block + rest} :: ReadsAt(read, before + block + rest, |before|, |block|, e)
  }

  /** What a turn at a header with a size takes, and where it leads. */
  lemma HeadTurn(bytes: Bytes, offset: nat, header: Bytes, read: nat)
    requires offset + BLOCK <= |bytes| && header == bytes[offset..offset + BLOCK]
    requires !AllZero(header) && ParseSize(header[124..135]) == Some(read)
    ensures TurnAt(bytes, offset) == Step(TarEntry(CutName(header[..100], 0), Content(bytes, offset + BLOCK, read)), NextOffset(offset, read))
  {
    SliceWithin(bytes, offset, offset + BLOCK);
    SliceWithin(header, 0, 100);
    SliceWithin(header, 124, 135);
    TakeForward(bytes, offset + BLOCK, CutName(header[..100], 0), read);
  }

  lemma SliceWithin(bytes: Bytes, start: nat, end: nat)
    requires start <= end <= |bytes|
    ensures Slice(bytes, start, end) == bytes[start..end]
  {
  }

  lemma TakeForward(bytes: Bytes, start: nat, name: Bytes, size: nat)
    requires BLOCK <= start <= |bytes|
    ensures Take(bytes, start, name, Some(size)) == Step(TarEntry(name, Content(bytes, start, size)), NextOffset(start - BLOCK, size))
  {
  }

  lemma ReadHead(bytes: Bytes, offset: nat, header: Bytes, read: nat)
    requires offset + BLOCK <= |bytes| && header == bytes[offset..offset + BLOCK]
    requires !AllZero(header) && ParseSize(header[124..135]) == Some(read)
    ensures ReadFrom(bytes, offset) == Prepend(TarEntry(CutName(header[..100], 0), Content(bytes, offset + BLOCK, read)), ReadFrom(bytes, NextOffset(offset, read)))
  {
    HeadTurn(bytes, offset, header, read);
    ReadOn(Over(bytes), offset);
  }

  lemma BlockPlaces(h: Bytes, content: Bytes, padding: Bytes, before: Bytes, rest: Bytes, read: nat)
    requires |h| == BLOCK && read <= |content|
    ensures var bytes := before + (h + content + padding) + rest;
            && bytes[|before|..|before| + BLOCK] == h
            && Content(bytes, |before| + BLOCK, read) == content[..read]
  {
  }

  /** What a header and its content give back is the entry exactly when the entry survives. */
  lemma HeadMatches(h: Bytes, e: TarEntry, read: nat)
    requires Heads(h, e) && read == ParseSize(h[124..135]).value
    ensures TarEntry(CutName(h[..100], 0), e.content[..read]) == e <==> Survives(e)
    ensures Survives(e) ==> read == |e.content|
  {
  }

  lemma ReadBlockAt(bytes: Bytes, at: nat, h: Bytes, e: TarEntry, length: nat, read: nat)
    requires Heads(h, e) && at + BLOCK <= |bytes| && bytes[at..at + BLOCK] == h && ParseSize(h[124..135]) == Some(read)
    requires Content(bytes, at + BLOCK, read) == e.content[..read]
    requires at + length == NextOffset(at, |e.content|)
    ensures ReadsAt(ReadFrom, bytes, at, length, e)
  {
    var first := TarEntry(CutName(h[..100], 0), e.content[..read]);
    HeadMatches(h, e, read);
    assert Survives(e) ==> NextOffset(at, read) == at + length;
    ReadHead(bytes, at, h, read);
    StartsWith(ReadFrom(bytes, at), e, first, ReadFrom(bytes, NextOffset(at, read)), ReadFrom(bytes, at + length));
  }

  lemma StartsWith(r: TarReading, e: TarEntry, first: TarEntry, next: TarReading, after: TarReading)
    requires r == Prepend(first, next) && (first == e <==> Survives(e)) && (Survives(e) ==> next == after)
    ensures ReadsFirst(r, e, after)
  {
  }

  lemma ReadBlock(h: Bytes, e: TarEntry, padding: Bytes, before: Bytes, rest: Bytes)
    requires Heads(h, e) && padding == Padding(|e.content|)
    ensures ReadsAt(ReadFrom, before + (h + e.content + padding) + rest, |before|, |h + e.content + padding|, e)
  {
    var read := ParseSize(h[124..135]).value;
    BlockPlaces(h, e.content, padding, before, rest, read);
    PaddedLength(|e.content|);
    ReadBlockAt(before + (h + e.content + padding) + rest, |before|, h, e, |h + e.content + padding|, read);
  }

  lemma BlockReads(h: Bytes, e: TarEntry)
    requires Heads(h, e)
    ensures ReadsAs(ReadFrom, h + e.content + Padding(|e.content|), e)
  {
    var padding := Padding(|e.content|);
    forall before: Bytes, rest: Bytes
      ensures ReadsAt(ReadFrom, before + (h + e.content + padding) + rest, |before|, |h + e.content + padding|, e)
    {
      ReadBlock(h, e, padding, before, rest);
    }
  }

  lemma BlocksRead(es: seq<TarEntry>)
    ensures forall i :: 0 <= i < |es| ==> ReadsAs(ReadFrom, Blocks(es)[i], es[i])
  {
    forall i | 0 <= i < |es|
      ensures ReadsAs(ReadFrom, Blocks(es)[i], es[i])
    {
      HeaderHeads(es[i]);
      BlockReads(Header(es[i].name, |es[i].content|), es[i]);
    }
  }

  lemma PaddedLength(size: nat)
    ensures BLOCK + size + |Padding(size)| == if size == 0 then BLOCK else BLOCK + (size + BLOCK - 1) / BLOCK * BLOCK
  {
  }

  lemma ReadsOn(r: TarReading, after: TarReading, e: TarEntry, rest: seq<TarEntry>, survive: bool)
    requires ReadsFirst(r, e, after) && (after == Entries(rest) <==> survive)
    ensures r == Entries([e] + rest) <==> Survives(e) && survive
  {
    var first, next :| r == Prepend(first, next) && (first == e <==> Survives(e)) && (Survives(e) ==> next == after);
    assert next.Entries? ==> ([first] + next.entries)[0] == first && ([first] + next.entries)[1..] == next.entries;
    assert ([e] + rest)[0] == e && ([e] + rest)[1..] == rest;
  }

  lemma FirstBlock(read: Reader, block: Bytes, e: TarEntry, before: Bytes, rest: Bytes)
    requires ReadsAs(read, block, e)
    ensures ReadsAt(read, before + block + rest, |before|, |block|, e)
  {
  }

  predicate AllSurvive(es: seq<TarEntry>) {
    es == [] || (Survives(es[0]) && AllSurvive(es[1..]))
  }

  lemma {:induction false} AllSurviveEach(es: seq<TarEntry>)
    ensures AllSurvive(es) <==> forall i :: 0 <= i < |es| ==> Survives(es[i])
    decreases |es|
  {
    if es != [] {
      AllSurviveEach(es[1..]);
      assert forall i :: 0 < i < |es| ==> es[i] == es[1..][i - 1];
    }
  }

  /** `tail` reads back as `es`, all of them surviving, wherever it stands at the end. */
  ghost predicate ReadsAll(read: Reader, tail: Bytes, es: seq<TarEntry>) {
    forall before: Bytes {:trigger before + tail} :: read(before + tail, |before|) == Entries(es) <==> AllSurvive(es)
  }

  /** The two zero blocks end the archive. */
  lemma TrailerEnds()
    ensures ReadsAll(ReadFrom, Zeros(1024), [])
  {
    forall before: Bytes
      ensures ReadFrom(before + Zeros(1024), |before|) == Entries([])
    {
      var bytes := before + Zeros(1024);
      assert AllZero(Slice(bytes, |before|, |before| + BLOCK));
      assert Turns(Over(bytes), |before|, 0) == Progress([], Some(|before|));
      TurnsSnoc(Over(bytes), |before|, 0);
      EndedIsRead(Over(bytes), |before|, 1);
    }
  }

  lemma TailReads(read: Reader, tail: Bytes, es: seq<TarEntry>, before: Bytes)
    requires ReadsAll(read, tail, es)
    ensures read(before + tail, |before|) == Entries(es) <==> AllSurvive(es)
  {
  }

  lemma OneMoreBlock(read: Reader, block: Bytes, e: TarEntry, tail: Bytes, es: seq<TarEntry>)
    requires ReadsAs(read, block, e) && ReadsAll(read, tail, es)
    ensures ReadsAll(read, block + tail, [e] + es)
  {
    forall before: Bytes
      ensures read(before + (block + tail), |before|) == Entries([e] + es) <==> AllSurvive([e] + es)
    {
      FirstBlock(read, block, e, before, tail);
      TailReads(read, tail, es, before + block);
      AppendAssociates(before, block, tail);
      var bytes := before + block + tail;
      ReadsOn(read(bytes, |before|), read(bytes, |before| + |block|), e, es, AllSurvive(es));
      assert ([e] + es)[1..] == es;
    }
  }

  lemma {:induction false} BlocksRoundTrip(read: Reader, blocks: seq<Bytes>, es: seq<TarEntry>)
    requires |blocks| == |es| && forall i :: 0 <= i < |es| ==> ReadsAs(read, blocks[i], es[i])
    requires ReadsAll(read, Zeros(1024), [])
    ensures ReadsAll(read, Concat(blocks) + Zeros(1024), es)
    decreases |es|
  {
    if es == [] {
      assert [] + Zeros(1024) == Zeros(1024);
    } else {
      BlocksRoundTrip(read, blocks[1..], es[1..]);
      OneMoreBlock(read, blocks[0], es[0], Concat(blocks[1..]) + Zeros(1024), es[1..]);
      AppendAssociates(blocks[0], Concat(blocks[1..]), Zeros(1024));
      assert es == [es[0]] + es[1..];
    }
  }

  lemma SnocKeeps(s: seq<TarEntry>, e: TarEntry)
    ensures multiset(s + [e]) == multiset(s) + multiset{e}
  {
  }

  lemma {:induction false} SortKeeps(less: (Bytes, Bytes) -> bool, es: seq<TarEntry>)
    ensures multiset(Sort(less, es)) == multiset(es)
    decreases |es|
  {
    if es != [] {
      var init, last := es[..|es| - 1], es[|es| - 1];
      SortKeeps(less, init);
      InsertKeeps(less, last, Sort(less, init));
      SnocKeeps(init, last);
      assert es == init + [last];
    }
  }

  lemma ConsKeeps(e: TarEntry, s: seq<TarEntry>)
    ensures multiset([e] + s) == multiset(s) + multiset{e}
  {
  }

  lemma {:induction false} InsertKeeps(less: (Bytes, Bytes) -> bool, e: TarEntry, s: seq<TarEntry>)
    ensures multiset(Insert(less, e, s)) == multiset(s) + multiset{e}
    decreases |s|
  {
    if s == [] {
    } else if less(e.name, s[0].name) {
      ConsKeeps(e, s);
    } else {
      InsertKeeps(less, e, s[1..]);
      ConsKeeps(s[0], Insert(less, e, s[1..]));
      ConsKeeps(s[0], s[1..]);
      assert s == [s[0]] + s[1..];
    }
  }

  /** `readTar(writeTar(es))` is `es` sorted by name with the same contents, exactly when every
      name and size survives its header field. */
  lemma RoundTrip(less: (Bytes, Bytes) -> bool, es: seq<TarEntry>)
    ensures ReadFrom(WriteTar(less, es), 0) == Entries(Sort(less, es)) <==> (forall e :: e in es ==> Survives(e))
    ensures multiset(Sort(less, es)) == multiset(es)
  {
    var sorted := Sort(less, es);
    BlocksRead(sorted);
    TrailerEnds();
    BlocksRoundTrip(ReadFrom, Blocks(sorted), sorted);
    TailReads(ReadFrom, Concat(Blocks(sorted)) + Zeros(1024), sorted, []);
    AllSurviveEach(sorted);
    assert [] + (Concat(Blocks(sorted)) + Zeros(1024)) == WriteTar(less, es);
    SortKeeps(less, es);
    assert forall e :: e in es <==> e in multiset(es);
    assert forall e :: e in sorted <==> e in multiset(sorted);
    assert (forall i :: 0 <= i < |sorted| ==> Survives(sorted[i])) <==> (forall e :: e in sorted ==> Survives(e));
  }

  // ---- the sort, and the writer's indifference to order ----

  ghost predicate SortedByName(less: (Bytes, Bytes) -> bool, s: seq<TarEntry>) {
    forall i, j :: 0 <= i < j < |s| ==> !less(s[j].name, s[i].name)
  }

  lemma {:induction false} InsertSorts(less: (Bytes, Bytes) -> bool, e: TarEntry, s: seq<TarEntry>)
    requires StrictOrder(less) && SortedByName(less, s)
    ensures SortedByName(less, Insert(less, e, s))
    decreases |s|
  {
    if s != [] && !less(e.name, s[0].name) {
      InsertSorts(less, e, s[1..]);
      InsertKeeps(less, e, s[1..]);
      var r := Insert(less, e, s[1..]);
      forall k | 0 <= k < |r|
        ensures !less(r[k].name, s[0].name)
      {
        assert r[k] in multiset(r);
        assert r[k] == e || r[k] in s[1..];
      }
    } else {
      forall j | 0 <= j < |s|
        ensures !less(s[j].name, e.name)
      {
      }
    }
  }

  lemma {:induction false} SortSorts(less: (Bytes, Bytes) -> bool, es: seq<TarEntry>)
    requires StrictOrder(less)
    ensures SortedByName(less, Sort(less, es))
    decreases |es|
  {
    if es != [] {
      SortSorts(less, es[..|es| - 1]);
      InsertSorts(less, es[|es| - 1], Sort(less, es[..|es| - 1]));
    }
  }

  ghost predicate DistinctNames(es: seq<TarEntry>) {
    forall i, j :: 0 <= i < j < |es| ==> es[i].name != es[j].name
  }

  lemma SameHead(less: (Bytes, Bytes) -> bool, a: seq<TarEntry>, b: seq<TarEntry>)
    requires StrictOrder(less) && SortedByName(less, a) && SortedByName(less, b)
    requires a != [] && b != [] && multiset(a) == multiset(b)
    requires forall x, y :: x in a && y in a && x.name == y.name ==> x == y
    ensures a[0] == b[0]
  {
    assert b[0] in multiset(b) && a[0] in multiset(a);
    var i :| 0 <= i < |a| && a[i] == b[0];
    var j :| 0 <= j < |b| && b[j] == a[0];
    assert !less(a[i].name, a[0].name) && !less(b[j].name, b[0].name);
  }

  lemma TailMultiset(s: seq<TarEntry>)
    requires s != []
    ensures multiset(s[1..]) == multiset(s) - multiset{s[0]}
  {
    ConsKeeps(s[0], s[1..]);
    assert s == [s[0]] + s[1..];
  }

  lemma {:induction false} SortedIsUnique(less: (Bytes, Bytes) -> bool, a: seq<TarEntry>, b: seq<TarEntry>)
    requires StrictOrder(less) && SortedByName(less, a) && SortedByName(less, b)
    requires multiset(a) == multiset(b)
    requires forall x, y :: x in a && y in a && x.name == y.name ==> x == y
    ensures a == b
    decreases |a|
  {
    assert |a| == |multiset(a)| == |multiset(b)| == |b|;
    if a != [] {
      SameHead(less, a, b);
      TailMultiset(a);
      TailMultiset(b);
      assert forall x :: x in a[1..] ==> x in a;
      SortedIsUnique(less, a[1..], b[1..]);
    }
  }

  /** The archive's bytes do not depend on the order distinct-named entries are given in. */
  lemma OrderIndependent(less: (Bytes, Bytes) -> bool, es: seq<TarEntry>, fs: seq<TarEntry>)
    requires StrictOrder(less) && multiset(es) == multiset(fs) && DistinctNames(es)
    ensures WriteTar(less, es) == WriteTar(less, fs)
  {
    SortKeeps(less, es);
    SortKeeps(less, fs);
    SortSorts(less, es);
    SortSorts(less, fs);
    var a := Sort(less, es);
    forall x, y | x in a && y in a && x.name == y.name
      ensures x == y
    {
      assert x in multiset(es) && y in multiset(es);
      assert x in es && y in es;
    }
    SortedIsUnique(less, a, Sort(less, fs));
  }
}
