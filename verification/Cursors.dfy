/**
 * The signed resumable cursor (apps/api/src/cursors.ts) over unpadded base64url (section 5 of
 * RFC 4648). The HMAC, the JSON printer and parser, and what the lenient decoder makes of text
 * that is not an encoding are parameters.
 */
module Cursors {
  import opened ByteStreams

  const SIGNATURE_BYTES := 32
  const MAX_CURSOR_LENGTH := 512
  const MAX_SAFE_INTEGER := 0x1F_FFFF_FFFF_FFFF
  const CURSOR_VERSION := 1

  // ---- base64url ----

  type Sextet = n: int | 0 <= n < 64

  function Letter(n: Sextet): (c: char)
    ensures c != '.'
  {
    if n < 26 then (n + 'A' as int) as char
    else if n < 52 then (n - 26 + 'a' as int) as char
    else if n < 62 then (n - 52 + '0' as int) as char
    else if n == 62 then '-' else '_'
  }

  function Value(c: char): Option<Sextet> {
    if 'A' <= c <= 'Z' then Some(c as int - 'A' as int)
    else if 'a' <= c <= 'z' then Some(c as int - 'a' as int + 26)
    else if '0' <= c <= '9' then Some(c as int - '0' as int + 52)
    else if c == '-' then Some(62) else if c == '_' then Some(63) else None
  }

  lemma LetterValue(n: Sextet)
    ensures Value(Letter(n)) == Some(n)
  {
  }

  /** The four sextets of three bytes; a missing byte counts as 0. */
  function Sextet0(b0: byte): Sextet { b0 / 4 }
  function Sextet1(b0: byte, b1: byte): Sextet { b0 % 4 * 16 + b1 / 16 }
  function Sextet2(b1: byte, b2: byte): Sextet { b1 % 16 * 4 + b2 / 64 }
  function Sextet3(b2: byte): Sextet { b2 % 64 }

  function Encode(b: Bytes): string
    decreases |b|
  {
    if |b| == 0 then []
    else if |b| == 1 then [Letter(Sextet0(b[0])), Letter(Sextet1(b[0], 0))]
    else if |b| == 2 then [Letter(Sextet0(b[0])), Letter(Sextet1(b[0], b[1])), Letter(Sextet2(b[1], 0))]
    else [Letter(Sextet0(b[0])), Letter(Sextet1(b[0], b[1])), Letter(Sextet2(b[1], b[2])), Letter(Sextet3(b[2]))] + Encode(b[3..])
  }

  function Byte0(v0: Sextet, v1: Sextet): byte { v0 * 4 + v1 / 16 }
  function Byte1(v1: Sextet, v2: Sextet): byte { v1 % 16 * 16 + v2 / 4 }
  function Byte2(v2: Sextet, v3: Sextet): byte { v2 % 4 * 64 + v3 }

  lemma BytesOfSextets(b0: byte, b1: byte, b2: byte)
    ensures Byte0(Sextet0(b0), Sextet1(b0, b1)) == b0
    ensures Byte1(Sextet1(b0, b1), Sextet2(b1, b2)) == b1
    ensures Byte2(Sextet2(b1, b2), Sextet3(b2)) == b2
    ensures Sextet1(b0, 0) % 16 == 0 && Sextet2(b1, 0) % 4 == 0
  {
  }

  /** The bytes an encoding stands for; None for text no bytes encode to. */
  function Decode(s: string): Option<Bytes>
    decreases |s|
  {
    if |s| == 0 then Some([])
    else if |s| == 1 || Value(s[0]).None? || Value(s[1]).None? then None
    else
      var v0, v1 := Value(s[0]).value, Value(s[1]).value;
      if |s| == 2 then if v1 % 16 == 0 then Some([Byte0(v0, v1)]) else None
      else if Value(s[2]).None? then None
      else
        var v2 := Value(s[2]).value;
        if |s| == 3 then if v2 % 4 == 0 then Some([Byte0(v0, v1), Byte1(v1, v2)]) else None
        else if Value(s[3]).None? || Decode(s[4..]).None? then None
        else Some([Byte0(v0, v1), Byte1(v1, v2), Byte2(v2, Value(s[3]).value)] + Decode(s[4..]).value)
  }

  lemma OneRoundTrip(b0: byte)
    ensures Decode([Letter(Sextet0(b0)), Letter(Sextet1(b0, 0))]) == Some([b0])
  {
  }

  lemma TwoRoundTrip(b0: byte, b1: byte)
    ensures Decode([Letter(Sextet0(b0)), Letter(Sextet1(b0, b1)), Letter(Sextet2(b1, 0))]) == Some([b0, b1])
  {
    LetterValue(Sextet0(b0));
    LetterValue(Sextet1(b0, b1));
    LetterValue(Sextet2(b1, 0));
    BytesOfSextets(b0, b1, 0);
  }

  lemma {:induction false} EncodeRoundTrip(b: Bytes)
    ensures Decode(Encode(b)) == Some(b)
    decreases |b|
  {
    if |b| == 1 {
      OneRoundTrip(b[0]);
      assert b == [b[0]];
    } else if |b| == 2 {
      TwoRoundTrip(b[0], b[1]);
      assert b == [b[0], b[1]];
    } else if |b| >= 3 {
      EncodeRoundTrip(b[3..]);
      GroupRoundTrip(b[0], b[1], b[2], Encode(b[3..]), b[3..]);
      assert b == [b[0], b[1], b[2]] + b[3..];
    }
  }

  lemma GroupRoundTrip(b0: byte, b1: byte, b2: byte, rest: string, decoded: Bytes)
    requires Decode(rest) == Some(decoded)
    ensures Decode([Letter(Sextet0(b0)), Letter(Sextet1(b0, b1)), Letter(Sextet2(b1, b2)), Letter(Sextet3(b2))] + rest) == Some([b0, b1, b2] + decoded)
  {
    var s := [Letter(Sextet0(b0)), Letter(Sextet1(b0, b1)), Letter(Sextet2(b1, b2)), Letter(Sextet3(b2))] + rest;
    LetterValue(Sextet0(b0));
    LetterValue(Sextet1(b0, b1));
    LetterValue(Sextet2(b1, b2));
    LetterValue(Sextet3(b2));
    BytesOfSextets(b0, b1, b2);
    assert s[4..] == rest;
  }

  /** Two bytes strings never share an encoding. */
  lemma EncodeInjective(a: Bytes, b: Bytes)
    ensures Encode(a) == Encode(b) <==> a == b
  {
    EncodeRoundTrip(a);
    EncodeRoundTrip(b);
  }

  lemma {:induction false} EncodeLength(b: Bytes)
    ensures |Encode(b)| == (4 * |b| + 2) / 3
    ensures forall i :: 0 <= i < |Encode(b)| ==> Encode(b)[i] != '.'
    decreases |b|
  {
    if |b| >= 3 {
      EncodeLength(b[3..]);
      forall i | 0 <= i < |Encode(b)|
        ensures Encode(b)[i] != '.'
      {
        assert i >= 4 ==> Encode(b)[i] == Encode(b[3..])[i - 4];
      }
    }
  }

  // ---- the codec ----

  datatype Binding = Binding(spaceId: string, threadId: string, userId: string)

  datatype Rejection = Malformed | Forged | OtherBinding

  /** A member of the parsed JSON object. */
  datatype Member = Missing | Text(text: string) | Integer(i: int) | Other

  datatype Json = Unparseable | NotAnObject | Object(v: Member, s: Member, t: Member, u: Member, q: Member)

  /** A position as the caller passes it: an integer, or a fraction, a NaN or an infinity. */
  datatype Number = Whole(i: int) | NotWhole

  predicate Safe(q: Number) {
    q.Whole? && 0 <= q.i <= MAX_SAFE_INTEGER
  }

  /** What surrounds the codec: the HMAC under its key, `JSON.stringify` and `JSON.parse`, and
      Node's decoder, which accepts more than encodings. `double` are the integers a number can be. */
  datatype Primitives = Primitives(double: int -> bool, mac: string -> Bytes, stringify: (Binding, Number) -> Bytes, parse: Bytes -> Json, decode: string -> Bytes)

  predicate IsNumber(p: Primitives, q: Number) {
    q.Whole? ==> p.double(q.i)
  }

  /** What the parser makes of a printed position; a fraction stays one, and what is no finite
      number is printed as null. */
  function Printed(b: Binding, q: Number): Json {
    Object(Integer(CURSOR_VERSION), Text(b.spaceId), Text(b.threadId), Text(b.userId), if q.Whole? then Integer(q.i) else Other)
  }

  /** An HMAC is 32 bytes, every safe integer is a number, JSON is never empty, the parser reads
      back the numbers that were printed, and the decoder inverts the encoder. */
  ghost predicate Faithful(p: Primitives) {
    && (forall s :: |p.mac(s)| == SIGNATURE_BYTES)
    && (forall i :: -MAX_SAFE_INTEGER <= i <= MAX_SAFE_INTEGER ==> p.double(i))
    && (forall b, q :: IsNumber(p, q) ==> p.stringify(b, q) != [] && p.parse(p.stringify(b, q)) == Printed(b, q))
    && (forall b :: p.decode(Encode(b)) == b)
  }

  function PayloadOf(p: Primitives, b: Binding, seqNo: Number): string {
    Encode(p.stringify(b, seqNo))
  }

  function Sign(p: Primitives, b: Binding, seqNo: Number): string {
    var payload := PayloadOf(p, b, seqNo);
    payload + "." + Encode(p.mac(payload))
  }

  /** `split(".")`. */
  function Split(s: string): (parts: seq<string>)
    ensures parts != []
    decreases |s|
  {
    if s == [] then [[]]
    else
      var rest := Split(s[1..]);
      if s[0] == '.' then [[]] + rest else [[s[0]] + rest[0]] + rest[1..]
  }

  /** `decodePayload`: the binding and position a payload names. */
  function DecodePayload(p: Primitives, payload: string): Option<(Binding, int)> {
    match p.parse(p.decode(payload))
    case Object(Integer(v), Text(s), Text(t), Text(u), Integer(q)) =>
      if v == CURSOR_VERSION && 0 <= q <= MAX_SAFE_INTEGER then Some((Binding(s, t, u), q)) else None
    case _ => None
  }

  function Verify(p: Primitives, cursor: string, b: Binding): Result<int, Rejection> {
    if |cursor| == 0 || |cursor| > MAX_CURSOR_LENGTH then Failure(Malformed)
    else
      var parts := Split(cursor);
      if |parts| != 2 then Failure(Malformed)
      else if parts[0] == [] || parts[1] == [] || p.decode(parts[1]) != p.mac(parts[0]) then Failure(Forged)
      else
        match DecodePayload(p, parts[0])
        case None => Failure(Malformed)
        case Some((named, q)) => if named != b then Failure(OtherBinding) else Success(q)
  }

  lemma {:induction false} SplitOne(s: string)
    requires '.' !in s
    ensures Split(s) == [s]
    decreases |s|
  {
    if s != [] {
      SplitOne(s[1..]);
      assert [s[0]] + s[1..] == s;
    }
  }

  lemma {:induction false} SplitTwo(a: string, b: string)
    requires '.' !in a && '.' !in b
    ensures Split(a + "." + b) == [a, b]
    decreases |a|
  {
    var s := a + "." + b;
    if a == [] {
      assert s[1..] == b;
      SplitOne(b);
    } else {
      assert s[1..] == a[1..] + "." + b;
      SplitTwo(a[1..], b);
      assert [s[0]] + a[1..] == a;
    }
  }

  /** And conversely two parts are the text around its one dot. */
  lemma {:induction false} SplitJoins(s: string)
    requires |Split(s)| <= 2
    ensures s == if |Split(s)| == 2 then Split(s)[0] + "." + Split(s)[1] else Split(s)[0]
    decreases |s|
  {
    if s != [] {
      SplitJoins(s[1..]);
      assert s == [s[0]] + s[1..];
    }
  }

  /** A minted cursor has exactly two parts, the payload and 43 letters of signature. */
  lemma MintedHasTwoParts(p: Primitives, b: Binding, seqNo: Number)
    requires Faithful(p) && IsNumber(p, seqNo)
    ensures var payload := PayloadOf(p, b, seqNo);
            Split(Sign(p, b, seqNo)) == [payload, Encode(p.mac(payload))]
    ensures |Sign(p, b, seqNo)| == (4 * |p.stringify(b, seqNo)| + 2) / 3 + 44
  {
    var payload := PayloadOf(p, b, seqNo);
    EncodeLength(p.stringify(b, seqNo));
    EncodeLength(p.mac(payload));
    assert '.' !in payload && '.' !in Encode(p.mac(payload));
    SplitTwo(payload, Encode(p.mac(payload)));
  }

  /** A cursor minted for a position verifies to it for its own binding, is refused for any
      other, and is too long to verify at all exactly when its JSON exceeds 351 bytes. */
  lemma MintedVerifies(p: Primitives, b: Binding, seqNo: Number, asked: Binding)
    requires Faithful(p) && Safe(seqNo)
    ensures Verify(p, Sign(p, b, seqNo), asked) ==
            if |p.stringify(b, seqNo)| > 351 then Failure(Malformed) else if asked != b then Failure(OtherBinding) else Success(seqNo.i)
  {
    var payload := PayloadOf(p, b, seqNo);
    MintedHasTwoParts(p, b, seqNo);
    EncodeLength(p.stringify(b, seqNo));
    EncodeLength(p.mac(payload));
    assert p.decode(payload) == p.stringify(b, seqNo);
    assert p.decode(Encode(p.mac(payload))) == p.mac(payload);
  }

  /** A position that is not a safe non-negative integer (a fraction and NaN included) is signed but never verified. */
  lemma UnsafePositionIsRefused(p: Primitives, b: Binding, seqNo: Number, asked: Binding)
    requires Faithful(p) && IsNumber(p, seqNo) && !Safe(seqNo)
    ensures Verify(p, Sign(p, b, seqNo), asked).Failure?
  {
    MintedHasTwoParts(p, b, seqNo);
    assert p.decode(PayloadOf(p, b, seqNo)) == p.stringify(b, seqNo);
  }

  /** The HMAC held out: a text whose signature matches is a payload this codec signed. */
  ghost predicate Unforged(p: Primitives, minted: set<(Binding, Number)>, cursor: string) {
    forall payload, signature :: cursor == payload + "." + signature && p.decode(signature) == p.mac(payload) ==>
      exists m :: m in minted && IsNumber(p, m.1) && payload == PayloadOf(p, m.0, m.1)
  }

  /** Every accepted cursor, however it was written, names a position this codec minted for
      exactly the space, thread and user that ask. */
  lemma AcceptedWasMinted(p: Primitives, minted: set<(Binding, Number)>, cursor: string, b: Binding)
    requires Faithful(p) && Unforged(p, minted, cursor) && Verify(p, cursor, b).Success?
    ensures (b, Whole(Verify(p, cursor, b).value)) in minted
  {
    var parts := Split(cursor);
    SplitJoins(cursor);
    assert cursor == parts[0] + "." + parts[1];
    var m :| m in minted && IsNumber(p, m.1) && parts[0] == PayloadOf(p, m.0, m.1);
    assert p.decode(parts[0]) == p.stringify(m.0, m.1);
    assert p.parse(p.stringify(m.0, m.1)) == Printed(m.0, m.1);
  }
}
