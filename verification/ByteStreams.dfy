/** Bytes, chunked byte streams and the big-endian 32-bit counter the backup format uses. */
module ByteStreams {
  type byte = x: int | 0 <= x < 256
  type Bytes = seq<byte>

  datatype Option<+T> = None | Some(value: T)

  datatype Result<+T, +E> = Success(value: T) | Failure(error: E)

  const MAX_UINT32: nat := 0x1_0000_0000

  /** The bytes a chunked stream carries, whatever the chunk boundaries. */
  function Concat(chunks: seq<Bytes>): Bytes {
    if chunks == [] then [] else chunks[0] + Concat(chunks[1..])
  }

  lemma AppendAssociates<T>(a: seq<T>, b: seq<T>, c: seq<T>)
    ensures a + (b + c) == a + b + c
  {
  }

  lemma {:induction false} ConcatAppend(left: seq<Bytes>, right: seq<Bytes>)
    ensures Concat(left + right) == Concat(left) + Concat(right)
  {
    if left == [] {
      assert left + right == right;
    } else {
      ConcatAppend(left[1..], right);
      assert (left + right)[1..] == left[1..] + right;
      AppendAssociates(left[0], Concat(left[1..]), Concat(right));
    }
  }

  lemma ConcatSnoc(chunks: seq<Bytes>, last: Bytes)
    ensures Concat(chunks + [last]) == Concat(chunks) + last
  {
    ConcatAppend(chunks, [last]);
  }

  lemma ConcatSplit(chunks: seq<Bytes>, k: nat)
    requires k <= |chunks|
    ensures Concat(chunks) == Concat(chunks[..k]) + Concat(chunks[k..])
  {
    ConcatAppend(chunks[..k], chunks[k..]);
    assert chunks[..k] + chunks[k..] == chunks;
  }

  /** `writeUInt32BE` of a value in range. */
  function BigEndian(n: nat): (b: Bytes)
    requires n < MAX_UINT32
    ensures |b| == 4
  {
    [n / 0x100_0000, n / 0x1_0000 % 0x100, n / 0x100 % 0x100, n % 0x100]
  }

  /** `readUInt32BE`. */
  function FromBigEndian(b: Bytes): (n: nat)
    requires |b| == 4
    ensures n < MAX_UINT32
  {
    var b0: int, b1: int, b2: int, b3: int := b[0], b[1], b[2], b[3];
    b0 * 0x100_0000 + b1 * 0x1_0000 + b2 * 0x100 + b3
  }

  lemma BigEndianRoundTrip(n: nat)
    requires n < MAX_UINT32
    ensures FromBigEndian(BigEndian(n)) == n
  {
    assert n / 0x100 == n / 0x1_0000 * 0x100 + n / 0x100 % 0x100;
    assert n / 0x1_0000 == n / 0x100_0000 * 0x100 + n / 0x1_0000 % 0x100;
  }

  lemma BigEndianOnto(b: Bytes)
    requires |b| == 4
    ensures BigEndian(FromBigEndian(b)) == b
  {
    var n := FromBigEndian(b);
    var b0: int, b1: int, b2: int := b[0], b[1], b[2];
    assert n / 0x100 == b0 * 0x1_0000 + b1 * 0x100 + b2;
    assert n / 0x1_0000 == b0 * 0x100 + b1;
    assert n / 0x100_0000 == b0;
  }
}
