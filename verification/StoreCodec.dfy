/** The fixed-width little-endian numbers kept in the metadata bucket (utils/utils.go). */
module StoreCodec {
  import opened Text

  const TWO_TO_63: int := 0x8000_0000_0000_0000
  const TWO_TO_64: int := 0x1_0000_0000_0000_0000

  predicate IsInt64(x: int) {
    -TWO_TO_63 <= x < TWO_TO_63
  }

  /** `width` bytes, least significant first. */
  function LittleEndian(n: nat, width: nat): (b: bytes)
    ensures |b| == width
  {
    if width == 0 then [] else [n % 0x100] + LittleEndian(n / 0x100, width - 1)
  }

  function FromLittleEndian(b: bytes): (n: nat)
    ensures n < Span(|b|)
  {
    if b == [] then 0 else b[0] + 0x100 * FromLittleEndian(b[1..])
  }

  /** 256 to the power `width`. */
  function Span(width: nat): (s: nat)
    ensures s > 0
  {
    if width == 0 then 1 else 0x100 * Span(width - 1)
  }

  function Int64ToBytes(x: int): (b: bytes)
    ensures |b| == 8
  {
    LittleEndian(x % TWO_TO_64, 8)
  }

  function BytesToInt64(b: bytes): int
    requires |b| == 8
  {
    var n := FromLittleEndian(b);
    if n < TWO_TO_63 then n else n - TWO_TO_64
  }

  function Uint32ToBytes(x: uint32): (b: bytes)
    ensures |b| == 4
  {
    LittleEndian(x, 4)
  }

  function BytesToUint32(b: bytes): (x: uint32)
    requires |b| == 4
  {
    SpanOf(4);
    FromLittleEndian(b)
  }

  lemma {:induction false} LittleEndianDenotes(n: nat, width: nat)
    requires n < Span(width)
    ensures FromLittleEndian(LittleEndian(n, width)) == n
  {
    if width > 0 {
      LittleEndianDenotes(n / 0x100, width - 1);
      assert LittleEndian(n, width)[1..] == LittleEndian(n / 0x100, width - 1);
    }
  }

  lemma {:induction false} LittleEndianIsOnto(b: bytes)
    ensures LittleEndian(FromLittleEndian(b), |b|) == b
  {
    if b != [] {
      LittleEndianIsOnto(b[1..]);
      var rest := FromLittleEndian(b[1..]);
      assert FromLittleEndian(b) % 0x100 == b[0] && FromLittleEndian(b) / 0x100 == rest;
    }
  }

  lemma SpanOf(width: nat)
    requires width == 4 || width == 8
    ensures Span(width) == if width == 4 then 0x1_0000_0000 else TWO_TO_64
  {
    assert Span(4) == 0x1_0000_0000 by {
      assert Span(2) == 0x1_0000;
    }
    if width == 8 {
      assert Span(6) == 0x1_0000_0000_0000;
    }
  }

  lemma {:induction false} Int64Survives(x: int)
    requires IsInt64(x)
    ensures BytesToInt64(Int64ToBytes(x)) == x
  {
    SpanOf(8);
    LittleEndianDenotes(x % TWO_TO_64, 8);
    assert x % TWO_TO_64 == if x < 0 then x + TWO_TO_64 else x;
  }

  lemma BytesSurvive(b: bytes)
    requires |b| == 8
    ensures IsInt64(BytesToInt64(b)) && Int64ToBytes(BytesToInt64(b)) == b
  {
    SpanOf(8);
    LittleEndianIsOnto(b);
    assert BytesToInt64(b) % TWO_TO_64 == FromLittleEndian(b);
  }

  /** Every int64 survives the store, and so does every eight-byte value. */
  lemma Int64RoundTrip(x: int, b: bytes)
    requires IsInt64(x) && |b| == 8
    ensures BytesToInt64(Int64ToBytes(x)) == x
    ensures IsInt64(BytesToInt64(b)) && Int64ToBytes(BytesToInt64(b)) == b
  {
    Int64Survives(x);
    BytesSurvive(b);
  }

  lemma Uint32Survives(x: uint32)
    ensures BytesToUint32(Uint32ToBytes(x)) == x
  {
    SpanOf(4);
    LittleEndianDenotes(x, 4);
  }

  /** Every uint32 survives the store, and so does every four-byte value. */
  lemma Uint32RoundTrip(x: uint32, b: bytes)
    requires |b| == 4
    ensures BytesToUint32(Uint32ToBytes(x)) == x
    ensures Uint32ToBytes(BytesToUint32(b)) == b
  {
    Uint32Survives(x);
    SpanOf(4);
    LittleEndianIsOnto(b);
  }

  /** Two bytes as a number, the least significant first. */
  function Pair(low: byte, high: byte): int { low + high * 0x100 }

  /** The order of the bytes: the least significant comes first, and the last holds the sign. */
  lemma BytesDenote(b: bytes)
    ensures |b| == 4 ==> BytesToUint32(b) == Pair(b[0], b[1]) + Pair(b[2], b[3]) * 0x1_0000
    ensures |b| == 8 ==>
      BytesToInt64(b) == Pair(b[0], b[1]) + Pair(b[2], b[3]) * 0x1_0000 + Pair(b[4], b[5]) * 0x1_0000_0000
        + Pair(b[6], b[7]) * 0x1_0000_0000_0000 - if b[7] >= 0x80 then 0x1_0000_0000_0000_0000 else 0
  {
    if |b| == 4 {
      PairFirst(b);
      PairFirst(b[2..]);
    } else if |b| == 8 {
      PairFirst(b);
      PairFirst(b[2..]);
      PairFirst(b[4..]);
      PairFirst(b[6..]);
    }
  }

  lemma PairFirst(b: bytes)
    requires |b| >= 2
    ensures FromLittleEndian(b) == Pair(b[0], b[1]) + FromLittleEndian(b[2..]) * 0x1_0000
  {
    assert b[1..][1..] == b[2..];
  }
}
