/**
  Base 128 varints and zigzag integers, as Go's encoding/binary writes and reads them.
  A value is written in groups of seven bits, least significant group first; every byte but the
  last has its top bit set.
 */
module Uvarint {

  type byte = x: int | 0 <= x < 256

  const MAX_UINT64 := 0xFFFF_FFFF_FFFF_FFFF
  const MAX_INT64 := 0x7FFF_FFFF_FFFF_FFFF
  const MAX_VARINT_LEN := 10

  /** What reading one varint can give: a value and the bytes it took, or one of Go's two failures. */
  datatype Read = Value(value: nat, size: nat) | Truncated | Overflow

  function Pow128(n: nat): (p: nat)
    ensures p >= 1
  {
    if n == 0 then 1 else 128 * Pow128(n - 1)
  }

  /** The low seven bits of x, and x shifted right by seven, by repeated subtraction. */
  function Low(x: nat): (r: nat)
    ensures r < 128
  {
    if x < 128 then x else Low(x - 128)
  }

  function High(x: nat): (q: nat)
    ensures x >= 128 ==> q < x
  {
    if x < 128 then 0 else 1 + High(x - 128)
  }

  /** v shifted left by seven. */
  function Shift7(v: nat): nat {
    var v2 := v + v;
    var v4 := v2 + v2;
    var v8 := v4 + v4;
    var v16 := v8 + v8;
    var v32 := v16 + v16;
    var v64 := v32 + v32;
    v64 + v64
  }

  lemma {:induction false} LowHigh(x: nat)
    ensures Low(x) == x % 128 && High(x) == x / 128
    ensures x == Low(x) + Shift7(High(x))
  {
    if x >= 128 { LowHigh(x - 128); }
  }

  /** The bytes of x, one per seven-bit group. */
  function Bytes(x: nat): seq<byte> {
    if x < 128 then [x] else [Low(x) + 128] + Bytes(High(x))
  }

  /** The rest of the varint that began at b[start], from b[at] on. */
  function ReadFrom(b: seq<byte>, start: nat, at: nat): Read
    requires start <= at <= start + MAX_VARINT_LEN
    decreases start + MAX_VARINT_LEN - at
  {
    if at >= |b| then Truncated
    else if at - start == MAX_VARINT_LEN then Overflow
    else if b[at] < 128 then
      if at - start == MAX_VARINT_LEN - 1 && b[at] > 1 then Overflow else Value(b[at], 1)
    else
      match ReadFrom(b, start, at + 1)
      case Value(v, n) => Value(b[at] - 128 + Shift7(v), n + 1)
      case other => other
  }

  /** AppendUvarint's loop: peel seven bits at a time. */
  method AppendUvarint(buf: seq<byte>, value: nat) returns (r: seq<byte>)
    requires value <= MAX_UINT64
    ensures r == buf + Bytes(value)
  {
    r := buf;
    var x := value;
    while x >= 128
      invariant buf + Bytes(value) == r + Bytes(x)
    {
      LowHigh(x);
      r := r + [x % 128 + 128];
      x := x / 128;
    }
    r := r + [x];
  }

  /** The loop of binary.Uvarint over the bytes from `at` on: accumulate with a growing shift. */
  method ReadUvarint(b: seq<byte>, at: nat) returns (r: Read)
    requires at <= |b|
    ensures r == ReadFrom(b, at, at)
  {
    var x: nat, scale: nat, i: nat := 0, 1, 0;
    while at + i < |b|
      invariant i <= MAX_VARINT_LEN && at + i <= |b| && scale >= 1
      invariant ReadFrom(b, at, at) == Shifted(ReadFrom(b, at, at + i), x, scale, i)
    {
      if i == MAX_VARINT_LEN { return Overflow; }
      var c: int := b[at + i];
      if c < 128 {
        if i == MAX_VARINT_LEN - 1 && c > 1 { return Overflow; }
        return Value(x + scale * c, i + 1);
      }
      ShiftStep(ReadFrom(b, at, at + i + 1), x, scale, i, c);
      x, scale, i := x + scale * (c - 128), 128 * scale, i + 1;
    }
    return Truncated;
  }

  /** A reading of the remaining bytes seen from a loop that already holds x, i bytes and a scale. */
  ghost function Shifted(r: Read, x: nat, scale: nat, i: nat): Read {
    if r.Value? then Value(x + scale * r.value, i + r.size) else r
  }

  lemma ShiftStep(rest: Read, x: nat, scale: nat, i: nat, c: byte)
    requires c >= 128
    ensures scale * (c - 128) >= 0
    ensures Shifted(if rest.Value? then Value(c - 128 + Shift7(rest.value), rest.size + 1) else rest, x, scale, i)
         == Shifted(rest, x + scale * (c - 128), 128 * scale, i + 1)
  {
    if rest.Value? {
      assert Shift7(rest.value) == 128 * rest.value;
      calc {
        x + scale * (c - 128 + 128 * rest.value);
        x + scale * (c - 128) + (128 * scale) * rest.value;
      }
    }
  }

  lemma GroupBound(x: nat, left: nat)
    requires x < 2 * Pow128(left)
    ensures left == 0 ==> x < 2
    ensures left > 0 ==> High(x) < 2 * Pow128(left - 1)
  {
    LowHigh(x);
  }

  /** One continued byte in front of a varint that reads back. */
  lemma ReadCons(b: seq<byte>, start: nat, at: nat, c: byte, v: nat, n: nat)
    requires start <= at < start + MAX_VARINT_LEN && at < |b| && b[at] == c >= 128
    requires ReadFrom(b, start, at + 1) == Value(v, n)
    ensures ReadFrom(b, start, at) == Value(c - 128 + Shift7(v), n + 1)
  {
  }

  /** Reading back what was written gives the value and its size, whatever surrounds it. */
  lemma {:induction false} RoundTripFrom(pre: seq<byte>, x: nat, rest: seq<byte>, start: nat)
    requires start <= |pre| < start + MAX_VARINT_LEN
    requires x < 2 * Pow128(start + MAX_VARINT_LEN - 1 - |pre|)
    ensures 1 <= |Bytes(x)| <= start + MAX_VARINT_LEN - |pre|
    ensures ReadFrom(pre + Bytes(x) + rest, start, |pre|) == Value(x, |Bytes(x)|)
    decreases x
  {
    GroupBound(x, start + MAX_VARINT_LEN - 1 - |pre|);
    if x < 128 {
      assert (pre + [x] + rest)[|pre|] == x;
    } else {
      LowHigh(x);
      var c: byte, tail := Low(x) + 128, Bytes(High(x));
      var b := (pre + [c]) + tail + rest;
      RoundTripFrom(pre + [c], High(x), rest, start);
      ReadCons(b, start, |pre|, c, High(x), |tail|);
      assert b == pre + ([c] + tail) + rest;
    }
  }

  /** decode(encode(x)) == x for every uint64, at any offset and before any bytes. */
  lemma RoundTrip(pre: seq<byte>, x: nat, rest: seq<byte>)
    requires x <= MAX_UINT64
    ensures 1 <= |Bytes(x)| <= MAX_VARINT_LEN
    ensures ReadFrom(pre + Bytes(x) + rest, |pre|, |pre|) == Value(x, |Bytes(x)|)
  {
    TopBound();
    RoundTripFrom(pre, x, rest, |pre|);
  }

  lemma TopBound()
    ensures 2 * Pow128(9) == MAX_UINT64 + 1
  {
    assert Pow128(3) == 128 * 128 * 128;
    assert Pow128(6) == 128 * 128 * 128 * Pow128(3);
    assert Pow128(9) == 128 * 128 * 128 * Pow128(6);
  }

  /** An accepted varint is a uint64 of one to ten bytes, all inside the buffer. */
  lemma {:induction false} ReadBounds(b: seq<byte>, start: nat, at: nat)
    requires start <= at < start + MAX_VARINT_LEN
    ensures var r := ReadFrom(b, start, at);
            r.Value? ==>
              && 1 <= r.size <= start + MAX_VARINT_LEN - at && at + r.size <= |b|
              && r.value < 2 * Pow128(start + MAX_VARINT_LEN - 1 - at)
    decreases start + MAX_VARINT_LEN - at
  {
    var left := start + MAX_VARINT_LEN - 1 - at;
    if at < |b| && b[at] >= 128 && left > 0 {
      ReadBounds(b, start, at + 1);
    }
    assert Pow128(left) == if left == 0 then 1 else 128 * Pow128(left - 1);
  }

  /** zigzagEncode: the sign bit moves to the bottom, so small magnitudes stay small. */
  function ZigzagEncode(v: int): (u: int) {
    if v >= 0 then v + v else -v - v - 1
  }

  /** u shifted right by one, and the bit shifted out. */
  function Half(u: nat): nat { if u < 2 then 0 else 1 + Half(u - 2) }

  function Odd(u: nat): bool { if u < 2 then u == 1 else Odd(u - 2) }

  function ZigzagDecode(u: nat): (v: int) {
    if Odd(u) then 0 - Half(u) - 1 else Half(u)
  }

  lemma {:induction false} HalfOdd(u: nat)
    ensures u == Half(u) + Half(u) + (if Odd(u) then 1 else 0)
  {
    if u >= 2 { HalfOdd(u - 2); }
  }

  predicate IsInt64(v: int) { -MAX_INT64 - 1 <= v <= MAX_INT64 }
  predicate IsUint64(v: int) { 0 <= v <= MAX_UINT64 }

  /** The two are inverse bijections between int64 and uint64. */
  lemma ZigzagBijection(v: int, u: int)
    requires IsInt64(v) && IsUint64(u)
    ensures IsUint64(ZigzagEncode(v)) && ZigzagDecode(ZigzagEncode(v)) == v
    ensures IsInt64(ZigzagDecode(u)) && ZigzagEncode(ZigzagDecode(u)) == u
  {
    HalfOdd(ZigzagEncode(v));
    HalfOdd(u);
  }

  /** A varint spelled out: seven bits a byte, the lowest first, every byte but the last marked. */
  lemma BytesGroups(x: nat)
    ensures Bytes(x) == if x < 128 then [x] else [x % 128 + 128] + Bytes(x / 128)
    ensures Bytes(300) == [172, 2]
  {
    LowHigh(x);
    LowHigh(300);
  }

  /** What a reading takes from the bytes: an unmarked byte ends it, and a marked one adds its seven bits. */
  lemma ReadGroups(b: seq<byte>, start: nat, at: nat)
    requires start <= at < start + 10
    ensures var r := ReadFrom(b, start, at);
            && (at >= |b| ==> r == Truncated)
            && (at < |b| && b[at] < 128 ==> r == if at == start + 9 && b[at] > 1 then Overflow else Value(b[at], 1))
            && (at < |b| && b[at] >= 128 && at < start + 9 ==>
                 match ReadFrom(b, start, at + 1)
                 case Value(v, n) => r == Value(b[at] - 128 + 128 * v, n + 1)
                 case other => r == other)
            && (at < |b| && b[at] >= 128 && at == start + 9 ==> r == if at + 1 < |b| then Overflow else Truncated)
  {
    if at < |b| && b[at] >= 128 && at < start + 9 {
      var r := ReadFrom(b, start, at + 1);
      if r.Value? { assert Shift7(r.value) == 128 * r.value; }
    }
  }

  /** Zigzag in plain numbers: the even codes count up from zero, the odd ones down from minus one. */
  lemma ZigzagValues(n: nat)
    ensures ZigzagEncode(n) == 2 * n && ZigzagDecode(2 * n) == n
    ensures var m: int := -1 - n; ZigzagEncode(m) == 2 * n + 1 && ZigzagDecode(2 * n + 1) == m
  {
    HalfOdd(2 * n);
    HalfOdd(2 * n + 1);
  }
}
