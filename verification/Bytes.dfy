/** Bytes, 32-bit integers and their little-endian wire form. */
module Bytes {
  type byte = x: int | 0 <= x < 256
  type bytes = seq<byte>

  const TWO_32: int := 0x1_0000_0000
  const MAX_INT32: int := 0x7fff_ffff

  type U32 = x: int | 0 <= x < 0x1_0000_0000
  type I32 = x: int | -0x8000_0000 <= x <= 0x7fff_ffff

  /** The conversions of the same 32 bits between int32 and uint32. */
  function ToU32(i: I32): U32 { if i < 0 then i + TWO_32 else i }
  function ToI32(u: U32): (i: I32)
    ensures ToU32(i) == u
  {
    if u > MAX_INT32 then u - TWO_32 else u
  }

  /** What is left of a length when it is written as a 32-bit integer. */
  function Wrap32(n: int): U32 { n % TWO_32 }

  lemma WrapSmall(n: nat)
    requires n < TWO_32
    ensures Wrap32(n) == n
  {
  }

  lemma WrapSucc(a: U32, n: nat)
    requires a == Wrap32(n)
    ensures Wrap32(a + 1) == Wrap32(n + 1)
  {
  }

  function PutU32(v: U32): (b: bytes)
    ensures |b| == 4
  {
    [v % 256, v / 256 % 256, v / 65536 % 256, v / 16777216]
  }

  function GetU32(b: bytes): U32
    requires |b| >= 4
  {
    var b0: int, b1: int, b2: int, b3: int := b[0], b[1], b[2], b[3];
    b0 + 256 * b1 + 65536 * b2 + 16777216 * b3
  }

  lemma PutGet(v: U32, tail: bytes)
    ensures GetU32(PutU32(v) + tail) == v
    ensures (PutU32(v) + tail)[4..] == tail
  {
    assert v / 256 == 256 * (v / 65536) + v / 256 % 256;
    assert v / 65536 == 256 * (v / 16777216) + v / 65536 % 256;
  }

  lemma GetOfPut(v: U32)
    ensures GetU32(PutU32(v)) == v
  {
    PutGet(v, []);
    assert PutU32(v) + [] == PutU32(v);
  }

  lemma GetPut(b: bytes)
    requires |b| >= 4
    ensures PutU32(GetU32(b)) == b[..4]
  {
    var v: int, b0: int, b1: int, b2: int, b3: int := GetU32(b), b[0], b[1], b[2], b[3];
    assert v / 256 == b1 + 256 * b2 + 65536 * b3;
    assert v / 65536 == b2 + 256 * b3;
    assert v / 16777216 == b3;
  }

  function PutI32(i: I32): (b: bytes)
    ensures |b| == 4
  {
    PutU32(ToU32(i))
  }

  function GetI32(b: bytes): I32
    requires |b| >= 4
  {
    ToI32(GetU32(b))
  }
}
