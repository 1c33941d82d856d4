/**
 * Bytes of a Node.js Buffer and the little-endian integer encodings that
 * `writeUInt16LE`, `writeUInt32LE`, `writeInt16LE` and `readInt16LE` use.
 */
module Bytes {

  newtype byte = x: int | 0 <= x < 256

  /** Unsigned 16-bit little-endian encoding; reading the two bytes back gives `v`. */
  function UInt16LE(v: int): (r: seq<byte>)
    requires 0 <= v < 0x1_0000
    ensures |r| == 2
    ensures r[0] as int + 256 * r[1] as int == v
  {
    [(v % 256) as byte, (v / 256) as byte]
  }

  /** Unsigned 32-bit little-endian encoding; reading the four bytes back gives `v`. */
  function UInt32LE(v: int): (r: seq<byte>)
    requires 0 <= v < 0x1_0000_0000
    ensures |r| == 4
    ensures r[0] as int + 0x100 * r[1] as int + 0x1_0000 * r[2] as int + 0x100_0000 * r[3] as int == v
  {
    var q1 := v / 0x100;
    var q2 := q1 / 0x100;
    assert v == v % 0x100 + 0x100 * q1;
    assert q1 == q1 % 0x100 + 0x100 * q2;
    assert q2 == q2 % 0x100 + 0x100 * (q2 / 0x100) && q2 / 0x100 < 0x100;
    [(v % 0x100) as byte, (q1 % 0x100) as byte, (q2 % 0x100) as byte, (q2 / 0x100) as byte]
  }

  /** Signed 16-bit little-endian encoding (two's complement). */
  function Int16LE(v: int): (r: seq<byte>)
    requires -0x8000 <= v < 0x8000
    ensures |r| == 2
    ensures ReadInt16LE(r, 0) == v
  {
    UInt16LE(if v < 0 then v + 0x1_0000 else v)
  }

  /** The unsigned 16-bit little-endian value stored at `off`. */
  function ReadUInt16LE(b: seq<byte>, off: nat): int
    requires off + 2 <= |b|
  {
    b[off] as int + 256 * b[off + 1] as int
  }

  /** The unsigned 32-bit little-endian value stored at `off`. */
  function ReadUInt32LE(b: seq<byte>, off: nat): int
    requires off + 4 <= |b|
  {
    b[off] as int + 0x100 * b[off + 1] as int + 0x1_0000 * b[off + 2] as int + 0x100_0000 * b[off + 3] as int
  }

  /** The signed 16-bit little-endian value stored at `off`, as `readInt16LE` returns it. */
  function ReadInt16LE(b: seq<byte>, off: nat): (v: int)
    requires off + 2 <= |b|
    ensures -0x8000 <= v < 0x8000
  {
    var u := ReadUInt16LE(b, off);
    if u >= 0x8000 then u - 0x1_0000 else u
  }

  /** True when every character is 7-bit ASCII, which `buf.write(s, off)` stores one byte per character. */
  predicate IsAscii(s: string) {
    forall i :: 0 <= i < |s| ==> s[i] as int < 128
  }

  /** The bytes `buf.write(s, off)` stores for an ASCII string. */
  function Ascii(s: string): (r: seq<byte>)
    requires IsAscii(s)
    ensures |r| == |s|
    ensures forall i :: 0 <= i < |s| ==> r[i] as int == s[i] as int
  {
    seq(|s|, i requires 0 <= i < |s| => s[i] as int as byte)
  }
}
