/** Bytes and the little-endian integers of the journal format. */
module Bytes {
  type byte = b: int | 0 <= b < 256

  /** Strings are sequences of bytes. */
  type Text = seq<byte>

  const TWO_32: nat := 0x1_0000_0000

  function PutU32(v: nat): (r: seq<byte>)
    requires v < TWO_32
    ensures |r| == 4
  {
    [v % 256, v / 0x100 % 256, v / 0x1_0000 % 256, v / 0x100_0000 % 256]
  }

  function ReadU32(buffer: seq<byte>, offset: nat): (v: nat)
    requires offset + 4 <= |buffer|
    ensures v < TWO_32
  {
    var b0: int, b1: int, b2: int, b3: int := buffer[offset], buffer[offset + 1], buffer[offset + 2], buffer[offset + 3];
    b0 + b1 * 0x100 + b2 * 0x1_0000 + b3 * 0x100_0000
  }

  /** Reading undoes writing, wherever the four bytes stand. */
  lemma ReadPut(v: nat, buffer: seq<byte>, offset: nat)
    requires v < TWO_32 && offset + 4 <= |buffer| && buffer[offset..offset + 4] == PutU32(v)
    ensures ReadU32(buffer, offset) == v
  {
    var p := buffer[offset..offset + 4];
    assert p[0] == buffer[offset] && p[1] == buffer[offset + 1] && p[2] == buffer[offset + 2] && p[3] == buffer[offset + 3];
    assert v / 0x1_0000 == v / 0x100 / 0x100 && v / 0x100_0000 == v / 0x100 / 0x100 / 0x100;
  }
}
