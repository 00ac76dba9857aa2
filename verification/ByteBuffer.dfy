/**
 Bytes in a buffer: in-place copies and fixed-width integer fields.
 */
module ByteBuffer {

  type Byte = x: int | 0 <= x < 256

  /** The buffer after a write. */
  function Put(m: seq<Byte>, at: nat, data: seq<Byte>): (m': seq<Byte>)
    requires at + |data| <= |m|
    ensures |m'| == |m| && m'[at..at + |data|] == data
    ensures forall x | 0 <= x < |m| && !(at <= x < at + |data|) :: m'[x] == m[x]
  {
    m[..at] + data + m[at + |data|..]
  }

  method CopyInto(mem: array<Byte>, at: nat, data: seq<Byte>)
    requires at + |data| <= mem.Length
    modifies mem
    ensures mem[..] == Put(old(mem[..]), at, data)
  {
    var i := 0;
    while i < |data|
      invariant 0 <= i <= |data|
      invariant forall x | 0 <= x < i :: mem[at + x] == data[x]
      invariant forall x | 0 <= x < mem.Length && !(at <= x < at + i) :: mem[x] == old(mem[x])
    {
      mem[at + i] := data[i];
      i := i + 1;
    }
  }

  /** Big-endian and little-endian fields of fixed width. */
  function BigEndian(v: nat, width: nat): (b: seq<Byte>)
    ensures |b| == width
  {
    if width == 0 then [] else BigEndian(v / 256, width - 1) + [v % 256]
  }

  function FromBig(b: seq<Byte>): nat { if b == [] then 0 else FromBig(b[..|b| - 1]) * 256 + b[|b| - 1] }

  function LittleEndian(v: nat, width: nat): (b: seq<Byte>)
    ensures |b| == width
  {
    if width == 0 then [] else [v % 256] + LittleEndian(v / 256, width - 1)
  }

  function FromLittle(b: seq<Byte>): nat { if b == [] then 0 else b[0] + 256 * FromLittle(b[1..]) }

  function Power256(n: nat): nat { if n == 0 then 1 else 256 * Power256(n - 1) }

  lemma WordPower()
    ensures Power256(8) == 0x1_0000_0000_0000_0000 && Power256(2) == 65536
  {
    assert Power256(4) == 256 * (256 * (256 * 256));
  }

  lemma {:induction false} BigRoundTrip(v: nat, width: nat)
    requires v < Power256(width)
    ensures FromBig(BigEndian(v, width)) == v
  {
    if width > 0 {
      BigRoundTrip(v / 256, width - 1);
      var b := BigEndian(v, width);
      assert b[..|b| - 1] == BigEndian(v / 256, width - 1);
    }
  }

  lemma {:induction false} LittleRoundTrip(v: nat, width: nat)
    requires v < Power256(width)
    ensures FromLittle(LittleEndian(v, width)) == v
  {
    if width > 0 {
      LittleRoundTrip(v / 256, width - 1);
      assert LittleEndian(v, width)[1..] == LittleEndian(v / 256, width - 1);
    }
  }
}
