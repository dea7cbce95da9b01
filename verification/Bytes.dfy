/** Fixed-width unsigned integers, fixed-size byte arrays, and the two encodings of
    `encoding/binary` that the repository uses. */
module Bytes {
  type byte = x: int | 0 <= x < 0x100
  type uint16 = x: int | 0 <= x < 0x1_0000
  type uint32 = x: int | 0 <= x < 0x1_0000_0000

  type Bytes8 = s: seq<byte> | |s| == 8 witness [0, 0, 0, 0, 0, 0, 0, 0]
  type Bytes16 = s: seq<byte> | |s| == 16
    witness [0, 0, 0, 0, 0, 0, 0, 0, 0, 0, 0, 0, 0, 0, 0, 0]

  const UINT32_MODULUS: int := 0x1_0000_0000

  function Add32(x: uint32, y: uint32): uint32 {
    (x + y) % UINT32_MODULUS
  }

  // ---- Little endian -------------------------------------------------------

  function LE16(x: uint16): (b: seq<byte>)
    ensures |b| == 2
  {
    [x % 0x100, x / 0x100]
  }

  function FromLE16(b: seq<byte>): uint16
    requires |b| == 2
  {
    var lo: int, hi: int := b[0], b[1];
    lo + 0x100 * hi
  }

  function LE32(x: uint32): (b: seq<byte>)
    ensures |b| == 4
  {
    LE16(x % 0x1_0000) + LE16(x / 0x1_0000)
  }

  function FromLE32(b: seq<byte>): uint32
    requires |b| == 4
  {
    var lo: int, hi: int := FromLE16(b[..2]), FromLE16(b[2..]);
    lo + 0x1_0000 * hi
  }

  // ---- Big endian ----------------------------------------------------------

  function BE16(x: uint16): (b: seq<byte>)
    ensures |b| == 2
  {
    [x / 0x100, x % 0x100]
  }

  function FromBE16(b: seq<byte>): uint16
    requires |b| == 2
  {
    var hi: int, lo: int := b[0], b[1];
    0x100 * hi + lo
  }

  function BE32(x: uint32): (b: seq<byte>)
    ensures |b| == 4
  {
    BE16(x / 0x1_0000) + BE16(x % 0x1_0000)
  }

  function FromBE32(b: seq<byte>): uint32
    requires |b| == 4
  {
    var hi: int, lo: int := FromBE16(b[..2]), FromBE16(b[2..]);
    0x1_0000 * hi + lo
  }

  // ---- Which byte counts how much ------------------------------------------

  /** The four bytes of a number, the one that counts most first. */
  lemma Digits(x: uint32)
    ensures x / 0x1_0000 / 0x100 == x / 0x100_0000
    ensures x % 0x1_0000 / 0x100 == x / 0x100 % 0x100
    ensures x % 0x1_0000 % 0x100 == x % 0x100
  {
    var hi, lo := x / 0x1_0000, x % 0x1_0000;
    assert x == 0x1_0000 * hi + lo;
    assert lo == 0x100 * (lo / 0x100) + lo % 0x100;
    assert x == 0x100 * (0x100 * hi + lo / 0x100) + lo % 0x100;
    assert x / 0x100 == 0x100 * hi + lo / 0x100;
  }

  lemma LittleEndian(x: uint32, y: uint16)
    ensures LE32(x) == [x % 0x100, x / 0x100 % 0x100, x / 0x1_0000 % 0x100, x / 0x100_0000]
    ensures LE16(y) == [y % 0x100, y / 0x100]
  {
    Digits(x);
  }

  lemma BigEndian(x: uint32, y: uint16)
    ensures BE32(x) == [x / 0x100_0000, x / 0x1_0000 % 0x100, x / 0x100 % 0x100, x % 0x100]
    ensures BE16(y) == [y / 0x100, y % 0x100]
  {
    Digits(x);
  }

  // ---- Decoding inverts encoding, both ways --------------------------------

  lemma LE16Inverse(x: uint16)
    ensures FromLE16(LE16(x)) == x
  {
  }

  lemma LE16Onto(b: seq<byte>)
    requires |b| == 2
    ensures LE16(FromLE16(b)) == b
  {
  }

  lemma LE32Inverse(x: uint32)
    ensures FromLE32(LE32(x)) == x
  {
    var b := LE32(x);
    assert b[..2] == LE16(x % 0x1_0000) && b[2..] == LE16(x / 0x1_0000);
  }

  lemma LE32Onto(b: seq<byte>)
    requires |b| == 4
    ensures LE32(FromLE32(b)) == b
  {
    var lo, hi := FromLE16(b[..2]), FromLE16(b[2..]);
    assert FromLE32(b) % 0x1_0000 == lo && FromLE32(b) / 0x1_0000 == hi;
    LE16Onto(b[..2]);
    LE16Onto(b[2..]);
    assert b == b[..2] + b[2..];
  }

  lemma BE32Inverse(x: uint32)
    ensures FromBE32(BE32(x)) == x
  {
    var b := BE32(x);
    assert b[..2] == BE16(x / 0x1_0000) && b[2..] == BE16(x % 0x1_0000);
  }
}
