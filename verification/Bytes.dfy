/** Bytes and little-endian integers. */
module Bytes {

  type byte = b: int | 0 <= b < 256

  const MAX_UINT16 := 0xFFFF
  const MAX_UINT32 := 0xFFFF_FFFF

  function LE16(n: nat): seq<byte>
    requires n <= MAX_UINT16
  {
    [n % 256, n / 256]
  }

  function LE32(n: nat): seq<byte>
    requires n <= MAX_UINT32
  {
    [n % 256, n / 256 % 256, n / 0x1_0000 % 256, n / 0x100_0000]
  }

  function Read16(s: seq<byte>): nat
    requires |s| == 2
  {
    s[0] as int + 256 * s[1] as int
  }

  function Read32(s: seq<byte>): nat
    requires |s| == 4
  {
    s[0] as int + 256 * s[1] as int + 0x1_0000 * s[2] as int + 0x100_0000 * s[3] as int
  }

  lemma ReadBack(n: nat)
    ensures n <= MAX_UINT16 ==> Read16(LE16(n)) == n
    ensures n <= MAX_UINT32 ==> Read32(LE32(n)) == n
  {
    assert n / 0x1_0000 == n / 256 / 256;
    assert n / 0x100_0000 == n / 0x1_0000 / 256;
  }
}
