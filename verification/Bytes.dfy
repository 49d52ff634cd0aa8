/** Machine integers and the big-endian length prefixes of the wire format. */
module Bytes {

  type u8 = x: int | 0 <= x < 0x100
  type u16 = x: int | 0 <= x < 0x1_0000
  type u64 = x: int | 0 <= x < 0x1_0000_0000_0000_0000

  const U32_RANGE := 0x1_0000_0000

  /** The narrowing cast `n as u8`. */
  function AsU8(n: nat): (b: u8)
    ensures n < 0x100 ==> b == n
  {
    n % 0x100
  }

  /** The narrowing cast `n as u16`. */
  function AsU16(n: nat): (w: u16)
    ensures n < 0x1_0000 ==> w == n
  {
    n % 0x1_0000
  }

  /** `(n as u32).to_be_bytes()`: the cast keeps the low 32 bits. */
  function Be32(n: nat): (bs: seq<u8>)
    ensures |bs| == 4
  {
    [n / 0x100_0000 % 0x100, n / 0x1_0000 % 0x100, n / 0x100 % 0x100, n % 0x100]
  }

  /** `u32::from_be_bytes` of the first four bytes of `bs`. */
  function FromBe32(bs: seq<u8>): (n: nat)
    requires |bs| >= 4
    ensures n < U32_RANGE
  {
    (bs[0] as int) * 0x100_0000 + (bs[1] as int) * 0x1_0000 + (bs[2] as int) * 0x100 + bs[3]
  }

  /** A written length reads back as its low 32 bits. */
  lemma Be32RoundTrip(n: nat, rest: seq<u8>)
    ensures FromBe32(Be32(n) + rest) == n % U32_RANGE
    ensures n < U32_RANGE ==> FromBe32(Be32(n) + rest) == n
  {
    var q0, q1, q2 := n / 0x100, n / 0x1_0000, n / 0x100_0000;
    assert q1 == q0 / 0x100;
    assert q2 == q1 / 0x100;
    assert n == 0x100 * q0 + n % 0x100;
    assert q0 == 0x100 * q1 + q0 % 0x100;
    assert q1 == 0x100 * q2 + q1 % 0x100;
    assert q2 == 0x100 * (q2 / 0x100) + q2 % 0x100;
    assert n == U32_RANGE * (q2 / 0x100) + FromBe32(Be32(n) + rest);
  }
}
