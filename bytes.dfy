/** Bytes and the 4-byte big-endian integers that prefix every frame on the wire. */
module Bytes {

  type Byte = b: int | 0 <= b < 256

  const UINT32_LIMIT: int := 0x1_0000_0000
  const INT32_MAX: int := 0x7FFF_FFFF
  const INT32_MIN: int := -0x8000_0000

  /** The unsigned value of four bytes read most significant first. */
  function BigEndianValue(b: seq<Byte>): (n: nat)
    requires |b| == 4
    ensures n < UINT32_LIMIT
  {
    var b0: int, b1: int, b2: int, b3: int := b[0], b[1], b[2], b[3];
    ((b0 * 256 + b1) * 256 + b2) * 256 + b3
  }

  /** The four bytes of `n`, most significant first (`UInt32(n).bigEndian`,
      or `Int32(n)` written with `.big` endianness when `n` is not negative). */
  function BigEndian32(n: nat): (b: seq<Byte>)
    requires n < UINT32_LIMIT
    ensures |b| == 4
    ensures BigEndianValue(b) == n
  {
    var q1 := n / 256;
    var q2 := q1 / 256;
    var q3 := q2 / 256;
    assert q1 < 0x100_0000 && q2 < 0x1_0000 && q3 < 256;
    [q3, q2 % 256, q1 % 256, n % 256]
  }

  /** Four bytes are determined by their value: the encoding is onto. */
  lemma {:induction false} BigEndianOfValue(b: seq<Byte>)
    requires |b| == 4
    ensures BigEndian32(BigEndianValue(b)) == b
  {
    var n := BigEndianValue(b);
    var b0: int, b1: int, b2: int, b3: int := b[0], b[1], b[2], b[3];
    var q1 := n / 256;
    assert n == q1 * 256 + b3 && q1 == (b0 * 256 + b1) * 256 + b2;
    var q2 := q1 / 256;
    assert q2 == b0 * 256 + b1;
    var q3 := q2 / 256;
    assert q3 == b0;
  }

  /** Reinterprets an unsigned 32-bit pattern as a two's-complement `Int32`. */
  function AsInt32(u: nat): (v: int)
    requires u < UINT32_LIMIT
    ensures INT32_MIN <= v <= INT32_MAX
    ensures v < 0 <==> u > INT32_MAX
    ensures (v + UINT32_LIMIT) % UINT32_LIMIT == u
  {
    if u <= INT32_MAX then u else u - UINT32_LIMIT
  }

  /** The four bytes `writeInteger(Int32(n), endianness: .big)` appends: the
      two's-complement pattern of `n`, most significant byte first. */
  function Int32Bytes(n: int): (b: seq<Byte>)
    requires INT32_MIN <= n <= INT32_MAX
    ensures |b| == 4
    ensures AsInt32(BigEndianValue(b)) == n
  {
    BigEndian32((n + UINT32_LIMIT) % UINT32_LIMIT)
  }
}
