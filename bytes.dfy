/** Kotlin's signed `Byte` and the conversions the decoder and the scan filter rely on. */
module Bytes {

  /** A Kotlin/JVM `Byte`: an 8-bit two's-complement integer. */
  newtype Int8 = x: int | -128 <= x < 128

  /** The value of a byte read as unsigned, 0..255. */
  type UInt8 = x: int | 0 <= x < 256

  /** One hexadecimal digit's worth of bits, 0..15. */
  type Nibble = x: int | 0 <= x < 16

  /** The unsigned reading of a byte, as Java's `%X` conversion prints a `Byte`
      (a negative value has 2^8 added to it). */
  function Unsigned(b: Int8): (u: UInt8)
    ensures u % 256 == (b as int) % 256
    ensures b >= 0 ==> u == b as int
  {
    if b < 0 then b as int + 256 else b as int
  }

  /** Kotlin's `Int.toByte()`: keeps the low 8 bits and reads them as two's complement. */
  function ToByte(x: int): (b: Int8)
    ensures (b as int) % 256 == x % 256
    ensures -128 <= x < 128 ==> b as int == x
  {
    var low := x % 256;
    if low < 128 then low as Int8 else (low - 256) as Int8
  }

  /** The high and the low four bits of a byte. */
  function HighNibble(b: Int8): (n: Nibble)
    ensures 16 * n <= Unsigned(b) < 16 * n + 16
  {
    Unsigned(b) / 16
  }

  function LowNibble(b: Int8): (n: Nibble)
    ensures Unsigned(b) == 16 * HighNibble(b) + n
  {
    Unsigned(b) % 16
  }
}
