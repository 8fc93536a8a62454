/**
 Fixed-width integer types of the C++ driver, and the one conversion between
 them that the reset routines perform.
 */
module Ints {

  newtype uint8 = x: int | 0 <= x < 0x100
  newtype uint16 = x: int | 0 <= x < 0x1_0000
  newtype uint32 = x: int | 0 <= x < 0x1_0000_0000
  newtype int32 = x: int | -0x8000_0000 <= x < 0x8000_0000

  /** The implicit conversion of a C `int` argument to the `unsigned long`
      parameter of the Arduino `delay` routine (32 bits on the targets of
      this driver): a negative value wraps modulo 2^32. */
  function UnsignedLong(x: int32): (r: uint32)
    ensures (r as int - x as int) % 0x1_0000_0000 == 0
    ensures x >= 0 ==> r as int == x as int
  {
    if x < 0 then (x as int + 0x1_0000_0000) as uint32 else x as int as uint32
  }

  /** The conversion of a 16-bit unsigned value to a C `int` where `int` has
      32 bits: every value fits, so the pulse length that `delay` finally
      receives, after the further conversion to `unsigned long`, is the
      stored one. */
  function WidenToInt(x: uint16): (r: int32)
    ensures r >= 0
    ensures UnsignedLong(r) as int == x as int
  {
    x as int as int32
  }

  /** The same conversion where `int` has 16 bits, as on AVR targets: values
      from 0x8000 up wrap to negative ones. */
  function NarrowToInt16(x: uint16): (r: int)
    ensures -0x8000 <= r < 0x8000
    ensures (r - x as int) % 0x1_0000 == 0
    ensures r == x as int <==> x < 0x8000
  {
    if x < 0x8000 then x as int else x as int - 0x1_0000
  }
}
