/** Fixed-width C integer types used by the drivers. */
module CTypes {
  type uint8 = x: int | 0 <= x < 0x100
  type uint16 = x: int | 0 <= x < 0x1_0000
  type uint32 = x: int | 0 <= x < 0x1_0000_0000
  type int32 = x: int | -0x8000_0000 <= x < 0x8000_0000

  const USHRT_MAX: uint16 := 0xFFFF
  const UINT32_MOD := 0x1_0000_0000

  /** Unsigned 32-bit multiplication, which wraps modulo 2^32. */
  function MulU32(a: uint32, b: uint32): (r: uint32)
    ensures a * b < UINT32_MOD ==> r == a * b
  {
    var p := a * b;
    assert 0 <= p;
    p % UINT32_MOD
  }

  /** Unsigned 32-bit addition, which wraps modulo 2^32. */
  function AddU32(a: uint32, b: uint32): (r: uint32)
    ensures a + b < UINT32_MOD ==> r == a + b
    ensures a + b >= UINT32_MOD ==> r == a + b - UINT32_MOD
  {
    if a + b < UINT32_MOD then a + b else a + b - UINT32_MOD
  }

  /** Unsigned 32-bit subtraction, which wraps modulo 2^32: the difference
      is 1 exactly when the first operand is one more than the second,
      modulo 2^32. */
  function SubU32(a: uint32, b: uint32): (r: uint32)
    ensures a >= b ==> r == a - b
    ensures a < b ==> r == a - b + UINT32_MOD
    ensures r == 1 <==> (a == b + 1 || (a == 0 && b == UINT32_MOD - 1))
  {
    if a >= b then a - b else a - b + UINT32_MOD
  }

  /** Conversion of an unsigned 32-bit value to int on a two's-complement
      target: values from 2^31 up come out negative. */
  function ToI32(x: uint32): (r: int32)
    ensures x < 0x8000_0000 ==> r == x
    ensures x >= 0x8000_0000 ==> r == x - UINT32_MOD
  {
    if x < 0x8000_0000 then x else x - UINT32_MOD
  }

  /** Conversion of an integer to uint32_t: the value modulo 2^32. */
  function ToU32(x: int): (r: uint32)
    ensures 0 <= x < UINT32_MOD ==> r == x
    ensures -UINT32_MOD <= x < 0 ==> r == x + UINT32_MOD
  {
    x % UINT32_MOD
  }

  /** Conversion of an integer to uint16_t: the value modulo 2^16. */
  function ToU16(x: int): (r: uint16)
    ensures 0 <= x < 0x1_0000 ==> r == x
  {
    x % 0x1_0000
  }

  /** C's `%` on `int` (ISO/IEC 9899:2011 section 6.5.5): the quotient is
      truncated toward zero, so a negative dividend leaves a remainder that
      is negative or zero, minus the remainder of its magnitude. */
  function CRem(a: int, b: int): (r: int)
    requires b > 0
    ensures a >= 0 ==> r == a % b
    ensures a < 0 ==> -b < r <= 0 && r == -((-a) % b)
  {
    if a >= 0 then a % b else -((-a) % b)
  }
}
