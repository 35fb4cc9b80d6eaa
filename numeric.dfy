/** Fixed-width integers and the conversions the terrain code performs on them:
    `cppext::narrow` (a checked conversion that fails when the value does not fit),
    `static_cast<uint32_t>` (two's-complement wrap) and `size_t` arithmetic (wrap modulo 2^64). */
module CppextNumeric {

  datatype Option<T> = None | Some(value: T)

  const Uint16Max: nat := 0xFFFF
  const Uint32Max: nat := 0xFFFF_FFFF
  /** size_t is 64 bits wide on the platforms the renderer targets. */
  const SizeModulus: nat := 0x1_0000_0000_0000_0000

  newtype uint8 = x: int | 0 <= x < 0x100
  newtype uint16 = x: int | 0 <= x < 0x1_0000
  newtype uint32 = x: int | 0 <= x < 0x1_0000_0000

  /** `cppext::narrow<uint16_t>(v)`: succeeds exactly when v is representable, and then keeps its value. */
  function Narrow16(v: int): (r: Option<uint16>)
    ensures r.Some? <==> 0 <= v <= Uint16Max
    ensures r.Some? ==> r.value as int == v
  {
    if 0 <= v <= Uint16Max then Some(v as uint16) else None
  }

  /** `cppext::narrow<uint32_t>(v)`: succeeds exactly when v is representable, and then keeps its value. */
  function Narrow32(v: int): (r: Option<uint32>)
    ensures r.Some? <==> 0 <= v <= Uint32Max
    ensures r.Some? ==> r.value as int == v
  {
    if 0 <= v <= Uint32Max then Some(v as uint32) else None
  }

  /** `static_cast<uint32_t>(v)` of a signed value: reduction modulo 2^32. */
  function CastUint32(v: int): (r: uint32)
    ensures 0 <= v <= Uint32Max ==> r as int == v
    ensures v < 0 && -v <= Uint32Max + 1 ==> r as int == v + Uint32Max + 1
  {
    (v % (Uint32Max + 1)) as uint32
  }

  /** The value an unsigned 64-bit `size_t` computation holds: reduction modulo 2^64. */
  function SizeT(v: int): (r: nat)
    ensures r < SizeModulus
    ensures 0 <= v < SizeModulus ==> r == v
    ensures -(SizeModulus as int) <= v < 0 ==> r == v + SizeModulus
  {
    v % SizeModulus
  }
}
