// Fixed-width integers of the .NET runtime, as subsets of Dafny's unbounded `int`.
module Machine {

  type byte = x: int | 0 <= x < 0x100
  type u16 = x: int | 0 <= x < 0x1_0000
  type u32 = x: int | 0 <= x < 0x1_0000_0000

  const Int32Min: int := -0x8000_0000
  const Int32Max: int := 0x7FFF_FFFF
  const UInt16Max: int := 0xFFFF
  const UInt32Max: int := 0xFFFF_FFFF

  predicate IsInt32(x: int) { Int32Min <= x <= Int32Max }

  /** An `int` reinterpreted as the `uint` with the same 32-bit pattern (C# `(uint)x` unchecked). */
  function AsUInt32(x: int): (r: u32)
    ensures 0 <= x <= UInt32Max ==> r == x
    ensures Int32Min <= x < 0 ==> r == x + 0x1_0000_0000
  {
    x % 0x1_0000_0000
  }

  /** A `uint` reinterpreted as the `int` with the same 32-bit pattern (C# `(int)x` unchecked). */
  function AsInt32(x: u32): (r: int)
    ensures IsInt32(r)
    ensures AsUInt32(r) == x
  {
    if x <= Int32Max then x else x - 0x1_0000_0000
  }

  /** C# `(ushort)x`: keeps the low 16 bits. */
  function AsUInt16(x: int): (r: u16)
    ensures 0 <= x <= UInt16Max ==> r == x
    ensures x == 0x1_0000 ==> r == 0
    ensures x >= 0 ==> r <= x
  {
    x % 0x1_0000
  }

  lemma AsInt32RoundTrip(x: int)
    requires IsInt32(x)
    ensures AsInt32(AsUInt32(x)) == x
  {
  }
}
