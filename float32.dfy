// IEEE 754 binary32 values, kept as their bit patterns. The toolkit only
// copies, negates and compares floats, and all three are exact on bits.
module Float32 {
  import opened Machine

  datatype F32 = F32(bits: u32)

  const SignBit: int := 0x8000_0000
  const MantissaSpan: int := 0x80_0000

  const Zero: F32 := F32(0)
  const One: F32 := F32(0x3F80_0000)
  /** `float.MaxValue` and `float.MinValue`. */
  const MaxValue: F32 := F32(0x7F7F_FFFF)
  const MinValue: F32 := F32(0xFF7F_FFFF)

  predicate IsNegative(f: F32) { f.bits >= SignBit }

  function Magnitude(f: F32): (m: nat)
    ensures m < SignBit
  {
    f.bits % SignBit
  }

  /** Unary minus: flips the sign bit and keeps every other bit (NaNs included). */
  function Neg(f: F32): (r: F32)
    ensures Magnitude(r) == Magnitude(f)
    ensures IsNegative(r) != IsNegative(f)
  {
    if f.bits < SignBit then F32(f.bits + SignBit) else F32(f.bits - SignBit)
  }

  predicate IsNaN(f: F32)
  {
    Magnitude(f) / MantissaSpan == 255 && Magnitude(f) % MantissaSpan != 0
  }

  /** The position of a non-NaN float on the number line, as an integer: sign-magnitude order. */
  function Key(f: F32): int
  {
    var m: int := Magnitude(f);
    if IsNegative(f) then -m else m
  }

  /** The C# `<` operator on floats: false whenever either side is NaN; +0 and -0 are equal. */
  predicate Less(a: F32, b: F32)
  {
    !IsNaN(a) && !IsNaN(b) && Key(a) < Key(b)
  }

  lemma NegInvolution(f: F32)
    ensures Neg(Neg(f)) == f
  {
  }

  lemma NegOfMaxValue()
    ensures Neg(MaxValue) == MinValue && Neg(MinValue) == MaxValue
  {
  }

  /** Negation reverses the order of any two floats and keeps NaNs unordered. */
  lemma NegReversesLess(a: F32, b: F32)
    ensures Less(a, b) <==> Less(Neg(b), Neg(a))
  {
  }

  /** The C# `==` operator on floats. */
  predicate Equal(a: F32, b: F32)
  {
    !IsNaN(a) && !IsNaN(b) && Key(a) == Key(b)
  }

  /**
   * Math.Max(float, float): a NaN argument on the left wins, a NaN on the
   * right is returned when the left is not larger; of two equal values the
   * one that is not negative zero.
   */
  function Max(x: F32, y: F32): (r: F32)
    ensures r == x || r == y
    ensures !IsNaN(x) && !IsNaN(y) ==> !Less(r, x) && !Less(r, y)
  {
    if !Equal(x, y) then
      if !IsNaN(x) then (if Less(y, x) then x else y) else x
    else if IsNegative(y) then x else y
  }
}
