/** The IEEE 754 binary32 values that the firmware stores as `float`, read
    from their four little-endian bytes. Finite values are exact reals: the
    model does not round. Only the operations the load-cell code applies to
    a calibration scale are defined: decoding, `fabsf`, division of a finite
    value by a scale, and comparison with a constant. */
module Float32 {
  import opened Common

  /** Four bytes of a `float`, least significant first. */
  type Bits4 = s: seq<u8> | |s| == 4 witness [0, 0, 0, 0]

  datatype Float = Finite(r: real) | Inf(negative: bool) | NaN

  function Pow2Nat(k: nat): (p: nat)
    ensures p >= 1
  {
    if k == 0 then 1 else 2 * Pow2Nat(k - 1)
  }

  function Pow2(e: int): (p: real)
    ensures p > 0.0
  {
    if e >= 0 then Pow2Nat(e) as real else 1.0 / Pow2Nat(-e) as real
  }

  predicate SignBit(b: Bits4) { b[3] >= 128 }

  function Exponent(b: Bits4): (e: int)
    ensures 0 <= e < 256
  {
    (b[3] as int % 128) * 2 + b[2] as int / 128
  }

  function Mantissa(b: Bits4): (m: int)
    ensures 0 <= m < 0x80_0000
  {
    (b[2] as int % 128) * 0x1_0000 + b[1] as int * 0x100 + b[0] as int
  }

  const TWO_149: nat := 0x20_0000_0000_0000_0000_0000_0000_0000_0000_0000

  /** The magnitude of a finite encoding with biased exponent `e` and
      mantissa `m`: m * 2^-149 when subnormal, (2^23 + m) * 2^(e - 150)
      when normal. */
  function MagnitudeOf(e: int, m: nat): (mag: real)
    ensures mag >= 0.0
    ensures mag == 0.0 <==> e == 0 && m == 0
  {
    if e == 0 then
      m as real / TWO_149 as real
    else
      var p := Pow2(e - 150);
      ScaledSign((0x80_0000 + m) as real, p);
      (0x80_0000 + m) as real * p
  }

  function Magnitude(b: Bits4): (mag: real)
    ensures mag >= 0.0
    ensures mag == 0.0 <==> Exponent(b) == 0 && Mantissa(b) == 0
  {
    MagnitudeOf(Exponent(b), Mantissa(b))
  }

  lemma {:induction false} ScaledSign(a: real, p: real)
    requires a >= 0.0 && p > 0.0
    ensures a * p >= 0.0 && (a * p == 0.0 <==> a == 0.0)
  {
  }

  function Decode(b: Bits4): (f: Float)
    ensures f.Finite? <==> Exponent(b) != 255
    ensures f.Finite? ==> AbsR(f.r) == Magnitude(b)
    ensures f.Finite? && f.r < 0.0 ==> SignBit(b)
    ensures f.Finite? && f.r > 0.0 ==> !SignBit(b)
  {
    if Exponent(b) == 255 then (if Mantissa(b) == 0 then Inf(SignBit(b)) else NaN)
    else Finite(if SignBit(b) then -Magnitude(b) else Magnitude(b))
  }

  predicate IsFinite(f: Float) { f.Finite? }

  /** `fabsf`: the same encoding with the sign bit cleared. */
  function ClearSign(b: Bits4): (c: Bits4)
    ensures !SignBit(c) && Exponent(c) == Exponent(b) && Mantissa(c) == Mantissa(b)
  {
    [b[0], b[1], b[2], b[3] % 128]
  }

  /** `fabsf` of a finite value is its absolute value, as an encoding. */
  lemma {:induction false} ClearSignIsAbs(b: Bits4)
    requires Decode(b).Finite?
    ensures Decode(ClearSign(b)) == Finite(AbsR(Decode(b).r))
  {
    var c := ClearSign(b);
    assert Magnitude(c) == Magnitude(b);
  }

  /** For a finite non-zero value, `x < 0.0f` is exactly the sign bit. */
  lemma {:induction false} NegativeIsSignBit(b: Bits4)
    requires Decode(b).Finite? && Decode(b).r != 0.0
    ensures Decode(b).r < 0.0 <==> SignBit(b)
  {
  }

  /** `1.0f`, the default calibration scale, is the pattern 0x3F800000. */
  const ONE: Bits4 := [0x00, 0x00, 0x80, 0x3F]

  lemma OneIsOne()
    ensures Decode(ONE) == Finite(1.0)
  {
    assert Exponent(ONE) == 127 && Mantissa(ONE) == 0;
    assert Pow2Nat(10) == 1024 && Pow2Nat(20) == 1048576;
    assert Pow2Nat(23) == 8388608;
    assert Pow2(-23) == 1.0 / 8388608.0;
  }

  /** `x / d` for a finite `x` and the float encoded by `d` (the sign of a
      zero `x` is irrelevant: every result it affects is a finite zero). */
  function DivBy(x: real, d: Bits4): (q: Float)
    ensures Decode(d).Finite? && Decode(d).r != 0.0 ==> q == Finite(x / Decode(d).r)
    ensures Decode(d).NaN? ==> q.NaN?
    ensures Decode(d) == Finite(0.0) ==> (q.NaN? <==> x == 0.0)
  {
    match Decode(d)
    case Finite(v) =>
      if v != 0.0 then Finite(x / v)
      else if x == 0.0 then NaN
      else Inf((x < 0.0) != SignBit(d))
    case Inf(_) => Finite(0.0)
    case NaN => NaN
  }

  /** `f <= c` in IEEE comparison: false for NaN, true for -inf. */
  predicate LessEq(f: Float, c: real)
  {
    match f
    case Finite(v) => v <= c
    case Inf(neg) => neg
    case NaN => false
  }
}
