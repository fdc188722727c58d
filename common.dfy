/** Machine integer ranges, wrap-safe elapsed time, clamping and the C
    integer operations that differ from Dafny's (truncating division,
    float-to-unsigned conversion). Shared by every other module. */
module Common {

  datatype Option<+T> = None | Some(value: T)

  const TWO_32: int := 0x1_0000_0000
  const TWO_64: int := 0x1_0000_0000_0000_0000

  type u8 = x: int | 0 <= x < 0x100
  type u16 = x: int | 0 <= x < 0x1_0000
  type u32 = x: int | 0 <= x < 0x1_0000_0000
  type u64 = x: int | 0 <= x < 0x1_0000_0000_0000_0000
  type i32 = x: int | -0x8000_0000 <= x < 0x8000_0000

  /** The two's-complement 32-bit value of `x`: what an `int32_t`
      subtraction leaves when it overflows (undefined in C; the target wraps). */
  function WrapI32(x: int): (r: i32)
    ensures -0x8000_0000 <= x < 0x8000_0000 ==> r == x
    ensures (r - x) % TWO_32 == 0
  {
    var m := (x + 0x8000_0000) % TWO_32;
    m - 0x8000_0000
  }

  function Abs(x: int): (r: nat)
    ensures r == x || r == -x
  {
    if x < 0 then -x else x
  }

  function AbsR(x: real): (r: real)
    ensures r >= 0.0 && (r == x || r == -x)
  {
    if x < 0.0 then -x else x
  }

  function Min(a: int, b: int): int { if a <= b then a else b }

  /** `clampf` of esc_bdshot.cpp; also the bounds checks of the CLI. */
  function Clamp(x: real, lo: real, hi: real): (r: real)
    requires lo <= hi
    ensures lo <= r <= hi
    ensures lo <= x <= hi ==> r == x
    ensures x < lo ==> r == lo
    ensures x > hi ==> r == hi
  {
    if x < lo then lo else if x > hi then hi else x
  }

  /** `(uint32_t)(now - t0)` on two millisecond stamps. */
  function ElapsedU32(now: u32, t0: u32): (d: u32)
    ensures now >= t0 ==> d == now - t0
    ensures now < t0 ==> d == now - t0 + TWO_32
  {
    (now - t0) % TWO_32
  }

  /** The clock value `d` milliseconds after `t0`, as the wrapping counter shows it. */
  function AddU32(t0: u32, d: nat): u32 { (t0 + d) % TWO_32 }

  /** Wrap-safety: the unsigned difference recovers every elapsed time
      below 2^32 ticks, across a counter wrap or not. */
  lemma {:induction false} ElapsedAfterWrap(t0: u32, d: nat)
    requires d < TWO_32
    ensures ElapsedU32(AddU32(t0, d), t0) == d
  {
    if t0 + d >= TWO_32 {
      assert AddU32(t0, d) == t0 + d - TWO_32;
    }
  }

  /** `(uint32_t)(now_us - last_us)` on two 64-bit microsecond stamps: the
      64-bit wrapped difference, cut to its low 32 bits. */
  function ElapsedUsLow32(now: u64, last: u64): (d: u32)
    ensures now >= last && now - last < TWO_32 ==> d == now - last
  {
    ((now - last) % TWO_64) % TWO_32
  }

  /** C/C++ integer division, which truncates toward zero. */
  function DivTrunc(a: int, b: int): (q: int)
    requires b != 0
  {
    var m := Abs(a) / Abs(b);
    if (a < 0) == (b < 0) then m else -m
  }

  lemma {:induction false} MulMono(a: int, b: int, n: int)
    requires a <= b && n >= 0
    ensures a * n <= b * n
  {
    assert b * n - a * n == (b - a) * n;
  }

  lemma {:induction false} FloorDivLower(x: int, n: int, c: int)
    requires n > 0 && c * n <= x
    ensures c <= x / n
  {
    var q, r := x / n, x % n;
    assert x == q * n + r && 0 <= r < n;
    if c > q {
      MulMono(q + 1, c, n);
      assert false;
    }
  }

  lemma {:induction false} FloorDivUpper(x: int, n: int, c: int)
    requires n > 0 && x <= c * n
    ensures x / n <= c
  {
    var q, r := x / n, x % n;
    assert x == q * n + r && 0 <= r < n;
    if q > c {
      MulMono(c + 1, q, n);
      assert false;
    }
  }

  /** A mean taken with truncating division stays between the bounds of
      the values it averages: lo*n <= sum <= hi*n gives lo <= sum/n <= hi. */
  lemma {:induction false} DivTruncBetween(sum: int, n: int, lo: int, hi: int)
    requires n > 0
    requires lo * n <= sum <= hi * n
    ensures lo <= DivTrunc(sum, n) <= hi
  {
    if sum >= 0 {
      PosDivBetween(sum, n, lo, hi);
      assert DivTrunc(sum, n) == sum / n;
    } else {
      var x, a, b := -sum, -hi, -lo;
      assert -b * n == lo * n && -a * n == hi * n;
      NegDivBetween(x, n, a, b);
      assert DivTrunc(sum, n) == -(x / n);
    }
  }

  lemma {:induction false} PosDivBetween(x: int, n: int, lo: int, hi: int)
    requires n > 0 && x >= 0
    requires lo * n <= x <= hi * n
    ensures lo <= x / n <= hi
  {
    if lo > 0 { FloorDivLower(x, n, lo); }
    FloorDivUpper(x, n, hi);
  }

  lemma {:induction false} NegDivBetween(x: int, n: int, a: int, b: int)
    requires n > 0 && x > 0
    requires -b * n <= -x <= -a * n
    ensures a <= 0 ==> 0 <= x / n
    ensures a > 0 ==> a <= x / n
    ensures x / n <= b
  {
    assert -b * n == -(b * n);
    assert -a * n == -(a * n);
    FloorDivUpper(x, n, b);
    if a > 0 { FloorDivLower(x, n, a); }
  }

  /** `(uint32_t)x` for a float `x`: truncation toward zero. Negative and
      too-large values are undefined in C; the model saturates them, as the
      ARM conversion instruction does. */
  function TruncToU32(x: real): (r: u32)
    ensures 0.0 <= x < TWO_32 as real ==> r == x.Floor
  {
    if x <= 0.0 then 0 else if x >= TWO_32 as real then TWO_32 - 1 else x.Floor
  }
}
