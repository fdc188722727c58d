/** The load-cell sample window of `SensorsHx711`: a 12-slot ring of raw
    `int32` counts, its oldest-first view, the integer trimmed mean and the
    noise figures computed from it. Everything here is a value; the class
    in module `Hx711` keeps the ring in an array and is proved against
    these functions. */
module HxWindow {
  import opened Common
  import opened Float32
  import Sorting
  import Storage

  const WIN_MAX: nat := 12

  /** `window_`, `window_head_` (the next slot written) and `window_count_`. */
  datatype Ring = Ring(slots: seq<i32>, head: int, count: int)

  predicate RingOk(r: Ring)
  {
    |r.slots| == WIN_MAX && 0 <= r.head < WIN_MAX && 0 <= r.count <= WIN_MAX
  }

  /** `windowReset`: the slots keep their old values, only head and count move. */
  function Reset(r: Ring): (r': Ring)
    ensures r'.slots == r.slots && r'.head == 0 && r'.count == 0
  {
    r.(head := 0, count := 0)
  }

  /** `windowPush`: write slot `head`, advance `head` modulo 12, grow `count` until full. */
  function Push(r: Ring, raw: i32): (r': Ring)
    requires RingOk(r)
    ensures RingOk(r')
    ensures |r'.slots| == WIN_MAX && r'.slots[r.head] == raw
    ensures forall i :: 0 <= i < WIN_MAX && i != r.head ==> r'.slots[i] == r.slots[i]
    ensures r'.count == Min(r.count + 1, WIN_MAX)
  {
    Ring(r.slots[r.head := raw], (r.head + 1) % WIN_MAX,
         if r.count < WIN_MAX then r.count + 1 else r.count)
  }

  function PushAll(r: Ring, xs: seq<i32>): (r': Ring)
    requires RingOk(r)
    ensures RingOk(r')
    decreases |xs|
  {
    if |xs| == 0 then r else Push(PushAll(r, xs[..|xs| - 1]), xs[|xs| - 1])
  }

  /** The slot of the `i`-th oldest sample, found as `copyWindowToLinear_`
      finds it: start at `head - count`, lifted by 12 while negative, and
      step forward with one wrap. */
  function Slot(head: int, count: int, i: int): (idx: int)
    requires 0 <= head < WIN_MAX && 0 <= count <= WIN_MAX && 0 <= i < count
    ensures 0 <= idx < WIN_MAX
  {
    var start := if head - count < 0 then head - count + WIN_MAX else head - count;
    if start + i >= WIN_MAX then start + i - WIN_MAX else start + i
  }

  /** The slot is `head - count + i` modulo 12: the `i`-th sample after the
      oldest. */
  lemma SlotIsModular(head: int, count: int, i: int)
    requires 0 <= head < WIN_MAX && 0 <= count <= WIN_MAX && 0 <= i < count
    ensures Slot(head, count, i) == (head - count + i) % WIN_MAX
  {
  }

  /** The window oldest first, as `copyWindowToLinear_` lays it out. */
  function Linear(r: Ring): (w: seq<i32>)
    requires RingOk(r)
    ensures |w| == r.count
  {
    seq(r.count, i requires 0 <= i < r.count => r.slots[Slot(r.head, r.count, i)])
  }

  /** One push appends the new sample to the oldest-first view and, once
      the ring is full, drops the oldest. */
  lemma PushLinear(r: Ring, x: i32)
    requires RingOk(r)
    ensures Linear(Push(r, x)) == (if r.count < WIN_MAX then Linear(r) else Linear(r)[1..]) + [x]
  {
    var r' := Push(r, x);
    assert r'.head == if r.head + 1 == WIN_MAX then 0 else r.head + 1;
    var want := (if r.count < WIN_MAX then Linear(r) else Linear(r)[1..]) + [x];
    forall i | 0 <= i < r'.count
      ensures Linear(r')[i] == want[i]
    {
      if i == r'.count - 1 {
        assert Slot(r'.head, r'.count, i) == r.head;
      } else {
        var j := if r.count < WIN_MAX then i else i + 1;
        assert Slot(r'.head, r'.count, i) == Slot(r.head, r.count, j);
        assert want[i] == Linear(r)[j];
      }
    }
  }

  /** The last `min(|xs|, 12)` elements of `xs`, oldest first. */
  function Recent(xs: seq<i32>): (w: seq<i32>)
    ensures |w| == Min(|xs|, WIN_MAX)
  {
    xs[|xs| - Min(|xs|, WIN_MAX)..]
  }

  /** After a reset and any pushes, the window is exactly the last
      `min(pushes, 12)` samples pushed, oldest first. */
  lemma {:induction false} LinearIsLastPushed(r: Ring, xs: seq<i32>)
    requires RingOk(r)
    ensures Linear(PushAll(Reset(r), xs)) == Recent(xs)
    decreases |xs|
  {
    if |xs| > 0 {
      var init := xs[..|xs| - 1];
      var x := xs[|xs| - 1];
      LinearIsLastPushed(r, init);
      var p := PushAll(Reset(r), init);
      assert PushAll(Reset(r), xs) == Push(p, x);
      PushLinear(p, x);
      assert p.count == |Recent(init)|;
      if |xs| <= WIN_MAX {
        RecentGrows(xs);
      } else {
        RecentSlides(xs);
      }
    }
  }

  /** Up to 12 samples, one more pushed appends it to the recent ones. */
  lemma RecentGrows(xs: seq<i32>)
    requires 0 < |xs| <= WIN_MAX
    ensures Recent(xs) == Recent(xs[..|xs| - 1]) + [xs[|xs| - 1]]
  {
    assert Recent(xs) == xs;
    assert Recent(xs[..|xs| - 1]) == xs[..|xs| - 1];
  }

  /** Past 12 samples, one more pushed drops the oldest recent one. */
  lemma RecentSlides(xs: seq<i32>)
    requires |xs| > WIN_MAX
    ensures Recent(xs) == Recent(xs[..|xs| - 1])[1..] + [xs[|xs| - 1]]
  {
    var n := |xs|;
    assert Recent(xs[..n - 1])[1..] == xs[n - WIN_MAX..n - 1];
  }

  /** `windowHasEnough(n)` read through the window's contents. */
  lemma {:induction false} HasEnoughMeansSamples(r: Ring, n: u8)
    requires RingOk(r)
    ensures r.count >= n <==> |Linear(r)| >= n
  {
  }

  // ---- trimmed mean --------------------------------------------------

  function Sum(s: seq<int>): int
  {
    if |s| == 0 then 0 else Sum(s[..|s| - 1]) + s[|s| - 1]
  }

  lemma {:induction false} SumBetween(s: seq<int>, lo: int, hi: int)
    requires forall i :: 0 <= i < |s| ==> lo <= s[i] <= hi
    ensures lo * |s| <= Sum(s) <= hi * |s|
  {
    if |s| > 0 {
      var init := s[..|s| - 1];
      assert forall i :: 0 <= i < |init| ==> init[i] == s[i];
      SumBetween(init, lo, hi);
      assert lo * |s| == lo * |init| + lo && hi * |s| == hi * |init| + hi;
    }
  }

  function SeqMin(s: seq<int>): (m: int)
    requires |s| > 0
    ensures forall i :: 0 <= i < |s| ==> m <= s[i]
    ensures exists i :: 0 <= i < |s| && m == s[i]
  {
    if |s| == 1 then s[0]
    else
      var m := SeqMin(s[..|s| - 1]);
      if s[|s| - 1] < m then s[|s| - 1] else m
  }

  function SeqMax(s: seq<int>): (m: int)
    requires |s| > 0
    ensures forall i :: 0 <= i < |s| ==> s[i] <= m
    ensures exists i :: 0 <= i < |s| && m == s[i]
  {
    if |s| == 1 then s[0]
    else
      var m := SeqMax(s[..|s| - 1]);
      if s[|s| - 1] > m then s[|s| - 1] else m
  }

  /** The number of samples trimmed from each end: `n * trim / 100`, put
      back to 0 when it would leave nothing. A `uint8_t` holds it without
      loss because `n <= 12`. */
  function TrimK(n: nat, trimPct: u8): (k: nat)
    requires n <= WIN_MAX
    ensures k == n * trimPct / 100 || k == 0
    ensures n > 0 ==> k < n - k
  {
    var k := n * trimPct / 100;
    if k * 2 >= n then 0 else k
  }

  /** `windowTrimmedMean` on the oldest-first window `w`: the mean, truncated
      toward zero, of the sorted samples with `k` dropped from each end; the
      last raw reading when the window is empty. */
  function TrimmedMean(w: seq<i32>, trimPct: u8, lastRaw: i32): int
    requires |w| <= WIN_MAX
  {
    if |w| == 0 then lastRaw else MeanOfTrimmed(w, trimPct)
  }

  function MeanOfTrimmed(w: seq<i32>, trimPct: u8): int
    requires 0 < |w| <= WIN_MAX
  {
    var sorted := Sorting.SortSeq(w);
    var k := TrimK(|w|, trimPct);
    DivTrunc(Sum(sorted[k..|w| - k]), |w| - 2 * k)
  }

  /** The value of a non-empty trimmed mean from its parts. */
  lemma {:induction false} TrimmedMeanFromParts(w: seq<i32>, trimPct: u8, sorted: seq<i32>, k: nat, sum: int)
    requires 0 < |w| <= WIN_MAX && sorted == Sorting.SortSeq(w) && k == TrimK(|w|, trimPct)
    requires sum == Sum(sorted[k..|w| - k])
    ensures MeanOfTrimmed(w, trimPct) == DivTrunc(sum, |w| - 2 * k)
  {
  }

  /** The trimmed mean lies between the smallest and largest sample, so it
      fits the `int32_t` result; the 64-bit sum cannot overflow. */
  lemma {:induction false} TrimmedMeanBounded(w: seq<i32>, trimPct: u8, lastRaw: i32)
    requires 0 < |w| <= WIN_MAX
    ensures SeqMin(w) <= TrimmedMean(w, trimPct, lastRaw) <= SeqMax(w)
    ensures var k := TrimK(|w|, trimPct);
            -0x8000_0000_0000_0000 <= Sum(Sorting.SortSeq(w)[k..|w| - k]) < 0x8000_0000_0000_0000
  {
    var k := TrimK(|w|, trimPct);
    SortedSliceInRange(w, k, |w| - k);
    I32Extremes(w);
    var mid := Sorting.SortSeq(w)[k..|w| - k];
    assert 0 < |mid| <= WIN_MAX;
    assert forall i :: 0 <= i < |mid| ==> SeqMin(w) <= mid[i] <= SeqMax(w);
    SliceMeanBounded(mid, SeqMin(w), SeqMax(w));
  }

  /** The trimmed mean of a non-empty window fits an `int32_t`. */
  lemma {:induction false} MeanOfTrimmedFits(w: seq<i32>, trimPct: u8)
    requires 0 < |w| <= WIN_MAX
    ensures -0x8000_0000 <= MeanOfTrimmed(w, trimPct) < 0x8000_0000
  {
    TrimmedMeanBounded(w, trimPct, 0);
    I32Extremes(w);
  }

  lemma {:induction false} I32Extremes(w: seq<i32>)
    requires |w| > 0
    ensures -0x8000_0000 <= SeqMin(w) && SeqMax(w) < 0x8000_0000
  {
    var i :| 0 <= i < |w| && SeqMin(w) == w[i];
    var j :| 0 <= j < |w| && SeqMax(w) == w[j];
  }

  /** Sorting moves samples but invents none: any stretch of the sorted
      window lies between the window's extremes. */
  lemma {:induction false} SortedSliceInRange(w: seq<i32>, a: int, b: int)
    requires 0 < |w| && 0 <= a <= b <= |w|
    ensures forall i :: 0 <= i < b - a ==> SeqMin(w) <= Sorting.SortSeq(w)[a..b][i] <= SeqMax(w)
  {
    var sorted := Sorting.SortSeq(w);
    Sorting.SortSeqPermutes(w);
    var m := sorted[a..b];
    forall i | 0 <= i < |m|
      ensures SeqMin(w) <= m[i] <= SeqMax(w)
    {
      assert m[i] == sorted[a + i];
      assert sorted[a + i] in multiset(sorted);
      assert m[i] in w;
    }
  }

  /** The truncated mean of at most 12 values in `[lo, hi]` is in `[lo, hi]`,
      and their sum fits an `int64_t` when the values fit an `int32_t`. */
  lemma {:induction false} SliceMeanBounded(mid: seq<int>, lo: int, hi: int)
    requires 0 < |mid| <= WIN_MAX
    requires -0x8000_0000 <= lo && hi < 0x8000_0000
    requires forall i :: 0 <= i < |mid| ==> lo <= mid[i] <= hi
    ensures lo <= DivTrunc(Sum(mid), |mid|) <= hi
    ensures -0x8000_0000_0000_0000 <= Sum(mid) < 0x8000_0000_0000_0000
  {
    var n := |mid|;
    SumBetween(mid, lo, hi);
    DivTruncBetween(Sum(mid), n, lo, hi);
    MulMono(-0x8000_0000, lo, n);
    MulMono(hi, 0x7FFF_FFFF, n);
  }

  /** Five samples with one outlier, trimmed by 20%: the outlier is dropped
      and the mean is that of the rest. */
  lemma {:induction false} TrimmedMeanExample(lastRaw: i32)
    ensures TrimmedMean([10, 10, 10, 10, 1000], 20, lastRaw) == 10
  {
    var w: seq<i32> := [10, 10, 10, 10, 1000];
    assert Sorting.Sorted(w);
    Sorting.SortSeqOfSorted(w);
    assert TrimK(5, 20) == 1;
    assert w[1] == 10 && w[2] == 10 && w[3] == 10;
    var mid := w[1..4];
    assert mid == [10, 10, 10];
    assert mid[..2] == [10, 10] && mid[..2][..1] == [10] && mid[..2][..1][..0] == [];
    assert Sum([10]) == 10;
    assert Sum([10, 10]) == 20;
    assert Sum(mid) == 30;
  }

  // ---- noise ---------------------------------------------------------

  /** `HxNoise`; `stdCounts` is the library square root of the sample
      variance, kept as an exact real. */
  datatype HxNoise = HxNoise(valid: bool, rawPp: i32, stdCounts: real, stable: bool)

  /** The default `HxNoise`, returned below four samples. */
  const NO_NOISE: HxNoise := HxNoise(false, -1, 0.0, false)

  const MIN_NOISE_SAMPLES: nat := 4
  const STABLE_RAW_PP: int := 1500
  const STABLE_P2P_G: real := 2.0
  const STABLE_STD_G: real := 0.5

  function SumR(s: seq<int>): real
  {
    if |s| == 0 then 0.0 else SumR(s[..|s| - 1]) + s[|s| - 1] as real
  }

  /** The sum of squared deviations from `mean`. */
  function SqDev(s: seq<int>, mean: real): (acc: real)
    ensures acc >= 0.0
  {
    if |s| == 0 then 0.0
    else
      var d := s[|s| - 1] as real - mean;
      SqDev(s[..|s| - 1], mean) + d * d
  }

  /** `computeNoiseFromWindow_` on the oldest-first window `w`, with the
      calibration `cal` and the library square root `sqrt`. */
  function Noise(w: seq<i32>, cal: Storage.CalData, sqrt: real -> real): HxNoise
  {
    if |w| < MIN_NOISE_SAMPLES then NO_NOISE
    else
      var pp := WrapI32(SeqMax(w) - SeqMin(w));
      var mean := SumR(w) / |w| as real;
      var std := sqrt(SqDev(w, mean) / (|w| - 1) as real);
      var stable :=
        if cal.valid then
          LessEq(DivBy(pp as real, cal.scale), STABLE_P2P_G) || LessEq(DivBy(std, cal.scale), STABLE_STD_G)
        else pp < STABLE_RAW_PP;
      HxNoise(true, pp, std, stable)
  }

  /** The value of a valid noise record from its parts. */
  lemma {:induction false} NoiseFromParts(w: seq<i32>, cal: Storage.CalData, sqrt: real -> real, mn: int, mx: int, mean: real, acc: real)
    requires |w| >= MIN_NOISE_SAMPLES
    requires mn == SeqMin(w) && mx == SeqMax(w) && mean == SumR(w) / |w| as real && acc == SqDev(w, mean)
    ensures var pp := WrapI32(mx - mn);
            var std := sqrt(acc / (|w| - 1) as real);
            Noise(w, cal, sqrt) ==
              HxNoise(true, pp, std,
                      if cal.valid then
                        LessEq(DivBy(pp as real, cal.scale), STABLE_P2P_G) || LessEq(DivBy(std, cal.scale), STABLE_STD_G)
                      else pp < STABLE_RAW_PP)
  {
  }

  /** Below four samples the noise is the invalid default; from four on it
      is valid. */
  lemma {:induction false} NoiseNeedsFourSamples(w: seq<i32>, cal: Storage.CalData, sqrt: real -> real)
    ensures |w| < 4 ==> Noise(w, cal, sqrt) == HxNoise(false, -1, 0.0, false)
    ensures |w| >= 4 ==> Noise(w, cal, sqrt).valid
  {
  }

  /** Peak-to-peak is the spread of the window, non-negative, whenever the
      spread fits an `int32_t`; uncalibrated, the window is stable exactly
      when that spread is below 1500 counts. */
  lemma {:induction false} NoisePeakToPeak(w: seq<i32>, cal: Storage.CalData, sqrt: real -> real)
    requires |w| >= 4
    requires SeqMax(w) - SeqMin(w) < 0x8000_0000
    ensures Noise(w, cal, sqrt).rawPp == SeqMax(w) - SeqMin(w) >= 0
    ensures forall i :: 0 <= i < |w| ==> SeqMin(w) <= w[i] <= Noise(w, cal, sqrt).rawPp + SeqMin(w)
    ensures !cal.valid ==> (Noise(w, cal, sqrt).stable <==> SeqMax(w) - SeqMin(w) < 1500)
  {
  }

  /** A window of equal samples has no spread and no deviation, and so is
      stable when uncalibrated. */
  lemma {:induction false} ConstantWindowIsQuiet(w: seq<i32>, c: i32, cal: Storage.CalData, sqrt: real -> real)
    requires |w| >= 4 && forall i :: 0 <= i < |w| ==> w[i] == c
    ensures Noise(w, cal, sqrt).rawPp == 0
    ensures SqDev(w, SumR(w) / |w| as real) == 0.0
    ensures !cal.valid ==> Noise(w, cal, sqrt).stable
  {
    ConstantSum(w, c);
    assert SumR(w) / |w| as real == c as real;
    ConstantSqDev(w, c);
  }

  lemma {:induction false} ConstantSum(w: seq<int>, c: int)
    requires forall i :: 0 <= i < |w| ==> w[i] == c
    ensures SumR(w) == |w| as real * c as real
  {
    if |w| > 0 {
      var init := w[..|w| - 1];
      assert forall i :: 0 <= i < |init| ==> init[i] == w[i];
      ConstantSum(init, c);
    }
  }

  lemma {:induction false} ConstantSqDev(w: seq<int>, c: int)
    requires forall i :: 0 <= i < |w| ==> w[i] == c
    ensures SqDev(w, c as real) == 0.0
  {
    if |w| > 0 {
      var init := w[..|w| - 1];
      assert forall i :: 0 <= i < |init| ==> init[i] == w[i];
      ConstantSqDev(init, c);
    }
  }
}
