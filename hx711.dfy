/** `SensorsHx711`: the load-cell front end. It keeps the calibration
    record, the tare and calibration handshakes, the sample window and the
    persistent copy of the calibration. The HX711_ADC library is not part
    of this model: what it reports (a new conversion, the reconstructed raw
    count, tare completion, its tare offset, a refreshed data set, a new
    calibration factor) arrives as parameters, and the settings the driver
    pushes into it are not tracked. */
module Hx711 {
  import opened Common
  import opened Float32
  import opened HxWindow
  import Storage

  // ---- pure conversions ----------------------------------------------

  /** `HxSample`; the default is invalid with NaN thrust. */
  datatype HxSample = HxSample(valid: bool, thrustG: Float, thrustN: Float)

  const NO_SAMPLE: HxSample := HxSample(false, NaN, NaN)

  /** Newtons per gram-force, as the firmware writes it. */
  const N_PER_G: real := 0.00980665

  /** `rawToGrams`: NaN unless calibrated; otherwise the `int32_t`
      difference from the offset, negated when inverted, over the scale. */
  function RawToGrams(cal: Storage.CalData, raw: i32): (g: Float)
    ensures !cal.valid ==> g.NaN?
  {
    if !cal.valid then NaN
    else
      var delta := WrapI32(raw - cal.offset) as real;
      DivBy(if cal.invert then -delta else delta, cal.scale)
  }

  /** `convertRawToSample`. */
  function RawToSample(cal: Storage.CalData, raw: i32): (s: HxSample)
    ensures s.valid <==> cal.valid && RawToGrams(cal, raw).Finite?
    ensures s.valid ==> s.thrustG == RawToGrams(cal, raw) && s.thrustN == Finite(s.thrustG.r * N_PER_G)
    ensures !s.valid ==> s == HxSample(false, NaN, NaN)
  {
    if !cal.valid then NO_SAMPLE
    else
      var g := RawToGrams(cal, raw);
      if !g.Finite? then NO_SAMPLE else HxSample(true, g, Finite(g.r * N_PER_G))
  }

  // ---- the driver state ----------------------------------------------

  datatype HxState = HxState(
    attached: bool,          // `lc_ != nullptr`
    cal: Storage.CalData,
    sampleCount: u32,
    lastRaw: i32,
    tareBusy: bool,
    tareDone: bool,
    calBusy: bool,
    calDone: bool,
    ring: Ring)

  predicate Inv(s: HxState)
  {
    RingOk(s.ring)
  }

  /** After construction: unattached, default calibration, zeroed window. */
  function Initial(): HxState
  {
    HxState(false, Storage.DEFAULT_CAL, 0, 0, false, false, false, false,
            Ring(seq(WIN_MAX, _ => 0), 0, 0))
  }

  /** `begin`: the stored calibration when it validates, else the default;
      counters and handshakes cleared; window emptied. */
  function AfterBegin(s: HxState, flash: seq<u8>): HxState
    requires |flash| >= Storage.BLOB_SIZE
  {
    var cal := Storage.ParseOr(flash, Storage.DEFAULT_CAL);
    HxState(true, cal, 0, 0, false, false, false, false, Reset(s.ring))
  }

  /** `tickFast`: a new conversion bumps the wrapping sample counter and,
      when its value is finite, replaces the last raw count; a finished tare
      installs the library's offset, raises the done flag and empties the
      window. */
  function AfterTick(s: HxState, newSample: bool, reading: Option<i32>, tareReady: bool, tareOffset: i32): HxState
  {
    if !s.attached then s
    else
      var s1 :=
        if newSample then
          s.(lastRaw := if reading.Some? then reading.value else s.lastRaw,
             sampleCount := (s.sampleCount + 1) % TWO_32)
        else s;
      if s1.tareBusy && tareReady then
        s1.(cal := s1.cal.(offset := tareOffset), tareBusy := false, tareDone := true, ring := Reset(s1.ring))
      else s1
  }

  function AfterTareStart(s: HxState): HxState
  {
    if !s.attached then s else s.(tareBusy := true, tareDone := false)
  }

  /** `tareTrimDoneConsume` / `calTrimDoneConsume`: report a raised flag once. */
  predicate TareReported(s: HxState) { s.tareDone }

  function AfterTareConsume(s: HxState): HxState { s.(tareDone := false) }

  predicate CalReported(s: HxState) { s.calDone }

  function AfterCalConsume(s: HxState): HxState { s.(calDone := false) }

  /** What `calibrateWithMass` accepts: attached, a finite positive mass, a
      refreshed data set, and a finite non-zero new factor. */
  predicate CalAccepted(s: HxState, mass: Float, refreshed: bool, newCal: Bits4)
  {
    s.attached && mass.Finite? && mass.r > 0.0 && refreshed
    && Decode(newCal).Finite? && Decode(newCal).r != 0.0
  }

  /** `calibrateWithMass`: on success the offset is the library's tare
      offset, `invert` the sign of the factor, `scale` its magnitude, the
      record valid and the window empty. */
  function Calibrated(s: HxState, mass: Float, refreshed: bool, newCal: Bits4, tareOffset: i32): HxState
  {
    if !CalAccepted(s, mass, refreshed, newCal) then s
    else
      s.(cal := Storage.CalData(tareOffset, ClearSign(newCal), Decode(newCal).r < 0.0, true),
         ring := Reset(s.ring))
  }

  /** `calTrimStart`: calibrate at once, then publish the outcome in the
      done flag. */
  function AfterCalTrimStart(s: HxState, mass: Float, refreshed: bool, newCal: Bits4, tareOffset: i32): HxState
  {
    Calibrated(s, mass, refreshed, newCal, tareOffset)
      .(calBusy := false, calDone := CalAccepted(s, mass, refreshed, newCal))
  }

  /** `loadCal`: a record that validates is installed and empties the window;
      otherwise nothing changes. */
  function AfterLoadCal(s: HxState, flash: seq<u8>): HxState
    requires |flash| >= Storage.BLOB_SIZE
  {
    match Storage.Parse(flash)
    case Some(c) => s.(cal := c, ring := Reset(s.ring))
    case None => s
  }

  /** `resetCal`: back to the default record, window emptied. */
  function AfterResetCal(s: HxState): HxState
  {
    s.(cal := Storage.DEFAULT_CAL, ring := Reset(s.ring))
  }

  function AfterWindowReset(s: HxState): HxState { s.(ring := Reset(s.ring)) }

  function AfterWindowPush(s: HxState, raw: i32): HxState
    requires Inv(s)
  {
    s.(ring := Push(s.ring, raw))
  }

  // ---- properties ----------------------------------------------------

  /** Every operation keeps `head < 12` and `count <= 12`. */
  lemma {:induction false} OperationsKeepRing(s: HxState, newSample: bool, reading: Option<i32>, tareReady: bool, tareOffset: i32,
                           mass: Float, refreshed: bool, newCal: Bits4, flash: seq<u8>, raw: i32)
    requires Inv(s) && |flash| >= Storage.BLOB_SIZE
    ensures Inv(AfterBegin(s, flash)) && Inv(AfterTick(s, newSample, reading, tareReady, tareOffset))
    ensures Inv(AfterTareStart(s)) && Inv(AfterTareConsume(s)) && Inv(AfterCalConsume(s))
    ensures Inv(AfterCalTrimStart(s, mass, refreshed, newCal, tareOffset))
    ensures Inv(AfterLoadCal(s, flash)) && Inv(AfterResetCal(s))
    ensures Inv(AfterWindowReset(s)) && Inv(AfterWindowPush(s, raw))
  {
  }

  /** A rejected calibration leaves the record and the window as they were;
      an accepted one stores a positive magnitude, and the window is empty,
      so the trimmed mean falls back to the last raw count and the noise to
      its invalid default. */
  lemma {:induction false} CalibrateOutcome(s: HxState, mass: Float, refreshed: bool, newCal: Bits4, tareOffset: i32, trimPct: u8, sqrt: real -> real)
    requires Inv(s)
    ensures !CalAccepted(s, mass, refreshed, newCal) ==> Calibrated(s, mass, refreshed, newCal, tareOffset) == s
    ensures CalAccepted(s, mass, refreshed, newCal) ==>
              var c := Calibrated(s, mass, refreshed, newCal, tareOffset).cal;
              c.valid && c.offset == tareOffset && (c.invert <==> Decode(newCal).r < 0.0)
              && Decode(c.scale) == Finite(AbsR(Decode(newCal).r)) && AbsR(Decode(newCal).r) > 0.0
    ensures CalAccepted(s, mass, refreshed, newCal) ==>
              var t := Calibrated(s, mass, refreshed, newCal, tareOffset);
              Linear(t.ring) == [] && TrimmedMean(Linear(t.ring), trimPct, t.lastRaw) == s.lastRaw
              && Noise(Linear(t.ring), t.cal, sqrt) == NO_NOISE
  {
    if CalAccepted(s, mass, refreshed, newCal) {
      ClearSignIsAbs(newCal);
    }
  }

  /** After a successful calibration, grams are the raw difference over the
      signed factor the library reported: `invert` with the magnitude gives
      the same result as dividing by the signed value, and no absolute value
      is taken of the reading. */
  lemma {:induction false} CalibratedGrams(s: HxState, mass: Float, refreshed: bool, newCal: Bits4, tareOffset: i32, raw: i32)
    requires CalAccepted(s, mass, refreshed, newCal)
    ensures RawToGrams(Calibrated(s, mass, refreshed, newCal, tareOffset).cal, raw)
            == Finite(WrapI32(raw - tareOffset) as real / Decode(newCal).r)
  {
    var v := Decode(newCal).r;
    var c := Calibrated(s, mass, refreshed, newCal, tareOffset).cal;
    ClearSignIsAbs(newCal);
    var d := WrapI32(raw - tareOffset) as real;
    if v < 0.0 {
      assert AbsR(v) == -v;
      NegOverNeg(d, v);
    }
  }

  lemma NegOverNeg(d: real, v: real)
    requires v != 0.0
    ensures (-d) / (-v) == d / v
  {
  }

  /** Each calibration change (tare completion, accepted calibration,
      successful load, reset) empties the window; a failed load changes
      nothing. */
  lemma {:induction false} CalibrationChangesEmptyWindow(s: HxState, newSample: bool, reading: Option<i32>, tareOffset: i32, flash: seq<u8>)
    requires Inv(s) && |flash| >= Storage.BLOB_SIZE
    ensures var t := AfterTick(s, newSample, reading, true, tareOffset);
            s.attached && s.tareBusy ==> t.tareDone && !t.tareBusy && t.cal.offset == tareOffset && Linear(t.ring) == []
    ensures var t := AfterTick(s, newSample, reading, true, tareOffset);
            t.cal != s.cal ==> Linear(t.ring) == []
    ensures Storage.Parse(flash).Some? ==>
              AfterLoadCal(s, flash).cal == Storage.Parse(flash).value && Linear(AfterLoadCal(s, flash).ring) == []
    ensures Storage.Parse(flash).None? ==> AfterLoadCal(s, flash) == s
    ensures AfterResetCal(s).cal == Storage.DEFAULT_CAL && Linear(AfterResetCal(s).ring) == []
  {
  }

  /** Without a finished tare a tick never touches the record or the
      window, and it changes nothing at all while unattached. */
  lemma {:induction false} TickKeepsRecordAndWindow(s: HxState, newSample: bool, reading: Option<i32>, tareReady: bool, tareOffset: i32)
    ensures !(s.tareBusy && tareReady) ==>
              var t := AfterTick(s, newSample, reading, tareReady, tareOffset);
              t.cal == s.cal && t.ring == s.ring && t.tareDone == s.tareDone
    ensures !s.attached ==> AfterTick(s, newSample, reading, tareReady, tareOffset) == s
    ensures s.attached && newSample ==>
              AfterTick(s, newSample, reading, tareReady, tareOffset).sampleCount == (s.sampleCount + 1) % TWO_32
  {
  }

  /** A done flag is reported exactly once: consuming clears it, and a
      second consume reports nothing. */
  lemma {:induction false} DoneReportedOnce(s: HxState)
    ensures !TareReported(AfterTareConsume(s)) && !CalReported(AfterCalConsume(s))
    ensures AfterTareConsume(AfterTareConsume(s)) == AfterTareConsume(s)
    ensures AfterTareConsume(s).cal == s.cal && AfterTareConsume(s).ring == s.ring
  {
  }

  /** The calibration handshake ends idle, with the done flag equal to
      acceptance. */
  lemma {:induction false} CalTrimPublishesOutcome(s: HxState, mass: Float, refreshed: bool, newCal: Bits4, tareOffset: i32)
    ensures var t := AfterCalTrimStart(s, mass, refreshed, newCal, tareOffset);
            !t.calBusy && (CalReported(t) <==> CalAccepted(s, mass, refreshed, newCal))
  {
  }

  /** Uncalibrated, every reading converts to the invalid default sample. */
  lemma {:induction false} UncalibratedSampleIsDefault(cal: Storage.CalData, raw: i32)
    requires !cal.valid
    ensures RawToSample(cal, raw) == NO_SAMPLE && RawToGrams(cal, raw).NaN?
  {
  }

  // ---- the class -----------------------------------------------------

  class SensorsHx711 {
    var attached: bool
    var cal: Storage.CalData
    var sampleCount: u32
    var lastRaw: i32
    var tareBusy: bool
    var tareDone: bool
    var calBusy: bool
    var calDone: bool
    const window: array<i32>
    var head: int
    var count: int
    const storage: Storage.CalStorage

    function Model(): HxState
      reads this, window
    {
      HxState(attached, cal, sampleCount, lastRaw, tareBusy, tareDone, calBusy, calDone,
              Ring(window[..], head, count))
    }

    ghost predicate Valid()
      reads this, window, storage
    {
      window.Length == WIN_MAX && Inv(Model()) && storage.Valid()
    }

    /** The EEPROM region holds `flash` at power-up. */
    constructor (flash: seq<u8>)
      requires |flash| == Storage.EEPROM_SIZE
      ensures Valid() && Model() == Initial() && storage.eeprom[..] == flash
      ensures fresh(window) && fresh(storage) && fresh(storage.eeprom)
    {
      attached, cal := false, Storage.DEFAULT_CAL;
      sampleCount, lastRaw := 0, 0;
      tareBusy, tareDone, calBusy, calDone := false, false, false, false;
      window := new i32[WIN_MAX](_ => 0);
      head, count := 0, 0;
      storage := new Storage.CalStorage(flash);
      new;
      assert window[..] == seq(WIN_MAX, _ => 0);
    }

    method Begin()
      requires Valid()
      modifies this
      ensures Valid() && Model() == AfterBegin(old(Model()), storage.eeprom[..])
    {
      var ok, tmp := storage.Load(Storage.DEFAULT_CAL);
      attached, cal := true, tmp;
      sampleCount, lastRaw := 0, 0;
      tareBusy, tareDone, calBusy, calDone := false, false, false, false;
      WindowReset();
    }

    method TickFast(newSample: bool, reading: Option<i32>, tareReady: bool, tareOffset: i32)
      requires Valid()
      modifies this
      ensures Valid() && Model() == AfterTick(old(Model()), newSample, reading, tareReady, tareOffset)
    {
      if !attached {
        return;
      }
      if newSample {
        if reading.Some? {
          lastRaw := reading.value;
        }
        sampleCount := (sampleCount + 1) % TWO_32;
      }
      if tareBusy && tareReady {
        cal := cal.(offset := tareOffset);
        tareBusy := false;
        tareDone := true;
        WindowReset();
      }
    }

    method TareTrimStart()
      requires Valid()
      modifies this
      ensures Valid() && Model() == AfterTareStart(old(Model()))
    {
      if !attached {
        return;
      }
      tareBusy := true;
      tareDone := false;
    }

    method TareTrimDoneConsume() returns (done: bool)
      requires Valid()
      modifies this
      ensures done == TareReported(old(Model()))
      ensures Valid() && Model() == AfterTareConsume(old(Model()))
    {
      if tareDone {
        tareDone := false;
        return true;
      }
      return false;
    }

    method CalibrateWithMass(mass: Float, refreshed: bool, newCal: Bits4, tareOffset: i32) returns (ok: bool)
      requires Valid()
      modifies this
      ensures ok == CalAccepted(old(Model()), mass, refreshed, newCal)
      ensures Valid() && Model() == Calibrated(old(Model()), mass, refreshed, newCal, tareOffset)
    {
      if !attached || !(mass.Finite? && mass.r > 0.0) {
        return false;
      }
      if !refreshed {
        return false;
      }
      var f := Decode(newCal);
      if !f.Finite? || f.r == 0.0 {
        return false;
      }
      cal := Storage.CalData(tareOffset, ClearSign(newCal), f.r < 0.0, true);
      WindowReset();
      return true;
    }

    method CalTrimStart(mass: Float, refreshed: bool, newCal: Bits4, tareOffset: i32)
      requires Valid()
      modifies this
      ensures Valid() && Model() == AfterCalTrimStart(old(Model()), mass, refreshed, newCal, tareOffset)
    {
      calBusy := true;
      calDone := false;
      var ok := CalibrateWithMass(mass, refreshed, newCal, tareOffset);
      calBusy := false;
      calDone := ok;
    }

    method CalTrimDoneConsume() returns (done: bool)
      requires Valid()
      modifies this
      ensures done == CalReported(old(Model()))
      ensures Valid() && Model() == AfterCalConsume(old(Model()))
    {
      if calDone {
        calDone := false;
        return true;
      }
      return false;
    }

    /** `saveCal`: refused while uncalibrated; otherwise the blob goes to EEPROM. */
    method SaveCal() returns (ok: bool)
      requires Valid()
      modifies storage.eeprom
      ensures Valid() && Model() == old(Model())
      ensures ok == cal.valid
      ensures ok ==> storage.eeprom[..] == Storage.Blob(cal) + old(storage.eeprom[..])[Storage.BLOB_SIZE..]
      ensures !ok ==> storage.eeprom[..] == old(storage.eeprom[..])
    {
      if !cal.valid {
        return false;
      }
      ok := storage.Save(cal);
    }

    method LoadCal() returns (ok: bool)
      requires Valid()
      modifies this
      ensures ok == Storage.Parse(storage.eeprom[..]).Some?
      ensures Valid() && Model() == AfterLoadCal(old(Model()), storage.eeprom[..])
    {
      var tmp := Storage.DEFAULT_CAL;
      ok, tmp := storage.Load(tmp);
      if !ok {
        return false;
      }
      cal := tmp;
      WindowReset();
    }

    method ResetCal()
      requires Valid()
      modifies this, storage.eeprom
      ensures Valid() && Model() == AfterResetCal(old(Model()))
      ensures storage.eeprom[..] == Storage.Erased()
    {
      cal := Storage.DEFAULT_CAL;
      var _ := storage.Reset();
      WindowReset();
    }

    method WindowReset()
      requires Valid()
      modifies this
      ensures Valid() && Model() == AfterWindowReset(old(Model()))
    {
      head := 0;
      count := 0;
    }

    method WindowPush(raw: i32)
      requires Valid()
      modifies this, window
      ensures Valid() && Model() == AfterWindowPush(old(Model()), raw)
    {
      window[head] := raw;
      head := (head + 1) % WIN_MAX;
      if count < WIN_MAX {
        count := count + 1;
      }
    }

    /** `windowHasEnough(n)`: at least `n` samples in the window. */
    function WindowHasEnough(n: u8): (r: bool)
      requires Valid()
      reads this, window, storage
      ensures r <==> |Linear(Model().ring)| >= n
    {
      count >= n
    }

    /** `copyWindowToLinear_` into a caller's buffer of 12. */
    method CopyWindowToLinear(out: array<i32>) returns (n: int)
      requires Valid() && out.Length == WIN_MAX && out != window
      modifies out
      ensures n == count && out[..n] == Linear(Model().ring)
    {
      n := count;
      if n == 0 {
        assert out[..n] == [];
        return;
      }
      var start := head - count;
      while start < 0
        invariant head - count <= start < WIN_MAX
        invariant start == head - count || start == head - count + WIN_MAX
        decreases -start
      {
        start := start + WIN_MAX;
      }
      ghost var w := Linear(Model().ring);
      var i := 0;
      while i < n
        invariant 0 <= i <= n
        invariant forall j :: 0 <= j < i ==> out[j] == w[j]
      {
        var idx := start + i;
        if idx >= WIN_MAX {
          idx := idx - WIN_MAX;
        }
        assert idx == Slot(head, count, i);
        out[i] := window[idx];
        i := i + 1;
      }
      assert out[..n] == w;
    }

    /** `windowTrimmedMean`. */
    method WindowTrimmedMean(trimPct: u8) returns (r: i32)
      requires Valid()
      ensures r == TrimmedMean(Linear(Model().ring), trimPct, lastRaw)
    {
      if count == 0 {
        return lastRaw;
      }
      var tmp := new i32[WIN_MAX];
      var n := CopyWindowToLinear(tmp);
      r := MeanOfTrimmedIn(tmp, n, trimPct);
    }

    /** `windowNoise`, which is `computeNoiseFromWindow_`; `sqrt` is the
        library square root. */
    method WindowNoise(sqrt: real -> real) returns (ns: HxNoise)
      requires Valid()
      ensures ns == Noise(Linear(Model().ring), cal, sqrt)
    {
      if count < MIN_NOISE_SAMPLES {
        return NO_NOISE;
      }
      var tmp := new i32[WIN_MAX];
      var n := CopyWindowToLinear(tmp);
      ghost var w := tmp[..n];
      var mn, mx, sum := MinMaxSum(tmp, n);
      var mean := sum / n as real;
      var acc := SquaredDeviations(tmp, n, mean);
      NoiseFromParts(w, cal, sqrt, mn, mx, mean, acc);
      var pp := WrapI32(mx as int - mn as int);
      var std := if n > 1 then sqrt(acc / (n - 1) as real) else 0.0;
      var stable :=
        if cal.valid then
          LessEq(DivBy(pp as real, cal.scale), STABLE_P2P_G) || LessEq(DivBy(std, cal.scale), STABLE_STD_G)
        else pp < STABLE_RAW_PP;
      ns := HxNoise(true, pp, std, stable);
    }
  }

  // ---- the accumulation loops ----------------------------------------

  /** `windowTrimmedMean` after the copy: sort `a[0..n)` in place, drop `k`
      samples from each end and average the rest. */
  method MeanOfTrimmedIn(a: array<i32>, n: int, trimPct: u8) returns (r: i32)
    requires 0 < n <= WIN_MAX && n <= a.Length
    modifies a
    ensures r == MeanOfTrimmed(old(a[..n]), trimPct)
  {
    ghost var w := a[..n];
    Sorting.InsertionSort(a, n);
    ghost var sorted := a[..n];
    var k := n * trimPct / 100;
    if k * 2 >= n {
      k := 0;
    }
    var lo, hi := k, n - k;
    // `k` was put back to 0 whenever `2k >= n`, so `lo < hi` and the
    // median fallback of the source cannot run.
    assert lo < hi && k == TrimK(n, trimPct);
    assert a[lo..hi] == sorted[lo..hi];
    var sum, used := SumRange(a, lo, hi);
    TrimmedMeanFromParts(w, trimPct, sorted, k, sum);
    MeanOfTrimmedFits(w, trimPct);
    assert DivTrunc(sum, used) == MeanOfTrimmed(w, trimPct);
    r := DivTrunc(sum, used);
  }

  /** The summing loop of `windowTrimmedMean` over `a[lo..hi)`. */
  method SumRange(a: array<i32>, lo: int, hi: int) returns (sum: int, used: int)
    requires 0 <= lo <= hi <= a.Length
    ensures sum == Sum(a[lo..hi]) && used == hi - lo
  {
    sum, used := 0, 0;
    var i := lo;
    while i < hi
      invariant lo <= i <= hi && used == i - lo
      invariant sum == Sum(a[lo..i])
    {
      assert a[lo..i + 1][..i - lo] == a[lo..i];
      sum := sum + a[i] as int;
      used := used + 1;
      i := i + 1;
    }
  }

  /** The first loop of `computeNoiseFromWindow_`: extremes and sum of `a[0..n)`. */
  method MinMaxSum(a: array<i32>, n: int) returns (mn: i32, mx: i32, sum: real)
    requires 0 < n <= a.Length
    ensures mn == SeqMin(a[..n]) && mx == SeqMax(a[..n]) && sum == SumR(a[..n])
  {
    mn, mx := a[0], a[0];
    sum := 0.0;
    var i := 0;
    while i < n
      invariant 0 <= i <= n
      invariant i == 0 ==> mn == a[0] && mx == a[0]
      invariant i > 0 ==> mn == SeqMin(a[..i]) && mx == SeqMax(a[..i])
      invariant sum == SumR(a[..i])
    {
      assert a[..i + 1][..i] == a[..i];
      var v := a[i];
      if v < mn {
        mn := v;
      }
      if v > mx {
        mx := v;
      }
      sum := sum + v as real;
      i := i + 1;
    }
  }

  /** The second loop of `computeNoiseFromWindow_`. */
  method SquaredDeviations(a: array<i32>, n: int, mean: real) returns (acc: real)
    requires 0 <= n <= a.Length
    ensures acc == SqDev(a[..n], mean)
  {
    acc := 0.0;
    var i := 0;
    while i < n
      invariant 0 <= i <= n
      invariant acc == SqDev(a[..i], mean)
    {
      assert a[..i + 1][..i] == a[..i];
      var d := a[i] as real - mean;
      acc := acc + d * d;
      i := i + 1;
    }
  }
}
