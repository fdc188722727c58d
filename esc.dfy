/** The bidirectional-DShot throttle controller (`EscBdshot`): a ramped
    throttle percentage, command transmission at a fixed period, a cache of
    the last eRPM reading and a latched RPM_TIMEOUT failsafe.

    The clocks (`millis`, `micros`) and the driver's eRPM reading are
    parameters of the operations that read them; the driver itself is a sink
    that records every command handed to it (`sent`). */
module Esc {
  import opened Common

  const DSHOT_MAX: nat := 2000
  const TELEMETRY_TIMEOUT_MS: nat := 500
  const ESC_SEND_PERIOD_US: nat := 1000
  /** Past this cache age at low throttle, telemetry is shown as zero. */
  const STOPPED_STALE_RPM_MS: nat := 250
  /** The ramp rate that stands for "no ramp". */
  const INSTANT_RATE: real := 9999.0
  /** The failsafe only latches above this throttle. */
  const RUNNING_PCT: real := 3.0
  /** Below this (current and target) the channel counts as idle. */
  const IDLE_PCT: real := 1.0
  const DEFAULT_POLE_PAIRS: u8 := 7

  datatype FailsafeReason = Ok | RpmTimeout

  /** `EscTelemetry`; `errPct == None` stands for NAN. */
  datatype EscTelemetry = EscTelemetry(rpmValid: bool, erpm: u32, rpm: u32, errPct: Option<real>)

  const NO_TELEMETRY: EscTelemetry := EscTelemetry(false, 0, 0, None)

  /** The fields of `EscBdshot`; `attached` is "the driver exists"
      (`esc_ != nullptr`), `sent` the commands the driver received. */
  datatype EscState = EscState(
    attached: bool,
    polePairs: u8,
    current: real,
    target: real,
    rate: real,
    lastRampMs: u32,
    lastSendUs: u64,
    lastRpmUpdateMs: u32,
    lastErpmCached: u32,
    telemetrySeen: bool,
    failsafe: bool,
    reason: FailsafeReason,
    sent: seq<nat>)

  /** What every operation keeps: percentages in [0,100], a positive ramp
      rate, a pole-pair count that is never 0, the reason agreeing with the
      latch, and only protocol-range commands on the wire. */
  predicate Inv(s: EscState)
  {
    s.polePairs >= 1
    && 0.0 <= s.current <= 100.0
    && 0.0 <= s.target <= 100.0
    && s.rate > 0.0
    && (s.failsafe <==> s.reason == RpmTimeout)
    && forall i :: 0 <= i < |s.sent| ==> s.sent[i] <= DSHOT_MAX
  }

  /** The field initialisers of esc_bdshot.h. */
  function Initial(): (s: EscState)
    ensures Inv(s) && !s.attached && !s.failsafe && s.reason == Ok
    ensures s.current == 0.0 && s.target == 0.0 && s.rate == INSTANT_RATE
    ensures !s.telemetrySeen && s.lastErpmCached == 0 && s.sent == []
  {
    EscState(false, DEFAULT_POLE_PAIRS, 0.0, 0.0, INSTANT_RATE, 0, 0, 0, 0, false, false, Ok, [])
  }

  /** The rate in percent per second: instant for a non-positive ramp time,
      otherwise one that covers 0..100 % in `rampS` seconds. */
  function RampRate(rampS: real): (r: real)
    ensures r > 0.0
    ensures rampS <= 0.0 ==> r == INSTANT_RATE
    ensures rampS > 0.0 ==> r * rampS == 100.0
  {
    if rampS <= 0.0 then INSTANT_RATE else 100.0 / rampS
  }

  /** `pctToDshot`: 20 times the clamped percentage, rounded half up. */
  function PctToDshot(pct: real): (cmd: nat)
    ensures cmd <= DSHOT_MAX
    ensures cmd as real - 0.5 <= Clamp(pct, 0.0, 100.0) * 20.0 < cmd as real + 0.5
  {
    var p := Clamp(pct, 0.0, 100.0);
    var v := (p / 100.0) * DSHOT_MAX as real;
    var out := (v + 0.5).Floor;
    if out > DSHOT_MAX then DSHOT_MAX else out
  }

  lemma PctToDshotEnds()
    ensures PctToDshot(0.0) == 0 && PctToDshot(100.0) == DSHOT_MAX
  {
  }

  /** A higher percentage never gives a lower command. */
  lemma {:induction false} PctToDshotMonotone(p: real, q: real)
    requires p <= q
    ensures PctToDshot(p) <= PctToDshot(q)
  {
  }

  /** One ramp step of `tickFast`: move toward `tgt` by at most
      `rate * dt`, snapping onto it when it is within reach. */
  function RampStep(cur: real, tgt: real, rate: real, dtMs: u32): (next: real)
    requires rate >= 0.0
    ensures (cur <= next <= tgt) || (tgt <= next <= cur)
    ensures AbsR(next - cur) <= rate * (dtMs as real * 0.001)
    ensures AbsR(tgt - cur) <= rate * (dtMs as real * 0.001) ==> next == tgt
    ensures AbsR(tgt - cur) > rate * (dtMs as real * 0.001) ==>
              AbsR(tgt - next) == AbsR(tgt - cur) - rate * (dtMs as real * 0.001)
  {
    var maxStep := rate * (dtMs as real * 0.001);
    var err := tgt - cur;
    ScaledNonNeg(rate, dtMs as real * 0.001);
    if AbsR(err) <= maxStep then tgt
    else if err > 0.0 then cur + maxStep
    else cur - maxStep
  }

  lemma {:induction false} ScaledNonNeg(a: real, b: real)
    requires a >= 0.0 && b >= 0.0
    ensures a * b >= 0.0
  {
  }

  function ClearedFailsafe(s: EscState, nowMs: u32): (r: EscState)
  {
    s.(failsafe := false, reason := Ok, telemetrySeen := false,
       lastErpmCached := 0, lastRpmUpdateMs := nowMs)
  }

  /** `applyThrottleInternal`: one command to the driver, if there is one. */
  function Sent(s: EscState, pct: real): (r: EscState)
  {
    if s.attached then s.(sent := s.sent + [PctToDshot(pct)]) else s
  }

  /** `begin` (pin and bit rate are the driver's business). */
  function AfterBegin(s: EscState, nowMs: u32, nowUs: u64): (r: EscState)
  {
    ClearedFailsafe(
      s.(attached := true, current := 0.0, target := 0.0, rate := INSTANT_RATE,
         lastRampMs := nowMs, lastSendUs := nowUs, lastRpmUpdateMs := nowMs,
         lastErpmCached := 0, telemetrySeen := false),
      nowMs)
  }

  function AfterSetPolePairs(s: EscState, pp: u8): (r: EscState)
  {
    s.(polePairs := if pp == 0 then 1 else pp)
  }

  function AfterSetTarget(s: EscState, pct: real, rampS: real): (r: EscState)
  {
    s.(target := Clamp(pct, 0.0, 100.0), rate := RampRate(rampS))
  }

  function AfterStopNow(s: EscState, nowMs: u32): (r: EscState)
  {
    Sent(ClearedFailsafe(s.(target := 0.0, current := 0.0, rate := INSTANT_RATE), nowMs), 0.0)
  }

  /** The latch condition of `tickFast`, evaluated on the state after the
      ramp and the telemetry pull. */
  predicate LatchDue(s: EscState, nowMs: u32)
  {
    !s.failsafe && s.telemetrySeen
    && ElapsedU32(nowMs, s.lastRpmUpdateMs) > TELEMETRY_TIMEOUT_MS
    && s.current > RUNNING_PCT
  }

  /** Phase 1 of `tickFast`: force zero when latched, else one ramp step. */
  function Ramped(s: EscState, nowMs: u32): (r: EscState)
    requires s.rate >= 0.0
  {
    if s.failsafe then s.(target := 0.0, current := 0.0)
    else s.(lastRampMs := nowMs,
            current := RampStep(s.current, s.target, s.rate, ElapsedU32(nowMs, s.lastRampMs)))
  }

  /** Phase 2: once the send period has passed, send the throttle and pull
      one eRPM reading, caching it when it is positive. */
  function Pulled(s: EscState, nowMs: u32, nowUs: u64, erpm: u32): (r: EscState)
  {
    if ElapsedUsLow32(nowUs, s.lastSendUs) < ESC_SEND_PERIOD_US then s
    else
      var sent := Sent(s.(lastSendUs := nowUs), s.current);
      if erpm > 0 then sent.(lastErpmCached := erpm, telemetrySeen := true, lastRpmUpdateMs := nowMs)
      else sent
  }

  /** Phase 3: latch RPM_TIMEOUT when due. */
  function Latched(s: EscState, nowMs: u32): (r: EscState)
  {
    if LatchDue(s, nowMs) then s.(failsafe := true, reason := RpmTimeout) else s
  }

  /** `tickFast`; nothing happens while the driver is absent. */
  function AfterTick(s: EscState, nowMs: u32, nowUs: u64, erpm: u32): (r: EscState)
    requires s.rate >= 0.0
  {
    if !s.attached then s
    else Latched(Pulled(Ramped(s, nowMs), nowMs, nowUs, erpm), nowMs)
  }

  /** `getTelemetry`. */
  function Telemetry(s: EscState, nowMs: u32): (t: EscTelemetry)
    ensures t.rpm <= t.erpm
    ensures t.rpmValid ==> t.erpm > 0 && s.polePairs > 0 && t.rpm == t.erpm / s.polePairs as int
    ensures !t.rpmValid ==> t.rpm == 0
    ensures t.errPct.Some? ==> t.errPct.value == 0.0 || t.errPct.value == 100.0
    ensures !s.telemetrySeen ==> t.errPct.None?
  {
    var age := ElapsedU32(nowMs, s.lastRpmUpdateMs);
    var lowThrottle := s.current < IDLE_PCT && s.target < IDLE_PCT;
    if lowThrottle && age > STOPPED_STALE_RPM_MS then NO_TELEMETRY
    else
      var erpm := s.lastErpmCached;
      var valid := erpm > 0 && s.polePairs > 0;
      var rpm: u32 := if valid then DivNoLarger(erpm, s.polePairs as int); erpm / s.polePairs as int else 0;
      EscTelemetry(valid, erpm, rpm,
                   if !s.telemetrySeen then None
                   else Some(if age > TELEMETRY_TIMEOUT_MS then 100.0 else 0.0))
  }

  /** `getTelemetry` case by case: near idle with a cache older than
      250 ms it shows nothing; otherwise the cached eRPM, an rpm exactly when
      that is positive, and an error that is unknown before any telemetry,
      else 100 past the timeout and 0 within it. */
  lemma {:induction false} TelemetryCases(s: EscState, nowMs: u32)
    requires Inv(s)
    ensures var t := Telemetry(s, nowMs);
      var age := ElapsedU32(nowMs, s.lastRpmUpdateMs);
      var stale := s.current < IDLE_PCT && s.target < IDLE_PCT && age > STOPPED_STALE_RPM_MS;
      (stale ==> t == NO_TELEMETRY)
      && (!stale ==> t.erpm == s.lastErpmCached
                     && (t.rpmValid <==> s.lastErpmCached > 0)
                     && (t.errPct.None? <==> !s.telemetrySeen)
                     && (s.telemetrySeen ==>
                           t.errPct == Some(if age > TELEMETRY_TIMEOUT_MS then 100.0 else 0.0)))
  {
  }

  lemma {:induction false} DivNoLarger(x: nat, n: int)
    requires n >= 1
    ensures x / n <= x
  {
    MulMono(1, n, x);
    assert x <= x * n;
    FloorDivUpper(x, n, x);
  }

  // ---- properties of the operations ----------------------------------

  lemma {:induction false} InitialTelemetryUnknown(nowMs: u32)
    ensures Telemetry(Initial(), nowMs) == NO_TELEMETRY
  {
  }

  lemma {:induction false} SetTargetClamps(s: EscState, pct: real, rampS: real)
    requires Inv(s)
    ensures var r := AfterSetTarget(s, pct, rampS);
      Inv(r) && 0.0 <= r.target <= 100.0 && r.current == s.current
      && (0.0 <= pct <= 100.0 ==> r.target == pct)
      && (rampS <= 0.0 ==> r.rate == INSTANT_RATE)
      && (rampS > 0.0 ==> r.rate == 100.0 / rampS)
  {
  }

  lemma {:induction false} SetPolePairsNeverZero(s: EscState, pp: u8)
    requires Inv(s)
    ensures var r := AfterSetPolePairs(s, pp);
      Inv(r) && r.polePairs >= 1 && (pp != 0 ==> r.polePairs == pp)
  {
  }

  /** `stopNow`: both percentages zero, instant rate, latch and cache
      cleared, and exactly one zero command sent when attached. */
  lemma {:induction false} StopNowResets(s: EscState, nowMs: u32)
    requires Inv(s)
    ensures var r := AfterStopNow(s, nowMs);
      Inv(r) && r.current == 0.0 && r.target == 0.0 && r.rate == INSTANT_RATE
      && !r.failsafe && r.reason == Ok && !r.telemetrySeen && r.lastErpmCached == 0
      && r.sent == (if s.attached then s.sent + [0] else s.sent)
  {
    assert PctToDshot(0.0) == 0;
  }

  /** After `stopNow` the telemetry shows nothing: no rotation, unknown error. */
  lemma {:induction false} StopNowTelemetry(s: EscState, stopMs: u32, nowMs: u32)
    ensures var t := Telemetry(AfterStopNow(s, stopMs), nowMs);
      t.erpm == 0 && !t.rpmValid && t.rpm == 0 && t.errPct.None?
  {
  }

  lemma {:induction false} TickPreservesInv(s: EscState, nowMs: u32, nowUs: u64, erpm: u32)
    requires Inv(s)
    ensures Inv(AfterTick(s, nowMs, nowUs, erpm))
  {
    var r := AfterTick(s, nowMs, nowUs, erpm);
    if s.attached {
      assert forall i :: 0 <= i < |r.sent| ==> r.sent[i] <= DSHOT_MAX by {
        forall i | 0 <= i < |r.sent| ensures r.sent[i] <= DSHOT_MAX {
          if i < |s.sent| { assert r.sent[i] == s.sent[i]; }
        }
      }
    }
  }

  /** While latched a tick forces both percentages to zero and keeps the
      latch: nothing in `tickFast` clears it. */
  lemma {:induction false} TickWhileLatched(s: EscState, nowMs: u32, nowUs: u64, erpm: u32)
    requires Inv(s) && s.attached && s.failsafe
    ensures var r := AfterTick(s, nowMs, nowUs, erpm);
      r.failsafe && r.reason == RpmTimeout && r.current == 0.0 && r.target == 0.0
  {
  }

  /** A tick never clears the latch. */
  lemma {:induction false} TickKeepsLatch(s: EscState, nowMs: u32, nowUs: u64, erpm: u32)
    requires Inv(s) && s.failsafe
    ensures AfterTick(s, nowMs, nowUs, erpm).failsafe
  {
  }

  /** A tick latches only when telemetry was seen, the cache is older than
      the timeout and the throttle is above the running threshold; so never
      at zero throttle. */
  lemma {:induction false} TickLatchesOnlyWhenDue(s: EscState, nowMs: u32, nowUs: u64, erpm: u32)
    requires Inv(s) && !s.failsafe
    ensures var r := AfterTick(s, nowMs, nowUs, erpm);
      r.failsafe ==> r.telemetrySeen
                     && ElapsedU32(nowMs, r.lastRpmUpdateMs) > TELEMETRY_TIMEOUT_MS
                     && r.current > RUNNING_PCT && r.reason == RpmTimeout
    ensures var r := AfterTick(s, nowMs, nowUs, erpm);
      r.failsafe <== s.attached && LatchDue(r, nowMs)
  {
  }

  /** Unlatched, a tick keeps the target and moves the throttle one ramp step
      toward it, never past it. */
  lemma {:induction false} TickRamps(s: EscState, nowMs: u32, nowUs: u64, erpm: u32)
    requires Inv(s) && s.attached && !s.failsafe
    ensures var r := AfterTick(s, nowMs, nowUs, erpm);
      var dt := ElapsedU32(nowMs, s.lastRampMs);
      r.target == s.target && r.lastRampMs == nowMs
      && ((s.current <= r.current <= s.target) || (s.target <= r.current <= s.current))
      && AbsR(r.current - s.current) <= s.rate * (dt as real * 0.001)
      && (AbsR(s.target - s.current) <= s.rate * (dt as real * 0.001) ==> r.current == s.target)
  {
  }

  /** A command goes out, and telemetry is pulled, only once the send period
      has passed; the cache changes only on a positive eRPM reading. */
  lemma {:induction false} TickSendGate(s: EscState, nowMs: u32, nowUs: u64, erpm: u32)
    requires Inv(s)
    ensures var r := AfterTick(s, nowMs, nowUs, erpm);
      var due := s.attached && ElapsedUsLow32(nowUs, s.lastSendUs) >= ESC_SEND_PERIOD_US;
      (due ==> r.sent == s.sent + [PctToDshot(r.current)] && r.lastSendUs == nowUs)
      && (!due ==> r.sent == s.sent && r.lastSendUs == s.lastSendUs)
      && (due && erpm > 0 ==> r.lastErpmCached == erpm && r.telemetrySeen && r.lastRpmUpdateMs == nowMs)
      && (!(due && erpm > 0) ==> r.lastErpmCached == s.lastErpmCached
                                 && r.telemetrySeen == s.telemetrySeen
                                 && r.lastRpmUpdateMs == s.lastRpmUpdateMs)
  {
  }

  /** Straight after `clearFailsafe` (or `stopNow`) the next tick cannot
      latch, whatever the time and the eRPM reading. */
  lemma {:induction false} NoLatchAfterClear(s: EscState, clearMs: u32, nowMs: u32, nowUs: u64, erpm: u32)
    requires Inv(s)
    ensures !AfterTick(ClearedFailsafe(s, clearMs), nowMs, nowUs, erpm).failsafe
    ensures !AfterTick(AfterStopNow(s, clearMs), nowMs, nowUs, erpm).failsafe
  {
  }

  // ---- any sequence of operations -----------------------------------

  datatype EscOp =
    | SetTarget(pct: real, rampS: real)
    | Tick(nowMs: u32, nowUs: u64, erpm: u32)
    | StopNow(stopMs: u32)
    | ClearFailsafe(clearMs: u32)
    | SetPolePairs(pp: u8)

  function Apply(s: EscState, op: EscOp): (r: EscState)
    requires Inv(s)
    ensures Inv(r)
  {
    match op
    case SetTarget(pct, rampS) => SetTargetClamps(s, pct, rampS); AfterSetTarget(s, pct, rampS)
    case Tick(ms, us, e) => TickPreservesInv(s, ms, us, e); AfterTick(s, ms, us, e)
    case StopNow(ms) => StopNowResets(s, ms); AfterStopNow(s, ms)
    case ClearFailsafe(ms) => ClearedFailsafe(s, ms)
    case SetPolePairs(pp) => AfterSetPolePairs(s, pp)
  }

  function Run(s: EscState, ops: seq<EscOp>): (r: EscState)
    requires Inv(s)
    ensures Inv(r)
    decreases |ops|
  {
    if ops == [] then s else Run(Apply(s, ops[0]), ops[1..])
  }

  predicate Clears(op: EscOp) { op.StopNow? || op.ClearFailsafe? }

  /** Once latched, the failsafe survives every operation except an explicit
      clear (`clearFailsafe`, or `stopNow` which calls it). The throttle that
      was running when it latched is kept until the next tick with a driver
      attached, which forces it to zero, and it stays at zero from then on. */
  lemma {:induction false} LatchHoldsUntilCleared(s: EscState, ops: seq<EscOp>)
    requires Inv(s) && s.failsafe
    requires forall i :: 0 <= i < |ops| ==> !Clears(ops[i])
    ensures Run(s, ops).failsafe
    ensures (s.current == 0.0 || (s.attached && exists i :: 0 <= i < |ops| && ops[i].Tick?)) ==> Run(s, ops).current == 0.0
    ensures (forall i :: 0 <= i < |ops| ==> !ops[i].Tick?) ==> Run(s, ops).current == s.current
    decreases |ops|
  {
    if ops != [] {
      var s1 := Apply(s, ops[0]);
      if ops[0].Tick? && s.attached {
        TickWhileLatched(s, ops[0].nowMs, ops[0].nowUs, ops[0].erpm);
      }
      assert s1.failsafe && s1.attached == s.attached;
      assert ops[0].Tick? && s.attached ==> s1.current == 0.0;
      assert !ops[0].Tick? ==> s1.current == s.current;
      assert forall i :: 0 <= i < |ops[1..]| ==> !Clears(ops[1..][i]) by {
        forall i | 0 <= i < |ops[1..]| ensures !Clears(ops[1..][i]) {
          assert ops[1..][i] == ops[i + 1];
        }
      }
      LatchHoldsUntilCleared(s1, ops[1..]);
      if !ops[0].Tick? {
        if i :| 0 <= i < |ops| && ops[i].Tick? {
          assert ops[1..][i - 1] == ops[i];
        }
        if forall i :: 0 <= i < |ops| ==> !ops[i].Tick? {
          assert forall i :: 0 <= i < |ops[1..]| ==> !ops[1..][i].Tick? by {
            forall i | 0 <= i < |ops[1..]| ensures !ops[1..][i].Tick? {
              assert ops[1..][i] == ops[i + 1];
            }
          }
        }
      }
    }
  }

  // ---- the class -----------------------------------------------------

  class EscBdshot {
    var attached: bool
    var polePairs: u8
    var current: real
    var target: real
    var rate: real
    var lastRampMs: u32
    var lastSendUs: u64
    var lastRpmUpdateMs: u32
    var lastErpmCached: u32
    var telemetrySeen: bool
    var failsafe: bool
    var reason: FailsafeReason
    var sent: seq<nat>

    function Model(): EscState
      reads this
    {
      EscState(attached, polePairs, current, target, rate, lastRampMs, lastSendUs,
               lastRpmUpdateMs, lastErpmCached, telemetrySeen, failsafe, reason, sent)
    }

    ghost predicate Valid()
      reads this
    {
      Inv(Model())
    }

    constructor ()
      ensures Model() == Initial() && Valid()
    {
      attached, polePairs := false, DEFAULT_POLE_PAIRS;
      current, target, rate := 0.0, 0.0, INSTANT_RATE;
      lastRampMs, lastSendUs := 0, 0;
      lastRpmUpdateMs, lastErpmCached, telemetrySeen := 0, 0, false;
      failsafe, reason := false, Ok;
      sent := [];
    }

    method Begin(nowMs: u32, nowUs: u64)
      requires Valid()
      modifies this
      ensures Valid() && Model() == AfterBegin(old(Model()), nowMs, nowUs)
    {
      attached := true;
      current, target := 0.0, 0.0;
      rate := INSTANT_RATE;
      lastRampMs := nowMs;
      lastSendUs := nowUs;
      lastRpmUpdateMs := nowMs;
      lastErpmCached := 0;
      telemetrySeen := false;
      ClearFailsafe(nowMs);
    }

    method SetPolePairs(pp: u8)
      requires Valid()
      modifies this
      ensures Valid() && Model() == AfterSetPolePairs(old(Model()), pp)
    {
      polePairs := if pp == 0 then 1 else pp;
    }

    function PolePairs(): (pp: u8)
      reads this
      requires Valid()
      ensures pp >= 1
    {
      polePairs
    }

    method ClearFailsafe(nowMs: u32)
      requires Valid()
      modifies this
      ensures Valid() && Model() == ClearedFailsafe(old(Model()), nowMs)
    {
      failsafe := false;
      reason := Ok;
      telemetrySeen := false;
      lastErpmCached := 0;
      lastRpmUpdateMs := nowMs;
    }

    method StopNow(nowMs: u32)
      requires Valid()
      modifies this
      ensures Valid() && Model() == AfterStopNow(old(Model()), nowMs)
    {
      StopNowResets(Model(), nowMs);
      target := 0.0;
      current := 0.0;
      rate := INSTANT_RATE;
      ClearFailsafe(nowMs);
      ApplyThrottleInternal(0.0);
    }

    method SetTargetThrottlePct(pct: real, rampS: real)
      requires Valid()
      modifies this
      ensures Valid() && Model() == AfterSetTarget(old(Model()), pct, rampS)
    {
      target := Clamp(pct, 0.0, 100.0);
      if rampS <= 0.0 {
        rate := INSTANT_RATE;
      } else {
        rate := 100.0 / rampS;
      }
    }

    method ApplyThrottleInternal(pct: real)
      modifies this
      ensures Model() == Sent(old(Model()), pct)
    {
      if attached {
        sent := sent + [PctToDshot(pct)];
      }
    }

    method TickFast(nowMs: u32, nowUs: u64, erpmReading: u32)
      requires Valid()
      modifies this
      ensures Valid() && Model() == AfterTick(old(Model()), nowMs, nowUs, erpmReading)
    {
      if !attached {
        return;
      }
      TickPreservesInv(Model(), nowMs, nowUs, erpmReading);
      RampPhase(nowMs);
      SendPhase(nowMs, nowUs, erpmReading);
      LatchPhase(nowMs);
    }

    /** The ramp section of `tickFast`. */
    method RampPhase(nowMs: u32)
      requires rate >= 0.0
      modifies this
      ensures Model() == Ramped(old(Model()), nowMs)
    {
      if failsafe {
        target := 0.0;
        current := 0.0;
      } else {
        var dtMs := ElapsedU32(nowMs, lastRampMs);
        lastRampMs := nowMs;
        var dtS := dtMs as real * 0.001;
        var maxStep := rate * dtS;
        var err := target - current;
        ScaledNonNeg(rate, dtS);
        if AbsR(err) <= maxStep {
          current := target;
        } else {
          current := current + (if err > 0.0 then maxStep else -maxStep);
        }
      }
    }

    /** The send-and-pull section of `tickFast`. */
    method SendPhase(nowMs: u32, nowUs: u64, erpmReading: u32)
      modifies this
      ensures Model() == Pulled(old(Model()), nowMs, nowUs, erpmReading)
    {
      if ElapsedUsLow32(nowUs, lastSendUs) >= ESC_SEND_PERIOD_US {
        lastSendUs := nowUs;
        ApplyThrottleInternal(current);
        var erpm := erpmReading;
        if erpm > 0 {
          lastErpmCached := erpm;
          telemetrySeen := true;
          lastRpmUpdateMs := nowMs;
        }
      }
    }

    /** The failsafe section of `tickFast`. */
    method LatchPhase(nowMs: u32)
      modifies this
      ensures Model() == Latched(old(Model()), nowMs)
    {
      var ageMs := ElapsedU32(nowMs, lastRpmUpdateMs);
      if !failsafe && telemetrySeen && ageMs > TELEMETRY_TIMEOUT_MS && current > RUNNING_PCT {
        failsafe := true;
        reason := RpmTimeout;
      }
    }

    function GetTelemetry(nowMs: u32): (t: EscTelemetry)
      reads this
    {
      Telemetry(Model(), nowMs)
    }

    function CurrentThrottlePct(): (p: real)
      reads this
      requires Valid()
      ensures 0.0 <= p <= 100.0
    {
      current
    }

    function TargetThrottlePct(): (p: real)
      reads this
      requires Valid()
      ensures 0.0 <= p <= 100.0
    {
      target
    }

    function IsFailsafe(): (b: bool)
      reads this
      requires Valid()
      ensures b <==> reason == RpmTimeout
    {
      failsafe
    }

    function FailsafeReasonOf(): (why: FailsafeReason)
      reads this
      requires Valid()
      ensures why == RpmTimeout <==> failsafe
    {
      reason
    }
  }
}
