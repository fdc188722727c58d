/** The operator console (`CLI`): serial line assembly, the command
    dispatcher, the soft stop that ramps the motor down before disarming,
    and the CORE2 sequencer that chains two autotest runs with a gap.

    The console drives the ESC and the step-program runner, whose models it
    composes. Its own serial output is not modelled; what remains of it is
    the CSV-logging flag. The load-cell commands are returned as a request
    that the caller applies to the load-cell object. The clock is a
    parameter, and `strtof`/`strtol` are parameters too, each returning
    `None` when it converts no character. */
module CommandLine {
  import opened Common
  import opened Float32
  import Esc
  import Autotest
  import opened Tokenizer

  const LINE_MAX: nat := 200
  const DEFAULT_RAMP_S: real := 2.5
  const MIN_RAMP_S: real := 0.2
  const MAX_RAMP_S: real := 8.0
  const CUT_PCT: real := 0.8
  const STOP_TIMEOUT_MS: u32 := 6000
  const DEFAULT_GAP_S: u16 := 90
  const MAX_GAP_S: u16 := 600
  const THROTTLE_RAMP_S: real := 0.5
  const TRIM_SAMPLES: nat := 200
  const TRIM_PCT: nat := 20

  /** The CORE profile of `startAutotestCoreRun`: 13 steps with their own
      durations, ramped over 3 s. */
  const CORE_STEPS: seq<real> :=
    [0.0, 10.0, 20.0, 30.0, 40.0, 50.0, 60.0, 70.0, 80.0, 90.0, 100.0, 60.0, 0.0]
  const CORE_DURS: seq<real> :=
    [5.0, 20.0, 20.0, 20.0, 20.0, 20.0, 20.0, 30.0, 30.0, 30.0, 30.0, 20.0, 10.0]
  const CORE_N: i32 := 13
  const CORE_RAMP_S: real := 3.0

  datatype StopReason = StopCommand | AutotestStop

  /** A load-cell command the console has accepted. */
  datatype HxRequest =
    | NoRequest
    | Tare(samples: nat, trimPct: nat)
    | Calibrate(massG: Float)
    | CalTrim(massG: Float, samples: nat, trimPct: nat)
    | SaveCal
    | LoadCal
    | ResetCal

  /** The fields of `CLI` that its commands change. */
  datatype CliState = CliState(
    buf: string,
    armed: bool,
    csvOn: bool,
    atMode: u8,
    atSeqActive: bool,
    atSeqPhase: u8,
    atPhaseT0Ms: u32,
    atGapS: u16,
    stopActive: bool,
    stopT0Ms: u32,
    stopRampS: real,
    stopCutPct: real,
    stopTimeoutMs: u32,
    stopReason: StopReason)

  /** What every console operation keeps: a bounded buffer free of line
      ends, the mode in {0,1,2} and the phase in {0..3}, a sequence active
      exactly in phases 1 to 3 and only in CORE2 mode, the gap and the ramp
      inside their clamps, and the fixed cut level and timeout. */
  predicate Inv(c: CliState)
  {
    |c.buf| <= LINE_MAX && '\r' !in c.buf && '\n' !in c.buf
    && c.atMode <= 2 && c.atSeqPhase <= 3
    && (c.atSeqActive <==> c.atSeqPhase != 0)
    && (c.atSeqActive ==> c.atMode == 2)
    && c.atGapS <= MAX_GAP_S
    && MIN_RAMP_S <= c.stopRampS <= MAX_RAMP_S
    && c.stopCutPct == CUT_PCT && c.stopTimeoutMs == STOP_TIMEOUT_MS
  }

  /** The field initialisers of cli.h. */
  function Initial(): (c: CliState)
    ensures Inv(c)
    ensures c.buf == [] && !c.armed && !c.csvOn && c.atMode == 0
    ensures !c.atSeqActive && c.atSeqPhase == 0 && c.atGapS == DEFAULT_GAP_S
    ensures !c.stopActive && c.stopRampS == DEFAULT_RAMP_S
    ensures c.stopCutPct == CUT_PCT && c.stopTimeoutMs == STOP_TIMEOUT_MS
  {
    CliState([], false, false, 0, false, 0, 0, DEFAULT_GAP_S,
             false, 0, DEFAULT_RAMP_S, CUT_PCT, STOP_TIMEOUT_MS, StopCommand)
  }

  /** The console together with the two objects it drives. */
  datatype Sys = Sys(cli: CliState, esc: Esc.EscState, at: Autotest.AtState)

  predicate SysInv(s: Sys)
  {
    Inv(s.cli) && Esc.Inv(s.esc) && Autotest.Inv(s.at)
  }

  datatype Out = Out(sys: Sys, req: HxRequest)
  datatype Fed = Fed(sys: Sys, reqs: seq<HxRequest>)

  // ---- parsing --------------------------------------------------------

  /** `parseFloatSafe(s, NAN)`. */
  function ParseFloatSafe(strtof: string -> Option<Float>, t: string): Float
  {
    match strtof(t)
    case Some(v) => v
    case None => NaN
  }

  /** `parseLongSafe(s, def)`. */
  function ParseLongSafe(strtol: string -> Option<int>, t: string, def: int): int
  {
    match strtol(t)
    case Some(v) => v
    case None => def
  }

  /** `!(isnan(m) || m <= 0.0f)`: the masses `cal` and `caltrim` accept. */
  predicate PositiveMass(m: Float)
  {
    match m
    case Finite(r) => r > 0.0
    case Inf(negative) => !negative
    case NaN => false
  }

  /** The percentage `throttle` hands over: the ESC clamps it into [0,100]
      at once, so an infinite value acts as the nearer end. */
  function ThrottleArg(f: Float): (p: real)
    requires !f.NaN?
    ensures f.Finite? ==> p == f.r
    ensures f.Inf? ==> p == (if f.negative then 0.0 else 100.0)
  {
    match f
    case Finite(r) => r
    case Inf(negative) => if negative then 0.0 else 100.0
  }

  /** The bounds check of the CORE2 gap. */
  function ClampInt(x: int, lo: int, hi: int): (r: int)
    requires lo <= hi
    ensures lo <= r <= hi
    ensures lo <= x <= hi ==> r == x
    ensures x < lo ==> r == lo
    ensures x > hi ==> r == hi
  {
    if x < lo then lo else if x > hi then hi else x
  }

  // ---- the state changes ----------------------------------------------

  /** `beginSoftStop`: start the timer and ramp the target to 0 over the
      configured ramp time. */
  function AfterBeginSoftStop(s: Sys, why: StopReason, nowMs: u32): Sys
  {
    s.(cli := s.cli.(stopReason := why, stopActive := true, stopT0Ms := nowMs),
       esc := Esc.AfterSetTarget(s.esc, 0.0, s.cli.stopRampS))
  }

  /** `startAutotestCoreRun`: cancel a soft stop, log on, load the CORE profile. */
  function AfterCoreRun(s: Sys, nowMs: u32): Sys
  {
    s.(cli := s.cli.(stopActive := false, csvOn := true),
       at := Autotest.AfterStartProgram(CORE_STEPS, Some(CORE_DURS), CORE_N, CORE_RAMP_S, nowMs))
  }

  /** `serviceSoftStop`. */
  function AfterServiceSoftStop(s: Sys, nowMs: u32): Sys
  {
    if !s.cli.stopActive then s
    else if s.esc.current <= s.cli.stopCutPct
         || ElapsedU32(nowMs, s.cli.stopT0Ms) >= s.cli.stopTimeoutMs then
      s.(cli := s.cli.(stopActive := false, csvOn := false),
         esc := Esc.AfterStopNow(s.esc, nowMs))
    else s
  }

  /** `serviceAutotestSequence`. */
  function AfterServiceSequence(s: Sys, nowMs: u32): Sys
  {
    var c := s.cli;
    if c.atMode == 1 then
      if !s.at.active then s.(cli := c.(csvOn := false, atMode := 0)) else s
    else if c.atMode != 2 || !c.atSeqActive then s
    else if c.atSeqPhase == 1 then
      if !s.at.active then s.(cli := c.(csvOn := false, atSeqPhase := 2, atPhaseT0Ms := nowMs))
      else s
    else if c.atSeqPhase == 2 then
      if ElapsedU32(nowMs, c.atPhaseT0Ms) >= c.atGapS as int * 1000 then
        var r := AfterCoreRun(s, nowMs);
        r.(cli := r.cli.(atSeqPhase := 3, atPhaseT0Ms := nowMs))
      else s
    else if c.atSeqPhase == 3 then
      if !s.at.active then
        s.(cli := c.(csvOn := false, atSeqActive := false, atSeqPhase := 0, atMode := 0))
      else s
    else s
  }

  function AfterStopRamp(s: Sys, tok: seq<string>, strtof: string -> Option<Float>): Sys
  {
    if |tok| < 2 then s
    else match ParseFloatSafe(strtof, tok[1])
      case Finite(v) => s.(cli := s.cli.(stopRampS := Clamp(v, MIN_RAMP_S, MAX_RAMP_S)))
      case _ => s
  }

  function AfterLog(s: Sys, tok: seq<string>, strtol: string -> Option<int>): Sys
  {
    if |tok| < 2 then s
    else
      var v := ParseLongSafe(strtol, tok[1], -1);
      if v != 0 && v != 1 then s else s.(cli := s.cli.(csvOn := v == 1))
  }

  /** `cal` and `caltrim`: a request only for a positive mass. */
  function MassRequest(tok: seq<string>, strtof: string -> Option<Float>, trim: bool): HxRequest
  {
    if |tok| < 2 then NoRequest
    else
      var m := ParseFloatSafe(strtof, tok[1]);
      if !PositiveMass(m) then NoRequest
      else if trim then CalTrim(m, TRIM_SAMPLES, TRIM_PCT)
      else Calibrate(m)
  }

  /** `setmeta`: of the metadata only the pole-pair count reaches the
      model, truncated to 8 bits as the cast does. */
  function AfterSetMeta(s: Sys, tok: seq<string>, strtol: string -> Option<int>): Sys
  {
    if |tok| < 8 then s
    else s.(esc := Esc.AfterSetPolePairs(s.esc, ParseLongSafe(strtol, tok[7], 7) % 0x100))
  }

  function AfterStart(s: Sys, nowMs: u32): Sys
  {
    s.(cli := s.cli.(armed := true, stopActive := false),
       esc := Esc.ClearedFailsafe(s.esc, nowMs))
  }

  function AfterEstop(s: Sys, nowMs: u32): Sys
  {
    s.(cli := s.cli.(armed := false, atMode := 0, atSeqActive := false, atSeqPhase := 0,
                     stopActive := false, csvOn := false),
       at := Autotest.AfterStop(s.at),
       esc := Esc.AfterStopNow(s.esc, nowMs))
  }

  /** The sequence halt shared by STOP and AUTOTEST STOP. */
  function Halted(s: Sys): Sys
  {
    s.(cli := s.cli.(atMode := 0, atSeqActive := false, atSeqPhase := 0),
       at := Autotest.AfterStop(s.at))
  }

  function AfterStop(s: Sys, nowMs: u32): Sys
  {
    var r := Halted(s.(cli := s.cli.(armed := false)));
    if !s.cli.stopActive then AfterBeginSoftStop(r, StopCommand, nowMs) else r
  }

  function AfterAutotest(s: Sys, tok: seq<string>, nowMs: u32, strtol: string -> Option<int>): Sys
  {
    if !s.cli.armed || |tok| < 2 then s
    else
      var sub := Lower(tok[1]);
      if sub == "stop" then
        var r := Halted(s);
        if !s.cli.stopActive then AfterBeginSoftStop(r, AutotestStop, nowMs) else r
      else if sub == "core" then
        AfterCoreRun(s.(cli := s.cli.(atMode := 1, atSeqActive := false, atSeqPhase := 0)), nowMs)
      else if sub == "core2" then
        var gap := ClampInt(if |tok| >= 3 then ParseLongSafe(strtol, tok[2], DEFAULT_GAP_S) else DEFAULT_GAP_S,
                            0, MAX_GAP_S);
        AfterCoreRun(s.(cli := s.cli.(atMode := 2, atGapS := gap, atSeqActive := true,
                                      atSeqPhase := 1, atPhaseT0Ms := nowMs)), nowMs)
      else s
  }

  function AfterThrottle(s: Sys, tok: seq<string>, strtof: string -> Option<Float>): Sys
  {
    if |tok| < 2 then s
    else
      var pct := ParseFloatSafe(strtof, tok[1]);
      if pct.NaN? || !s.cli.armed then s
      else s.(cli := s.cli.(stopActive := false),
              esc := Esc.AfterSetTarget(s.esc, ThrottleArg(pct), THROTTLE_RAMP_S))
  }

  /** `handleLine` after the tokenizer. Commands that only print (help,
      status, i2cscan, unknown ones) change nothing. */
  function AfterTokens(s: Sys, tok: seq<string>, nowMs: u32,
                       strtof: string -> Option<Float>, strtol: string -> Option<int>): (o: Out)
    ensures o.req != NoRequest ==> o.sys == s
    ensures o.req.Calibrate? || o.req.CalTrim? ==> PositiveMass(o.req.massG)
    ensures o.sys.cli.buf == s.cli.buf
  {
    if |tok| == 0 then Out(s, NoRequest)
    else
      var cmd := Lower(tok[0]);
      if cmd == "stopramp" then Out(AfterStopRamp(s, tok, strtof), NoRequest)
      else if cmd == "log" then Out(AfterLog(s, tok, strtol), NoRequest)
      else if cmd == "tare" then Out(s, Tare(TRIM_SAMPLES, TRIM_PCT))
      else if cmd == "cal" then Out(s, MassRequest(tok, strtof, false))
      else if cmd == "caltrim" then Out(s, MassRequest(tok, strtof, true))
      else if cmd == "save" then Out(s, SaveCal)
      else if cmd == "load" then Out(s, LoadCal)
      else if cmd == "resetcal" then Out(s, ResetCal)
      else if cmd == "setmeta" then Out(AfterSetMeta(s, tok, strtol), NoRequest)
      else if cmd == "start" then Out(AfterStart(s, nowMs), NoRequest)
      else if cmd == "estop" then Out(AfterEstop(s, nowMs), NoRequest)
      else if cmd == "stop" then Out(AfterStop(s, nowMs), NoRequest)
      else if cmd == "autotest" then Out(AfterAutotest(s, tok, nowMs, strtol), NoRequest)
      else if cmd == "throttle" then Out(AfterThrottle(s, tok, strtof), NoRequest)
      else Out(s, NoRequest)
  }

  function AfterLine(s: Sys, line: string, nowMs: u32,
                     strtof: string -> Option<Float>, strtol: string -> Option<int>): Out
  {
    AfterTokens(s, Tokens(line), nowMs, strtof, strtol)
  }

  function Reqs(q: HxRequest): seq<HxRequest>
  {
    if q.NoRequest? then [] else [q]
  }

  /** One character of the serial input in `tick`. */
  function AfterChar(s: Sys, ch: char, nowMs: u32,
                     strtof: string -> Option<Float>, strtol: string -> Option<int>): Fed
  {
    if ch == '\r' then Fed(s, [])
    else if ch == '\n' then
      if |s.cli.buf| > 0 then
        var o := AfterLine(s, s.cli.buf, nowMs, strtof, strtol);
        Fed(o.sys.(cli := o.sys.cli.(buf := [])), Reqs(o.req))
      else Fed(s.(cli := s.cli.(buf := [])), [])
    else if |s.cli.buf| < LINE_MAX then Fed(s.(cli := s.cli.(buf := s.cli.buf + [ch])), [])
    else Fed(s, [])
  }

  /** The characters `cs`, first to last. */
  function Feed(s: Sys, cs: string, nowMs: u32,
                strtof: string -> Option<Float>, strtol: string -> Option<int>): Fed
    decreases |cs|
  {
    if |cs| == 0 then Fed(s, [])
    else
      var f := Feed(s, cs[..|cs| - 1], nowMs, strtof, strtol);
      var g := AfterChar(f.sys, cs[|cs| - 1], nowMs, strtof, strtol);
      Fed(g.sys, f.reqs + g.reqs)
  }

  /** `tick`: the input available now, then the sequencer, then the soft stop. */
  function AfterTick(s: Sys, input: string, nowMs: u32,
                     strtof: string -> Option<Float>, strtol: string -> Option<int>): Fed
  {
    var f := Feed(s, input, nowMs, strtof, strtol);
    Fed(AfterServiceSoftStop(AfterServiceSequence(f.sys, nowMs), nowMs), f.reqs)
  }

  // ---- properties -----------------------------------------------------

  lemma {:induction false} BeginSoftStopKeepsInv(s: Sys, why: StopReason, nowMs: u32)
    requires SysInv(s)
    ensures var r := AfterBeginSoftStop(s, why, nowMs);
      SysInv(r) && r.cli.stopActive && r.cli.stopT0Ms == nowMs
      && r.esc.target == 0.0 && r.esc.current == s.esc.current && r.at == s.at
  {
    Esc.SetTargetClamps(s.esc, 0.0, s.cli.stopRampS);
  }

  lemma {:induction false} CoreRunKeepsInv(s: Sys, nowMs: u32)
    requires SysInv(s)
    ensures var r := AfterCoreRun(s, nowMs);
      SysInv(r) && r.cli.csvOn && !r.cli.stopActive && r.at.active && r.esc == s.esc
      && r.at.count == 13 && r.at.listEn && r.at.stepId == 0
  {
    Autotest.StartProgramBegins(CORE_STEPS, Some(CORE_DURS), CORE_N, CORE_RAMP_S, nowMs);
  }

  /** The soft stop finishes exactly when it is active and either the
      throttle is down to the cut level or the timeout has run out; then
      the ESC is stopped (both percentages 0, no latch) and logging is off.
      Otherwise nothing changes. So 6000 ms after it began, the next
      service call ends it whatever the ramp did. */
  lemma {:induction false} SoftStopOutcome(s: Sys, nowMs: u32)
    requires SysInv(s)
    ensures var r := AfterServiceSoftStop(s, nowMs);
      SysInv(r)
      && ((s.cli.stopActive && !r.cli.stopActive) <==>
          (s.cli.stopActive && (s.esc.current <= CUT_PCT
                                || ElapsedU32(nowMs, s.cli.stopT0Ms) >= STOP_TIMEOUT_MS)))
      && (s.cli.stopActive && !r.cli.stopActive ==>
            r.esc == Esc.AfterStopNow(s.esc, nowMs)
            && r.esc.current == 0.0 && r.esc.target == 0.0 && !r.esc.failsafe
            && !r.cli.csvOn && r.at == s.at)
      && (!(s.cli.stopActive && !r.cli.stopActive) ==> r == s)
  {
    Esc.StopNowResets(s.esc, nowMs);
  }

  /** The phase machine of CORE2: phase 1 moves to 2 once the runner is
      idle, logging off; phase 2 moves to 3 once the gap has elapsed,
      starting the CORE profile again with logging on; phase 3 moves to 0
      once the runner is idle, logging off, mode 0. The single run (mode 1)
      ends the same way. Nothing else moves, and the ESC is never touched. */
  lemma {:induction false} SequencePhases(s: Sys, nowMs: u32)
    requires SysInv(s)
    ensures var r := AfterServiceSequence(s, nowMs);
      SysInv(r) && r.esc == s.esc
      && (s.cli.atMode == 1 ==>
            (if s.at.active then r == s
             else r.cli.atMode == 0 && !r.cli.csvOn && r.at == s.at))
      && (s.cli.atMode == 0 ==> r == s)
      && (s.cli.atMode == 2 && s.cli.atSeqPhase == 1 ==>
            (if s.at.active then r == s
             else r.cli.atSeqPhase == 2 && !r.cli.csvOn && r.cli.atPhaseT0Ms == nowMs && r.at == s.at))
      && (s.cli.atMode == 2 && s.cli.atSeqPhase == 2 ==>
            (if ElapsedU32(nowMs, s.cli.atPhaseT0Ms) < s.cli.atGapS as int * 1000 then r == s
             else r.cli.atSeqPhase == 3 && r.cli.csvOn && r.cli.atPhaseT0Ms == nowMs
                  && r.at == Autotest.AfterStartProgram(CORE_STEPS, Some(CORE_DURS), CORE_N, CORE_RAMP_S, nowMs)))
      && (s.cli.atMode == 2 && s.cli.atSeqPhase == 3 ==>
            (if s.at.active then r == s
             else r.cli.atSeqPhase == 0 && !r.cli.atSeqActive && r.cli.atMode == 0
                  && !r.cli.csvOn && r.at == s.at))
  {
    CoreRunKeepsInv(s, nowMs);
  }

  lemma {:induction false} StopKeepsInv(s: Sys, nowMs: u32)
    requires SysInv(s)
    ensures SysInv(AfterStop(s, nowMs)) && SysInv(Halted(s))
  {
    Autotest.StopIdles(s.at, nowMs);
    BeginSoftStopKeepsInv(Halted(s.(cli := s.cli.(armed := false))), StopCommand, nowMs);
    BeginSoftStopKeepsInv(Halted(s), AutotestStop, nowMs);
  }

  lemma {:induction false} AutotestKeepsInv(s: Sys, tok: seq<string>, nowMs: u32, strtol: string -> Option<int>)
    requires SysInv(s)
    ensures SysInv(AfterAutotest(s, tok, nowMs, strtol))
  {
    if s.cli.armed && |tok| >= 2 {
      var sub := Lower(tok[1]);
      if sub == "stop" {
        StopKeepsInv(s, nowMs);
      } else if sub == "core" {
        CoreRunKeepsInv(s.(cli := s.cli.(atMode := 1, atSeqActive := false, atSeqPhase := 0)), nowMs);
      } else if sub == "core2" {
        var gap := ClampInt(if |tok| >= 3 then ParseLongSafe(strtol, tok[2], DEFAULT_GAP_S) else DEFAULT_GAP_S,
                            0, MAX_GAP_S);
        CoreRunKeepsInv(s.(cli := s.cli.(atMode := 2, atGapS := gap, atSeqActive := true,
                                         atSeqPhase := 1, atPhaseT0Ms := nowMs)), nowMs);
      }
    }
  }

  lemma {:induction false} EscCommandsKeepInv(s: Sys, tok: seq<string>, nowMs: u32,
                                              strtof: string -> Option<Float>, strtol: string -> Option<int>)
    requires SysInv(s)
    ensures SysInv(AfterSetMeta(s, tok, strtol)) && SysInv(AfterStart(s, nowMs))
    ensures SysInv(AfterEstop(s, nowMs)) && SysInv(AfterThrottle(s, tok, strtof))
    ensures SysInv(AfterStopRamp(s, tok, strtof)) && SysInv(AfterLog(s, tok, strtol))
  {
    if |tok| >= 8 {
      Esc.SetPolePairsNeverZero(s.esc, ParseLongSafe(strtol, tok[7], 7) % 0x100);
    }
    Esc.StopNowResets(s.esc, nowMs);
    Autotest.StopIdles(s.at, nowMs);
    if |tok| >= 2 {
      var pct := ParseFloatSafe(strtof, tok[1]);
      if !pct.NaN? {
        Esc.SetTargetClamps(s.esc, ThrottleArg(pct), THROTTLE_RAMP_S);
      }
    }
  }

  lemma {:induction false} TokensKeepInv(s: Sys, tok: seq<string>, nowMs: u32,
                                         strtof: string -> Option<Float>, strtol: string -> Option<int>)
    requires SysInv(s)
    ensures SysInv(AfterTokens(s, tok, nowMs, strtof, strtol).sys)
  {
    if |tok| > 0 {
      EscCommandsKeepInv(s, tok, nowMs, strtof, strtol);
      StopKeepsInv(s, nowMs);
      AutotestKeepsInv(s, tok, nowMs, strtol);
    }
  }

  /** `stopramp` sets the ramp to the clamp of a finite argument into
      [0.2, 8] and changes nothing else; a missing or non-finite argument
      changes nothing at all. */
  lemma {:induction false} StopRampClamps(s: Sys, tok: seq<string>, nowMs: u32,
                                          strtof: string -> Option<Float>, strtol: string -> Option<int>)
    requires SysInv(s) && |tok| > 0 && Lower(tok[0]) == "stopramp"
    ensures var o := AfterTokens(s, tok, nowMs, strtof, strtol);
      o.req == NoRequest
      && (if |tok| >= 2 && ParseFloatSafe(strtof, tok[1]).Finite? then
            var v := ParseFloatSafe(strtof, tok[1]).r;
            o.sys == s.(cli := s.cli.(stopRampS := o.sys.cli.stopRampS))
            && MIN_RAMP_S <= o.sys.cli.stopRampS <= MAX_RAMP_S
            && (MIN_RAMP_S <= v <= MAX_RAMP_S ==> o.sys.cli.stopRampS == v)
            && (v < MIN_RAMP_S ==> o.sys.cli.stopRampS == MIN_RAMP_S)
            && (v > MAX_RAMP_S ==> o.sys.cli.stopRampS == MAX_RAMP_S)
          else o.sys == s)
  {
  }

  /** `autotest core2 [gap]` while armed: the gap is the argument (90 when
      absent or unparsable) clamped into [0, 600]; the sequence enters
      phase 1 with the CORE profile loaded and logging on. */
  lemma {:induction false} Core2Starts(s: Sys, tok: seq<string>, nowMs: u32,
                                       strtof: string -> Option<Float>, strtol: string -> Option<int>)
    requires SysInv(s) && s.cli.armed && |tok| >= 2
    requires Lower(tok[0]) == "autotest" && Lower(tok[1]) == "core2"
    ensures var r := AfterTokens(s, tok, nowMs, strtof, strtol).sys;
      var want := if |tok| >= 3 then ParseLongSafe(strtol, tok[2], DEFAULT_GAP_S) else DEFAULT_GAP_S;
      SysInv(r)
      && r.cli.atGapS as int == (if want < 0 then 0 else if want > MAX_GAP_S as int then MAX_GAP_S as int else want)
      && r.cli.atMode == 2 && r.cli.atSeqActive && r.cli.atSeqPhase == 1 && r.cli.atPhaseT0Ms == nowMs
      && r.cli.csvOn && !r.cli.stopActive && r.esc == s.esc
      && r.at == Autotest.AfterStartProgram(CORE_STEPS, Some(CORE_DURS), CORE_N, CORE_RAMP_S, nowMs)
  {
    TokensKeepInv(s, tok, nowMs, strtof, strtol);
  }

  /** ESTOP always converges to the same safe state, from any state:
      disarmed, no sequence, runner idle, soft stop cancelled, ESC stopped,
      logging off. */
  lemma {:induction false} EstopConverges(s: Sys, tok: seq<string>, nowMs: u32,
                                          strtof: string -> Option<Float>, strtol: string -> Option<int>)
    requires SysInv(s) && |tok| > 0 && Lower(tok[0]) == "estop"
    ensures var r := AfterTokens(s, tok, nowMs, strtof, strtol).sys;
      SysInv(r) && !r.cli.armed && r.cli.atMode == 0 && r.cli.atSeqPhase == 0 && !r.cli.atSeqActive
      && !r.at.active && !r.cli.stopActive && !r.cli.csvOn
      && r.esc == Esc.AfterStopNow(s.esc, nowMs)
      && r.esc.current == 0.0 && r.esc.target == 0.0 && !r.esc.failsafe
  {
    TokensKeepInv(s, tok, nowMs, strtof, strtol);
    Esc.StopNowResets(s.esc, nowMs);
  }

  /** STOP disarms and halts the sequence, and starts a soft stop only when
      none is running: a running one keeps its start time and its ramp. */
  lemma {:induction false} StopIsSoft(s: Sys, tok: seq<string>, nowMs: u32,
                                      strtof: string -> Option<Float>, strtol: string -> Option<int>)
    requires SysInv(s) && |tok| > 0 && Lower(tok[0]) == "stop"
    ensures var r := AfterTokens(s, tok, nowMs, strtof, strtol).sys;
      SysInv(r) && !r.cli.armed && r.cli.atMode == 0 && r.cli.atSeqPhase == 0
      && !r.at.active && r.cli.stopActive && r.cli.csvOn == s.cli.csvOn
      && r.esc.current == s.esc.current
      && (s.cli.stopActive ==> r.cli.stopT0Ms == s.cli.stopT0Ms && r.esc == s.esc
                               && r.cli.stopReason == s.cli.stopReason)
      && (!s.cli.stopActive ==> r.cli.stopT0Ms == nowMs && r.esc.target == 0.0
                                && r.cli.stopReason == StopCommand)
  {
    TokensKeepInv(s, tok, nowMs, strtof, strtol);
    BeginSoftStopKeepsInv(Halted(s.(cli := s.cli.(armed := false))), StopCommand, nowMs);
  }

  /** AUTOTEST STOP (while armed) halts the sequence the same way, keeps
      the arming, and does not restart a running soft stop either. */
  lemma {:induction false} AutotestStopIsSoft(s: Sys, tok: seq<string>, nowMs: u32,
                                              strtof: string -> Option<Float>, strtol: string -> Option<int>)
    requires SysInv(s) && s.cli.armed && |tok| >= 2
    requires Lower(tok[0]) == "autotest" && Lower(tok[1]) == "stop"
    ensures var r := AfterTokens(s, tok, nowMs, strtof, strtol).sys;
      SysInv(r) && r.cli.armed && r.cli.atMode == 0 && r.cli.atSeqPhase == 0
      && !r.at.active && r.cli.stopActive
      && (s.cli.stopActive ==> r.cli.stopT0Ms == s.cli.stopT0Ms && r.esc == s.esc)
      && (!s.cli.stopActive ==> r.cli.stopT0Ms == nowMs && r.esc.target == 0.0
                                && r.cli.stopReason == AutotestStop)
  {
    TokensKeepInv(s, tok, nowMs, strtof, strtol);
    BeginSoftStopKeepsInv(Halted(s), AutotestStop, nowMs);
  }

  /** THROTTLE and AUTOTEST do nothing at all while disarmed. */
  lemma {:induction false} RefusedWhenDisarmed(s: Sys, tok: seq<string>, nowMs: u32,
                                               strtof: string -> Option<Float>, strtol: string -> Option<int>)
    requires !s.cli.armed && |tok| > 0
    requires Lower(tok[0]) == "throttle" || Lower(tok[0]) == "autotest"
    ensures AfterTokens(s, tok, nowMs, strtof, strtol) == Out(s, NoRequest)
  {
  }

  /** An armed THROTTLE with a number cancels a soft stop and sets the
      target to the clamped percentage with the 0.5 s ramp. */
  lemma {:induction false} ThrottleSetsTarget(s: Sys, tok: seq<string>, nowMs: u32,
                                              strtof: string -> Option<Float>, strtol: string -> Option<int>)
    requires SysInv(s) && s.cli.armed && |tok| >= 2 && Lower(tok[0]) == "throttle"
    requires ParseFloatSafe(strtof, tok[1]).Finite?
    ensures var r := AfterTokens(s, tok, nowMs, strtof, strtol).sys;
      var p := ParseFloatSafe(strtof, tok[1]).r;
      SysInv(r) && !r.cli.stopActive && r.at == s.at
      && r.esc.target == Clamp(p, 0.0, 100.0) && r.esc.rate == 100.0 / THROTTLE_RAMP_S
      && r.esc.current == s.esc.current
  {
    Esc.SetTargetClamps(s.esc, ParseFloatSafe(strtof, tok[1]).r, THROTTLE_RAMP_S);
  }

  /** A character of input keeps the invariant: `\r` is never stored, `\n`
      never either, and the buffer stays within 200 characters. */
  lemma {:induction false} CharKeepsInv(s: Sys, ch: char, nowMs: u32,
                                        strtof: string -> Option<Float>, strtol: string -> Option<int>)
    requires SysInv(s)
    ensures SysInv(AfterChar(s, ch, nowMs, strtof, strtol).sys)
  {
    if ch == '\n' && |s.cli.buf| > 0 {
      TokensKeepInv(s, Tokens(s.cli.buf), nowMs, strtof, strtol);
    }
  }

  lemma {:induction false} FeedKeepsInv(s: Sys, cs: string, nowMs: u32,
                                        strtof: string -> Option<Float>, strtol: string -> Option<int>)
    requires SysInv(s)
    ensures SysInv(Feed(s, cs, nowMs, strtof, strtol).sys)
    decreases |cs|
  {
    if |cs| > 0 {
      FeedKeepsInv(s, cs[..|cs| - 1], nowMs, strtof, strtol);
      CharKeepsInv(Feed(s, cs[..|cs| - 1], nowMs, strtof, strtol).sys, cs[|cs| - 1], nowMs, strtof, strtol);
    }
  }

  /** Every `tick` keeps the invariant of the console, the ESC and the runner. */
  lemma {:induction false} TickKeepsInv(s: Sys, input: string, nowMs: u32,
                                        strtof: string -> Option<Float>, strtol: string -> Option<int>)
    requires SysInv(s)
    ensures SysInv(AfterTick(s, input, nowMs, strtof, strtol).sys)
  {
    FeedKeepsInv(s, input, nowMs, strtof, strtol);
    var f := Feed(s, input, nowMs, strtof, strtol);
    SequencePhases(f.sys, nowMs);
    SoftStopOutcome(AfterServiceSequence(f.sys, nowMs), nowMs);
  }

  /** `s` without its `\r` characters. */
  function NoCR(s: string): string
  {
    if |s| == 0 then [] else NoCR(s[..|s| - 1]) + (if s[|s| - 1] == '\r' then [] else [s[|s| - 1]])
  }

  function Take(s: string, n: nat): string
  {
    if |s| <= n then s else s[..n]
  }

  /** Characters before a line end only grow the buffer: the `\r`s are
      dropped and whatever exceeds 200 characters is lost. */
  lemma {:induction false} FeedWithoutNewline(s: Sys, cs: string, nowMs: u32,
                                              strtof: string -> Option<Float>, strtol: string -> Option<int>)
    requires |s.cli.buf| <= LINE_MAX && '\n' !in cs
    ensures Feed(s, cs, nowMs, strtof, strtol)
            == Fed(s.(cli := s.cli.(buf := Take(s.cli.buf + NoCR(cs), LINE_MAX))), [])
    decreases |cs|
  {
    if |cs| == 0 {
      assert s.cli.buf + NoCR(cs) == s.cli.buf;
      assert s.(cli := s.cli.(buf := s.cli.buf)) == s;
    } else {
      var init := cs[..|cs| - 1];
      var ch := cs[|cs| - 1];
      assert '\n' !in init by {
        forall k | 0 <= k < |init| ensures init[k] != '\n' {
          assert init[k] == cs[k];
        }
      }
      FeedWithoutNewline(s, init, nowMs, strtof, strtol);
      var b := s.cli.buf + NoCR(init);
      assert s.cli.buf + NoCR(cs) == b + (if ch == '\r' then [] else [ch]);
      if ch != '\r' && |Take(b, LINE_MAX)| < LINE_MAX {
        assert Take(b, LINE_MAX) + [ch] == Take(b + [ch], LINE_MAX);
      } else if ch != '\r' {
        assert Take(b + [ch], LINE_MAX) == Take(b, LINE_MAX);
      }
    }
  }

  /** A line of at most 200 characters (not counting `\r`) typed into an
      empty buffer and ended by `\n` is dispatched exactly once, without
      its `\r`s, and leaves the buffer empty; an empty line dispatches
      nothing. */
  lemma {:induction false} LineDispatched(s: Sys, w: string, nowMs: u32,
                                          strtof: string -> Option<Float>, strtol: string -> Option<int>)
    requires s.cli.buf == [] && '\n' !in w && |NoCR(w)| <= LINE_MAX
    ensures var f := Feed(s, w + ['\n'], nowMs, strtof, strtol);
      if |NoCR(w)| == 0 then f == Fed(s, [])
      else
        var o := AfterLine(s.(cli := s.cli.(buf := NoCR(w))), NoCR(w), nowMs, strtof, strtol);
        f == Fed(o.sys.(cli := o.sys.cli.(buf := [])), Reqs(o.req))
  {
    FeedWithoutNewline(s, w, nowMs, strtof, strtol);
    assert (w + ['\n'])[..|w|] == w;
    assert [] + NoCR(w) == NoCR(w);
    if |NoCR(w)| == 0 {
      assert s.(cli := s.cli.(buf := [])) == s;
    }
  }

  // ---- the class -------------------------------------------------------

  class Cli {
    var buf: string
    var armed: bool
    var csvOn: bool
    var atMode: u8
    var atSeqActive: bool
    var atSeqPhase: u8
    var atPhaseT0Ms: u32
    var atGapS: u16
    var stopActive: bool
    var stopT0Ms: u32
    var stopRampS: real
    var stopCutPct: real
    var stopTimeoutMs: u32
    var stopReason: StopReason
    const esc: Esc.EscBdshot
    const at: Autotest.AutoTest

    function Model(): CliState
      reads this
    {
      CliState(buf, armed, csvOn, atMode, atSeqActive, atSeqPhase, atPhaseT0Ms, atGapS,
               stopActive, stopT0Ms, stopRampS, stopCutPct, stopTimeoutMs, stopReason)
    }

    /** The console and the two objects it is bound to. */
    function State(): Sys
      reads this, esc, at, at.stepsPct, at.stepTimeList
    {
      Sys(Model(), esc.Model(), at.Model())
    }

    ghost predicate Valid()
      reads this, esc, at, at.stepsPct, at.stepTimeList
    {
      Inv(Model()) && esc.Valid() && at.Valid()
    }

    /** The field initialisers and `bind`. */
    constructor (esc0: Esc.EscBdshot, at0: Autotest.AutoTest)
      requires esc0.Valid() && at0.Valid()
      ensures Valid() && Model() == Initial() && esc == esc0 && at == at0
    {
      buf, armed, csvOn := [], false, false;
      atMode, atSeqActive, atSeqPhase, atPhaseT0Ms, atGapS := 0, false, 0, 0, DEFAULT_GAP_S;
      stopActive, stopT0Ms := false, 0;
      stopRampS, stopCutPct, stopTimeoutMs := DEFAULT_RAMP_S, CUT_PCT, STOP_TIMEOUT_MS;
      stopReason := StopCommand;
      esc, at := esc0, at0;
    }

    function CsvOn(): (b: bool)
      reads this
    {
      csvOn
    }

    function Armed(): (b: bool)
      reads this
    {
      armed
    }

    method BeginSoftStop(why: StopReason, nowMs: u32)
      requires Valid()
      modifies this, esc
      ensures Valid() && State() == AfterBeginSoftStop(old(State()), why, nowMs)
    {
      stopReason := why;
      stopActive := true;
      stopT0Ms := nowMs;
      esc.SetTargetThrottlePct(0.0, stopRampS);
    }

    method StartAutotestCoreRun(nowMs: u32)
      requires Valid()
      modifies this, at, at.stepsPct, at.stepTimeList
      ensures Valid() && State() == AfterCoreRun(old(State()), nowMs)
    {
      stopActive := false;
      csvOn := true;
      at.StartProgram(CORE_STEPS, Some(CORE_DURS), CORE_N, CORE_RAMP_S, nowMs);
    }

    method ServiceSoftStop(nowMs: u32)
      requires Valid()
      modifies this, esc
      ensures Valid() && State() == AfterServiceSoftStop(old(State()), nowMs)
    {
      if !stopActive {
        return;
      }
      var age := ElapsedU32(nowMs, stopT0Ms);
      var cur := esc.CurrentThrottlePct();
      var lowEnough := cur <= stopCutPct;
      var timedOut := age >= stopTimeoutMs;
      if lowEnough || timedOut {
        esc.StopNow(nowMs);
        stopActive := false;
        csvOn := false;
      }
    }

    method ServiceAutotestSequence(nowMs: u32)
      requires Valid()
      modifies this, at, at.stepsPct, at.stepTimeList
      ensures Valid() && State() == AfterServiceSequence(old(State()), nowMs)
    {
      if atMode == 1 {
        if !at.IsActive() {
          csvOn := false;
          atMode := 0;
        }
        return;
      }
      if atMode != 2 || !atSeqActive {
        return;
      }
      var age := ElapsedU32(nowMs, atPhaseT0Ms);
      if atSeqPhase == 1 {
        if !at.IsActive() {
          csvOn := false;
          atSeqPhase := 2;
          atPhaseT0Ms := nowMs;
        }
        return;
      }
      if atSeqPhase == 2 {
        if age >= atGapS as int * 1000 {
          StartAutotestCoreRun(nowMs);
          atSeqPhase := 3;
          atPhaseT0Ms := nowMs;
        }
        return;
      }
      if atSeqPhase == 3 {
        if !at.IsActive() {
          csvOn := false;
          atSeqActive := false;
          atSeqPhase := 0;
          atMode := 0;
        }
        return;
      }
    }

    method StopRamp(tok: seq<string>, strtof: string -> Option<Float>)
      requires Valid()
      modifies this
      ensures Valid() && State() == AfterStopRamp(old(State()), tok, strtof)
    {
      if |tok| < 2 {
        return;
      }
      var f := ParseFloatSafe(strtof, tok[1]);
      if !f.Finite? {
        return;
      }
      var v := f.r;
      if v < MIN_RAMP_S {
        v := MIN_RAMP_S;
      }
      if v > MAX_RAMP_S {
        v := MAX_RAMP_S;
      }
      stopRampS := v;
    }

    method Log(tok: seq<string>, strtol: string -> Option<int>)
      requires Valid()
      modifies this
      ensures Valid() && State() == AfterLog(old(State()), tok, strtol)
    {
      if |tok| < 2 {
        return;
      }
      var v := ParseLongSafe(strtol, tok[1], -1);
      if v != 0 && v != 1 {
        return;
      }
      csvOn := v == 1;
    }

    method SetMeta(tok: seq<string>, strtol: string -> Option<int>)
      requires Valid()
      modifies esc
      ensures Valid() && State() == AfterSetMeta(old(State()), tok, strtol)
    {
      if |tok| < 8 {
        return;
      }
      var pp := ParseLongSafe(strtol, tok[7], 7) % 0x100;
      esc.SetPolePairs(pp);
    }

    method Start(nowMs: u32)
      requires Valid()
      modifies this, esc
      ensures Valid() && State() == AfterStart(old(State()), nowMs)
    {
      armed := true;
      stopActive := false;
      esc.ClearFailsafe(nowMs);
    }

    /** The sequence halt of STOP, ESTOP and AUTOTEST STOP. */
    method HaltSequence()
      requires Valid()
      modifies this, at
      ensures Valid() && State() == Halted(old(State()))
    {
      atMode := 0;
      atSeqActive := false;
      atSeqPhase := 0;
      at.Stop();
    }

    method Estop(nowMs: u32)
      requires Valid()
      modifies this, esc, at
      ensures Valid() && State() == AfterEstop(old(State()), nowMs)
    {
      armed := false;
      HaltSequence();
      stopActive := false;
      esc.StopNow(nowMs);
      csvOn := false;
    }

    method Stop(nowMs: u32)
      requires Valid()
      modifies this, esc, at
      ensures Valid() && State() == AfterStop(old(State()), nowMs)
    {
      armed := false;
      HaltSequence();
      if !stopActive {
        BeginSoftStop(StopCommand, nowMs);
      }
    }

    method AutotestCommand(tok: seq<string>, nowMs: u32, strtol: string -> Option<int>)
      requires Valid()
      modifies this, esc, at, at.stepsPct, at.stepTimeList
      ensures Valid() && State() == AfterAutotest(old(State()), tok, nowMs, strtol)
    {
      if !armed || |tok| < 2 {
        return;
      }
      var sub := Lower(tok[1]);
      if sub == "stop" {
        AutotestStopCommand(nowMs);
      } else if sub == "core" {
        AutotestCoreCommand(nowMs);
      } else if sub == "core2" {
        AutotestCore2Command(tok, nowMs, strtol);
      }
    }

    method AutotestStopCommand(nowMs: u32)
      requires Valid()
      modifies this, esc, at
      ensures Valid()
      ensures State() == (var r := Halted(old(State()));
                          if !old(stopActive) then AfterBeginSoftStop(r, AutotestStop, nowMs) else r)
    {
      HaltSequence();
      if !stopActive {
        BeginSoftStop(AutotestStop, nowMs);
      }
    }

    method AutotestCoreCommand(nowMs: u32)
      requires Valid()
      modifies this, at, at.stepsPct, at.stepTimeList
      ensures Valid()
      ensures State() == AfterCoreRun(old(State()).(cli := old(Model()).(atMode := 1, atSeqActive := false, atSeqPhase := 0)), nowMs)
    {
      atMode := 1;
      atSeqActive := false;
      atSeqPhase := 0;
      StartAutotestCoreRun(nowMs);
    }

    method AutotestCore2Command(tok: seq<string>, nowMs: u32, strtol: string -> Option<int>)
      requires Valid()
      modifies this, at, at.stepsPct, at.stepTimeList
      ensures Valid()
      ensures State() == AfterCoreRun(
        old(State()).(cli := old(Model()).(
          atMode := 2,
          atGapS := ClampInt(if |tok| >= 3 then ParseLongSafe(strtol, tok[2], DEFAULT_GAP_S) else DEFAULT_GAP_S,
                             0, MAX_GAP_S),
          atSeqActive := true, atSeqPhase := 1, atPhaseT0Ms := nowMs)), nowMs)
    {
      var gap: int := DEFAULT_GAP_S;
      if |tok| >= 3 {
        gap := ParseLongSafe(strtol, tok[2], DEFAULT_GAP_S);
      }
      if gap < 0 {
        gap := 0;
      }
      if gap > MAX_GAP_S {
        gap := MAX_GAP_S;
      }
      atMode, atGapS, atSeqActive, atSeqPhase, atPhaseT0Ms := 2, gap, true, 1, nowMs;
      assert gap == ClampInt(if |tok| >= 3 then ParseLongSafe(strtol, tok[2], DEFAULT_GAP_S) else DEFAULT_GAP_S, 0, MAX_GAP_S);
      assert Model() == old(Model()).(atMode := 2, atGapS := gap, atSeqActive := true, atSeqPhase := 1, atPhaseT0Ms := nowMs);
      assert State() == old(State()).(cli := Model());
      StartAutotestCoreRun(nowMs);
    }

    method Throttle(tok: seq<string>, strtof: string -> Option<Float>)
      requires Valid()
      modifies this, esc
      ensures Valid() && State() == AfterThrottle(old(State()), tok, strtof)
    {
      if |tok| < 2 {
        return;
      }
      var pct := ParseFloatSafe(strtof, tok[1]);
      if pct.NaN? {
        return;
      }
      if !armed {
        return;
      }
      stopActive := false;
      esc.SetTargetThrottlePct(ThrottleArg(pct), THROTTLE_RAMP_S);
    }

    method HandleLine(line: string, nowMs: u32,
                      strtof: string -> Option<Float>, strtol: string -> Option<int>)
      returns (req: HxRequest)
      requires Valid()
      modifies this, esc, at, at.stepsPct, at.stepTimeList
      ensures Valid()
      ensures State() == AfterLine(old(State()), line, nowMs, strtof, strtol).sys
      ensures req == AfterLine(old(State()), line, nowMs, strtof, strtol).req
    {
      var tok := Tokenize(line);
      req := NoRequest;
      if |tok| == 0 {
        return;
      }
      var cmd := Lower(tok[0]);
      if cmd == "stopramp" {
        StopRamp(tok, strtof);
      } else if cmd == "log" {
        Log(tok, strtol);
      } else if cmd == "tare" {
        req := Tare(TRIM_SAMPLES, TRIM_PCT);
      } else if cmd == "cal" {
        req := MassRequest(tok, strtof, false);
      } else if cmd == "caltrim" {
        req := MassRequest(tok, strtof, true);
      } else if cmd == "save" {
        req := SaveCal;
      } else if cmd == "load" {
        req := LoadCal;
      } else if cmd == "resetcal" {
        req := ResetCal;
      } else if cmd == "setmeta" {
        SetMeta(tok, strtol);
      } else if cmd == "start" {
        Start(nowMs);
      } else if cmd == "estop" {
        Estop(nowMs);
      } else if cmd == "stop" {
        Stop(nowMs);
      } else if cmd == "autotest" {
        AutotestCommand(tok, nowMs, strtol);
      } else if cmd == "throttle" {
        Throttle(tok, strtof);
      }
    }

    /** One character of the loop in `tick`. */
    method Receive(ch: char, nowMs: u32,
                   strtof: string -> Option<Float>, strtol: string -> Option<int>)
      returns (q: seq<HxRequest>)
      requires Valid()
      modifies this, esc, at, at.stepsPct, at.stepTimeList
      ensures Valid()
      ensures Fed(State(), q) == AfterChar(old(State()), ch, nowMs, strtof, strtol)
    {
      q := [];
      if ch == '\r' {
        return;
      }
      if ch == '\n' {
        if |buf| > 0 {
          var req := HandleLine(buf, nowMs, strtof, strtol);
          q := Reqs(req);
        }
        buf := [];
      } else if |buf| < LINE_MAX {
        buf := buf + [ch];
      }
    }

    /** `tick`, with `input` the characters available on the serial port. */
    method Tick(input: string, nowMs: u32,
                strtof: string -> Option<Float>, strtol: string -> Option<int>)
      returns (reqs: seq<HxRequest>)
      requires Valid()
      modifies this, esc, at, at.stepsPct, at.stepTimeList
      ensures Valid()
      ensures State() == AfterTick(old(State()), input, nowMs, strtof, strtol).sys
      ensures reqs == AfterTick(old(State()), input, nowMs, strtof, strtol).reqs
    {
      ghost var s0 := State();
      reqs := [];
      var i := 0;
      while i < |input|
        invariant 0 <= i <= |input|
        invariant Valid()
        invariant Fed(State(), reqs) == Feed(s0, input[..i], nowMs, strtof, strtol)
      {
        var q := Receive(input[i], nowMs, strtof, strtol);
        reqs := reqs + q;
        assert input[..i + 1][..i] == input[..i];
        i := i + 1;
      }
      assert input[..i] == input;
      ServiceAutotestSequence(nowMs);
      ServiceSoftStop(nowMs);
    }
  }
}
