/** The step-program runner (`AutoTest`): a list of throttle steps, each
    held for a uniform or per-step time, fed to the ESC one tick at a time.

    The millisecond clock is a parameter of the operations that read it; a
    single reading per call stands for the source's two reads in `tick`. */
module Autotest {
  import opened Common
  import Esc

  const MAX_STEPS: nat := 32

  /** `AutoTestState`; `steps` and `times` are the two 32-slot tables. */
  datatype AtState = AtState(
    active: bool,
    stepId: int,
    stepTimeS: real,
    rampS: real,
    stepStartMs: u32,
    steady: bool,
    count: int,
    steps: seq<real>,
    listEn: bool,
    times: seq<real>)

  function Zeros(): (z: seq<real>)
    ensures |z| == MAX_STEPS
  {
    seq(MAX_STEPS, _ => 0.0)
  }

  /** `AutoTestState{}`: the value-initialised struct. */
  function Cleared(): (s: AtState)
    ensures !s.active && s.stepId == -1 && s.count == 0
  {
    AtState(false, -1, 0.0, 0.0, 0, false, 0, Zeros(), false, Zeros())
  }

  /** `n` capped at `MAX_STEPS`; a negative `n` stays negative. */
  function CapCount(n: i32): (c: int)
    ensures c <= MAX_STEPS && c <= n
    ensures n <= MAX_STEPS ==> c == n
  {
    if n > MAX_STEPS as int then MAX_STEPS else n
  }

  /** A 32-slot table whose first `c` slots are copied from `src`, the rest zero. */
  function Loaded(src: seq<real>, c: int): (t: seq<real>)
    ensures |t| == MAX_STEPS
  {
    seq(MAX_STEPS, i => if 0 <= i < c && i < |src| then src[i] else 0.0)
  }

  /** While running the step index addresses a table slot: it is below the
      count, or 0 for an empty program; when idle it is -1. */
  predicate Inv(s: AtState)
  {
    |s.steps| == MAX_STEPS && |s.times| == MAX_STEPS && s.count <= MAX_STEPS
    && (s.active ==> 0 <= s.stepId && (s.stepId < s.count || s.stepId == 0))
    && (!s.active ==> s.stepId == -1)
  }

  /** `start`: `n` steps of one duration each. */
  function AfterStart(steps: seq<real>, n: i32, stepTimeS: real, rampS: real, nowMs: u32): (r: AtState)
    requires CapCount(n) <= |steps|
  {
    var c := CapCount(n);
    Cleared().(active := true, stepTimeS := stepTimeS, rampS := rampS, listEn := false,
               count := c, steps := Loaded(steps, c),
               stepId := 0, stepStartMs := nowMs, steady := false)
  }

  /** `startProgram`: a duration per step when `times` is given; with a
      null list every duration reads as 0. */
  function AfterStartProgram(steps: seq<real>, times: Option<seq<real>>, n: i32, rampS: real, nowMs: u32): (r: AtState)
    requires CapCount(n) <= |steps|
    requires times.Some? ==> CapCount(n) <= |times.value|
  {
    var c := CapCount(n);
    Cleared().(active := true, rampS := rampS, count := c, steps := Loaded(steps, c),
               times := if times.Some? then Loaded(times.value, c) else Zeros(),
               listEn := times.Some?,
               stepId := 0, stepStartMs := nowMs, steady := false)
  }

  function AfterStop(s: AtState): (r: AtState)
  {
    s.(active := false, stepId := -1)
  }

  /** `stepTimeS`; `None` stands for NAN. */
  function StepTime(s: AtState): (t: Option<real>)
    requires Inv(s)
    ensures t.Some? <==> s.active && s.stepId < s.count
    ensures t.Some? ==> t.value == (if s.listEn then s.times[s.stepId] else s.stepTimeS)
  {
    if !s.active || s.stepId < 0 || s.stepId >= s.count then None
    else if s.listEn then Some(s.times[s.stepId])
    else Some(s.stepTimeS)
  }

  /** The step duration `tick` uses, in seconds. */
  function StepSeconds(s: AtState): real
    requires Inv(s) && s.active
  {
    if s.listEn then s.times[s.stepId] else s.stepTimeS
  }

  /** The duration of the current step in whole milliseconds, as the
      float-to-unsigned conversion in `tick` gives it. */
  function StepDueMs(s: AtState): u32
    requires Inv(s) && s.active
  {
    TruncToU32(StepSeconds(s) * 1000.0)
  }

  /** The new state of a tick, and the throttle targets it hands to the ESC,
      in order (each with the program's ramp time). */
  datatype TickOut = TickOut(next: AtState, targets: seq<real>)

  function AtTick(s: AtState, nowMs: u32): (r: TickOut)
    requires Inv(s)
  {
    if !s.active then TickOut(s, [])
    else
      var elapsed := ElapsedU32(nowMs, s.stepStartMs);
      var s1 := s.(steady := elapsed >= TruncToU32(s.rampS * 1000.0));
      var pct := s.steps[s.stepId];
      if elapsed >= StepDueMs(s) then
        if s.stepId + 1 >= s.count then TickOut(s1.(active := false, stepId := -1), [pct, 0.0])
        else TickOut(s1.(stepId := s.stepId + 1, stepStartMs := nowMs), [pct])
      else TickOut(s1, [pct])
  }

  /** The ESC after `setTargetThrottlePct(p, rampS)` for each `p` in turn. */
  function ApplyTargets(e: Esc.EscState, pcts: seq<real>, rampS: real): (r: Esc.EscState)
    decreases |pcts|
  {
    if pcts == [] then e else ApplyTargets(Esc.AfterSetTarget(e, pcts[0], rampS), pcts[1..], rampS)
  }

  lemma ApplyOne(e: Esc.EscState, p: real, rampS: real)
    ensures ApplyTargets(e, [p], rampS) == Esc.AfterSetTarget(e, p, rampS)
  {
    assert [p][1..] == [];
  }

  lemma ApplyTwo(e: Esc.EscState, p: real, q: real, rampS: real)
    ensures ApplyTargets(e, [p, q], rampS) == Esc.AfterSetTarget(Esc.AfterSetTarget(e, p, rampS), q, rampS)
  {
    assert [p, q][1..] == [q];
    ApplyOne(Esc.AfterSetTarget(e, p, rampS), q, rampS);
  }

  // ---- properties ----------------------------------------------------

  /** `start` runs step 0 of at most 32 copied steps, with the uniform time. */
  lemma {:induction false} StartBegins(steps: seq<real>, n: i32, stepTimeS: real, rampS: real, nowMs: u32)
    requires CapCount(n) <= |steps|
    ensures var r := AfterStart(steps, n, stepTimeS, rampS, nowMs);
      Inv(r) && r.active && r.stepId == 0 && !r.steady && r.stepStartMs == nowMs
      && r.count == (if n > 32 then 32 else n)
      && (forall i :: 0 <= i < r.count ==> r.steps[i] == steps[i])
      && (forall i :: 0 <= i < MAX_STEPS && r.count <= i ==> r.steps[i] == 0.0)
      && StepTime(r) == (if n > 0 then Some(stepTimeS) else None)
  {
  }

  /** `startProgram` copies the per-step times too, and step 0 runs for the
      first of them; without a list every step time reads as 0. */
  lemma {:induction false} StartProgramBegins(steps: seq<real>, times: Option<seq<real>>, n: i32, rampS: real, nowMs: u32)
    requires CapCount(n) <= |steps|
    requires times.Some? ==> CapCount(n) <= |times.value|
    ensures var r := AfterStartProgram(steps, times, n, rampS, nowMs);
      Inv(r) && r.active && r.stepId == 0 && r.listEn == times.Some?
      && (forall i :: 0 <= i < r.count ==> r.steps[i] == steps[i])
      && (times.Some? ==> forall i :: 0 <= i < r.count ==> r.times[i] == times.value[i])
      && StepTime(r) == (if n <= 0 then None else if times.Some? then Some(times.value[0]) else Some(0.0))
  {
  }

  lemma {:induction false} StopIdles(s: AtState, nowMs: u32)
    requires Inv(s)
    ensures var r := AfterStop(s);
      Inv(r) && !r.active && StepTime(r).None? && AtTick(r, nowMs) == TickOut(r, [])
  {
  }

  lemma {:induction false} TickPreservesInv(s: AtState, nowMs: u32)
    requires Inv(s)
    ensures Inv(AtTick(s, nowMs).next)
  {
  }

  /** A running tick first commands the current step's throttle; it moves
      on by exactly one step once that step's time has elapsed, and after
      the last step it stops the program and commands 0 %. Nothing else in
      the tables or the ramp time changes. */
  lemma {:induction false} TickStepsInOrder(s: AtState, nowMs: u32)
    requires Inv(s) && s.active
    ensures var r := AtTick(s, nowMs);
      var elapsed := ElapsedU32(nowMs, s.stepStartMs);
      |r.targets| >= 1 && r.targets[0] == s.steps[s.stepId]
      && r.next.steps == s.steps && r.next.times == s.times && r.next.rampS == s.rampS
      && r.next.count == s.count
      && (r.next.steady <==> elapsed >= TruncToU32(s.rampS * 1000.0))
      && (elapsed < StepDueMs(s) ==> r.next.active && r.next.stepId == s.stepId && r.targets == [s.steps[s.stepId]])
      && (elapsed >= StepDueMs(s) && s.stepId + 1 < s.count ==>
            r.next.active && r.next.stepId == s.stepId + 1 && r.next.stepStartMs == nowMs)
      && (!r.next.active <==> elapsed >= StepDueMs(s) && s.stepId + 1 >= s.count)
      && (!r.next.active ==> r.targets == [s.steps[s.stepId], 0.0])
  {
  }

  /** The tick that ends a program leaves the ESC targeting 0 %. */
  lemma {:induction false} FinishStopsThrottle(s: AtState, nowMs: u32, e: Esc.EscState)
    requires Inv(s) && s.active && Esc.Inv(e)
    requires !AtTick(s, nowMs).next.active
    ensures var e1 := ApplyTargets(e, AtTick(s, nowMs).targets, s.rampS);
      Esc.Inv(e1) && e1.target == 0.0 && e1.current == e.current
  {
    var r := AtTick(s, nowMs);
    assert r.targets == [s.steps[s.stepId], 0.0];
    var e0 := Esc.AfterSetTarget(e, s.steps[s.stepId], s.rampS);
    Esc.SetTargetClamps(e, s.steps[s.stepId], s.rampS);
    Esc.SetTargetClamps(e0, 0.0, s.rampS);
    assert r.targets[1..] == [0.0];
    assert ApplyTargets(e, r.targets, s.rampS) == ApplyTargets(e0, [0.0], s.rampS);
    assert ApplyTargets(e0, [0.0], s.rampS) == ApplyTargets(Esc.AfterSetTarget(e0, 0.0, s.rampS), [], s.rampS);
  }

  /** The clock reading at which the current step has just run its time. */
  function DueNow(s: AtState): u32
    requires Inv(s) && s.active
  {
    AddU32(s.stepStartMs, StepDueMs(s))
  }

  /** How many ticks taken at `DueNow` the program still needs. */
  function StepsLeft(s: AtState): nat
    requires Inv(s)
  {
    if !s.active then 0 else if s.count <= 0 then 1 else s.count - s.stepId
  }

  /** `k` ticks, each taken just as the current step's time is up. */
  function LateTicks(s: AtState, k: nat): (r: AtState)
    requires Inv(s)
    ensures Inv(r)
    decreases k
  {
    if k == 0 || !s.active then s
    else
      TickPreservesInv(s, DueNow(s));
      LateTicks(AtTick(s, DueNow(s)).next, k - 1)
  }

  /** Every program ends: ticking once per elapsed step stops it after as
      many ticks as it has steps left (one for an empty program). */
  lemma {:induction false} ProgramFinishes(s: AtState)
    requires Inv(s)
    ensures !LateTicks(s, StepsLeft(s)).active
    decreases StepsLeft(s)
  {
    if s.active {
      var now := DueNow(s);
      ElapsedAfterWrap(s.stepStartMs, StepDueMs(s));
      assert ElapsedU32(now, s.stepStartMs) == StepDueMs(s);
      var s1 := AtTick(s, now).next;
      TickPreservesInv(s, now);
      if s1.active {
        assert s1.stepId == s.stepId + 1 && s1.count == s.count;
        assert StepsLeft(s1) == StepsLeft(s) - 1;
        ProgramFinishes(s1);
      } else {
        assert LateTicks(s1, StepsLeft(s) - 1) == s1;
      }
    }
  }

  // ---- the class -----------------------------------------------------

  class AutoTest {
    var active: bool
    var stepId: int
    var stepTimeS: real
    var rampS: real
    var stepStartMs: u32
    var steady: bool
    var count: int
    const stepsPct: array<real>
    var listEn: bool
    const stepTimeList: array<real>

    function Model(): AtState
      reads this, stepsPct, stepTimeList
    {
      AtState(active, stepId, stepTimeS, rampS, stepStartMs, steady, count,
              stepsPct[..], listEn, stepTimeList[..])
    }

    ghost predicate Tables()
      reads this
    {
      stepsPct.Length == MAX_STEPS && stepTimeList.Length == MAX_STEPS && stepsPct != stepTimeList
    }

    ghost predicate Valid()
      reads this, stepsPct, stepTimeList
    {
      Tables() && Inv(Model())
    }

    constructor ()
      ensures Valid() && Model() == Cleared()
    {
      active, stepId := false, -1;
      stepTimeS, rampS := 0.0, 0.0;
      stepStartMs, steady := 0, false;
      count, listEn := 0, false;
      stepsPct := new real[MAX_STEPS](_ => 0.0);
      stepTimeList := new real[MAX_STEPS](_ => 0.0);
      new;
      assert stepsPct[..] == Zeros() && stepTimeList[..] == Zeros();
    }

    /** `st_ = AutoTestState{}`. */
    method Reset()
      requires Tables()
      modifies this, stepsPct, stepTimeList
      ensures Valid() && Model() == Cleared()
    {
      active, stepId := false, -1;
      stepTimeS, rampS := 0.0, 0.0;
      stepStartMs, steady := 0, false;
      count, listEn := 0, false;
      forall i | 0 <= i < MAX_STEPS {
        stepsPct[i] := 0.0;
      }
      forall i | 0 <= i < MAX_STEPS {
        stepTimeList[i] := 0.0;
      }
      assert stepsPct[..] == Zeros() && stepTimeList[..] == Zeros();
    }

    /** The first `c` slots of `t` from `src`, the rest left as they are. */
    method CopyPrefix(t: array<real>, src: seq<real>, c: int)
      requires t.Length == MAX_STEPS && c <= MAX_STEPS && c <= |src|
      requires forall i :: 0 <= i < MAX_STEPS ==> t[i] == 0.0
      modifies t
      ensures t[..] == Loaded(src, c)
    {
      var i := 0;
      while i < c
        invariant 0 <= i <= (if c < 0 then 0 else c)
        invariant forall j :: 0 <= j < i ==> t[j] == src[j]
        invariant forall j :: i <= j < MAX_STEPS ==> t[j] == 0.0
      {
        t[i] := src[i];
        i := i + 1;
      }
    }

    method Start(steps: seq<real>, n: i32, stepTimeS0: real, rampS0: real, nowMs: u32)
      requires Tables() && CapCount(n) <= |steps|
      modifies this, stepsPct, stepTimeList
      ensures Valid() && Model() == AfterStart(steps, n, stepTimeS0, rampS0, nowMs)
    {
      Reset();
      active := true;
      stepTimeS := stepTimeS0;
      rampS := rampS0;
      listEn := false;
      var c: int := n;
      if c > MAX_STEPS {
        c := MAX_STEPS;
      }
      count := c;
      CopyPrefix(stepsPct, steps, c);
      stepId := 0;
      stepStartMs := nowMs;
      steady := false;
      StartBegins(steps, n, stepTimeS0, rampS0, nowMs);
    }

    method StartProgram(steps: seq<real>, times: Option<seq<real>>, n: i32, rampS0: real, nowMs: u32)
      requires Tables() && CapCount(n) <= |steps|
      requires times.Some? ==> CapCount(n) <= |times.value|
      modifies this, stepsPct, stepTimeList
      ensures Valid() && Model() == AfterStartProgram(steps, times, n, rampS0, nowMs)
    {
      Reset();
      active := true;
      rampS := rampS0;
      var c: int := n;
      if c > MAX_STEPS {
        c := MAX_STEPS;
      }
      count := c;
      CopyPrefix(stepsPct, steps, c);
      if times.Some? {
        CopyPrefix(stepTimeList, times.value, c);
      } else {
        assert stepTimeList[..] == Zeros();
      }
      listEn := times.Some?;
      stepId := 0;
      stepStartMs := nowMs;
      steady := false;
      StartProgramBegins(steps, times, n, rampS0, nowMs);
    }

    method Stop()
      requires Valid()
      modifies this
      ensures Valid() && Model() == AfterStop(old(Model()))
    {
      active := false;
      stepId := -1;
    }

    function StepTimeS(): (t: Option<real>)
      reads this, stepsPct, stepTimeList
      requires Valid()
    {
      StepTime(Model())
    }

    /** Idle exactly when there is no current step. */
    function IsActive(): (a: bool)
      reads this, stepsPct, stepTimeList
      requires Valid()
      ensures a <==> stepId != -1
    {
      active
    }

    /** -1 when idle, otherwise a slot of the step tables. */
    function StepId(): (i: int)
      reads this, stepsPct, stepTimeList
      requires Valid()
      ensures i == -1 || 0 <= i < MAX_STEPS
      ensures i == -1 <==> !active
    {
      stepId
    }

    function IsSteady(): bool
      reads this
    {
      steady
    }

    method Tick(esc: Esc.EscBdshot, nowMs: u32)
      requires Valid() && esc.Valid()
      modifies this, esc
      ensures Valid() && esc.Valid()
      ensures Model() == AtTick(old(Model()), nowMs).next
      ensures esc.Model() == ApplyTargets(old(esc.Model()), AtTick(old(Model()), nowMs).targets, rampS)
    {
      if !active {
        return;
      }
      ghost var s := Model();
      ghost var e := esc.Model();
      var elapsed := ElapsedU32(nowMs, stepStartMs);
      var stepS := if listEn then stepTimeList[stepId] else stepTimeS;
      var stepMs := stepS * 1000.0;
      steady := elapsed >= TruncToU32(rampS * 1000.0);
      var pct := stepsPct[stepId];
      esc.SetTargetThrottlePct(pct, rampS);
      ApplyOne(e, pct, rampS);
      if elapsed >= TruncToU32(stepMs) {
        stepId := stepId + 1;
        if stepId >= count {
          active := false;
          stepId := -1;
          esc.SetTargetThrottlePct(0.0, rampS);
          ApplyTwo(e, pct, 0.0, rampS);
          return;
        }
        stepStartMs := nowMs;
      }
    }
  }
}
