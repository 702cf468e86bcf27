/** One iteration of the auto-rotation tool's endless loop, as a pure step
    function over the loop's three state variables, a finite run of such
    steps, and the object that performs them in place. */
module RotationLoop {

  import opened Wrappers
  import opened IioRotation

  /** Sleep after a failed accelerometer read. */
  const RECOVERY_DELAY_MS := 100
  /** Factor by which the polling interval grows when the CPU is hot. */
  const THERMAL_SLOWDOWN := 4
  /** A counters summary is due whenever the operation count is a positive
      multiple of this. */
  const REPORT_EVERY := 100

  /** The loop's state: the last orientation applied to the display, the
      number of successful rotations, the number of slowed-down ticks. */
  datatype RotationState = RotationState(last: Orientation, ops: nat, reductions: nat)

  const INITIAL := RotationState(Undefined, 0, 0)

  /** What the world supplies to one tick: the axis sources, the temperature
      source, and whether the compositor command would exit with status 0. */
  datatype TickInput = TickInput(accel: AxisSources, temp: Option<int>, commandOk: bool)

  /** What one tick does to the world: the transform index it sends (if any),
      how long it sleeps, and whether the counters summary is printed. */
  datatype TickOutput = TickOutput(dispatch: Option<nat>, sleepMs: nat, report: bool)

  datatype TickResult = TickResult(next: RotationState, out: TickOutput)

  /** True when the tick's command was sent and reported success. */
  predicate Applied(i: TickInput, o: TickOutput) {
    o.dispatch.Some? && i.commandOk
  }

  function Step(s: RotationState, i: TickInput): (r: TickResult)
    // a rotation is sent exactly for a defined orientation that differs from the applied one
    ensures r.out.dispatch.Some? <==>
      Accepted(i.accel) && Current(i.accel) != Undefined && Current(i.accel) != s.last
    ensures r.out.dispatch.Some? ==>
      Accepted(i.accel) && r.out.dispatch.value == Ordinal(Current(i.accel)) < 4
    // the state moves only when the command succeeded
    ensures Applied(i, r.out) ==>
      Accepted(i.accel) && r.next.last == Current(i.accel) && r.next.ops == s.ops + 1
    ensures !Applied(i, r.out) ==> r.next.last == s.last && r.next.ops == s.ops
    ensures r.next.last == Undefined ==> s.last == Undefined
    // a failed read changes nothing and waits for the recovery delay
    ensures !Accepted(i.accel) ==>
      r.next == s && r.out.sleepMs == RECOVERY_DELAY_MS && !r.out.report
    // an accepted read sleeps 50 ms when safe, 200 ms (and counts it) when not
    ensures Accepted(i.accel) && ThermalSafe(i.temp) ==>
      r.out.sleepMs == 50 && r.next.reductions == s.reductions
    ensures Accepted(i.accel) && !ThermalSafe(i.temp) ==>
      r.out.sleepMs == 200 && r.next.reductions == s.reductions + 1
    ensures r.out.report <==> Accepted(i.accel) && r.next.ops > 0 && r.next.ops % 100 == 0
  {
    if !Accepted(i.accel) then
      TickResult(s, TickOutput(None, RECOVERY_DELAY_MS, false))
    else
      var current := Current(i.accel);
      var dispatch := if current != Undefined && current != s.last then Some(Ordinal(current)) else None;
      var applied := dispatch.Some? && i.commandOk;
      var last := if applied then current else s.last;
      var ops := if applied then s.ops + 1 else s.ops;
      var safe := ThermalSafe(i.temp);
      var sleepMs := if safe then MAX_SAFE_FREQUENCY_MS else MAX_SAFE_FREQUENCY_MS * THERMAL_SLOWDOWN;
      var reductions := if safe then s.reductions else s.reductions + 1;
      TickResult(RotationState(last, ops, reductions),
                 TickOutput(dispatch, sleepMs, ops > 0 && ops % REPORT_EVERY == 0))
  }

  datatype RunResult = RunResult(final: RotationState, outs: seq<TickOutput>)

  /** The loop run over a finite sequence of ticks, one output per tick. */
  function Run(s: RotationState, ins: seq<TickInput>): (r: RunResult)
    ensures |r.outs| == |ins|
    ensures ins == [] ==> r.final == s
    decreases |ins|
  {
    if ins == [] then RunResult(s, [])
    else
      var prev := Run(s, ins[..|ins| - 1]);
      var t := Step(prev.final, ins[|ins| - 1]);
      RunResult(t.next, prev.outs + [t.out])
  }

  /** Running one more tick extends a run by that tick's step. */
  lemma RunExtend(s: RotationState, ins: seq<TickInput>, k: nat)
    requires k < |ins|
    ensures var prev := Run(s, ins[..k]);
            var t := Step(prev.final, ins[k]);
            Run(s, ins[..k + 1]) == RunResult(t.next, prev.outs + [t.out])
  {
    assert ins[..k + 1][..k] == ins[..k];
  }

  /** The transform indices sent to the compositor, in order. */
  function Commands(outs: seq<TickOutput>): seq<nat> {
    if outs == [] then []
    else
      var o := outs[|outs| - 1];
      Commands(outs[..|outs| - 1]) + (if o.dispatch.Some? then [o.dispatch.value] else [])
  }

  /** One more output extends the command trace by what that output sent. */
  lemma CommandsExtend(outs: seq<TickOutput>, o: TickOutput)
    ensures Commands(outs + [o]) ==
      Commands(outs) + (if o.dispatch.Some? then [o.dispatch.value] else [])
  {
    assert (outs + [o])[..|outs|] == outs;
  }

  /** How many ticks sent a command that succeeded. */
  function AppliedCount(ins: seq<TickInput>, outs: seq<TickOutput>): nat
    requires |ins| == |outs|
  {
    if ins == [] then 0
    else
      AppliedCount(ins[..|ins| - 1], outs[..|outs| - 1]) +
      (if Applied(ins[|ins| - 1], outs[|outs| - 1]) then 1 else 0)
  }

  /** How many ticks slept the thermally reduced interval. */
  function SlowedCount(outs: seq<TickOutput>): nat {
    if outs == [] then 0
    else SlowedCount(outs[..|outs| - 1]) + (if outs[|outs| - 1].sleepMs == 200 then 1 else 0)
  }

  /** The operation count is exactly the number of successful rotations. */
  lemma {:induction false} RunCountsApplied(s: RotationState, ins: seq<TickInput>)
    ensures Run(s, ins).final.ops == s.ops + AppliedCount(ins, Run(s, ins).outs)
    decreases |ins|
  {
    if ins != [] {
      var init := ins[..|ins| - 1];
      RunCountsApplied(s, init);
      var r := Run(s, ins);
      assert r.outs[..|ins| - 1] == Run(s, init).outs;
    }
  }

  /** Every index a run hands to the compositor is a transform number of a
      defined orientation, 0 to 3; Undefined (4) is never sent. */
  lemma {:induction false} RunSendsTransforms(s: RotationState, ins: seq<TickInput>)
    ensures forall k :: 0 <= k < |Commands(Run(s, ins).outs)| ==> Commands(Run(s, ins).outs)[k] < 4
    decreases |ins|
  {
    if ins != [] {
      var init := ins[..|ins| - 1];
      RunSendsTransforms(s, init);
      var r := Run(s, ins);
      assert r.outs[..|ins| - 1] == Run(s, init).outs;
    }
  }

  /** The thermal-reduction count is exactly the number of 200 ms sleeps. */
  lemma {:induction false} RunCountsSlowed(s: RotationState, ins: seq<TickInput>)
    ensures Run(s, ins).final.reductions == s.reductions + SlowedCount(Run(s, ins).outs)
    decreases |ins|
  {
    if ins != [] {
      var init := ins[..|ins| - 1];
      RunCountsSlowed(s, init);
      var r := Run(s, ins);
      assert r.outs[..|ins| - 1] == Run(s, init).outs;
    }
  }

  /** Starting from a state where "an orientation has been applied" and "an
      operation has been counted" coincide, they keep coinciding: Undefined is
      never applied, and it stays the last orientation until the first success. */
  lemma {:induction false} RunLastDefinedIffCounted(s: RotationState, ins: seq<TickInput>)
    requires s.last == Undefined <==> s.ops == 0
    ensures Run(s, ins).final.last == Undefined <==> Run(s, ins).final.ops == 0
    decreases |ins|
  {
    if ins != [] {
      RunLastDefinedIffCounted(s, ins[..|ins| - 1]);
    }
  }

  /** From the initial state, the last applied orientation is defined exactly
      when some command has succeeded. */
  lemma LastDefinedIffSomeApplied(ins: seq<TickInput>)
    ensures Run(INITIAL, ins).final.last != Undefined <==>
      AppliedCount(ins, Run(INITIAL, ins).outs) > 0
  {
    RunLastDefinedIffCounted(INITIAL, ins);
    RunCountsApplied(INITIAL, ins);
  }

  /** A failed command leaves the state so that the next accepted sample with
      the same orientation sends the same transform again. */
  lemma RetryAfterFailure(s: RotationState, i1: TickInput, i2: TickInput)
    requires Step(s, i1).out.dispatch.Some? && !i1.commandOk
    requires Accepted(i2.accel) && Current(i2.accel) == Current(i1.accel)
    ensures Step(Step(s, i1).next, i2).out.dispatch == Step(s, i1).out.dispatch
  {
  }

  /** After a successful rotation the same orientation is not sent again. */
  lemma NoRepeatAfterSuccess(s: RotationState, i1: TickInput, i2: TickInput)
    requires Applied(i1, Step(s, i1).out)
    requires Accepted(i2.accel) && Current(i2.accel) == Current(i1.accel)
    ensures Step(Step(s, i1).next, i2).out.dispatch.None?
  {
  }

  /** The summary condition depends only on the count, so it holds again on
      every accepted tick that applies nothing while the count sits at a
      positive multiple of 100: the summary repeats rather than appearing once. */
  lemma ReportRepeatsWhileIdle(s: RotationState, i: TickInput)
    requires s.ops > 0 && s.ops % 100 == 0
    requires Accepted(i.accel) && !Applied(i, Step(s, i).out)
    ensures Step(s, i).out.report
  {
  }

  /** Samples classified RightUp, RightUp, LeftUp with every command
      succeeding send exactly two commands: transform 3, then transform 1. */
  lemma RepeatedOrientationSentOnce()
    ensures var rightUp := TickInput(AxisSources(Some(1000), Some(0), Some(0)), None, true);
            var leftUp := TickInput(AxisSources(Some(-1000), Some(0), Some(0)), None, true);
            var r := Run(INITIAL, [rightUp, rightUp, leftUp]);
            Commands(r.outs) == [3, 1] && r.final == RotationState(LeftUp, 2, 0)
  {
    var rightUp := TickInput(AxisSources(Some(1000), Some(0), Some(0)), None, true);
    var leftUp := TickInput(AxisSources(Some(-1000), Some(0), Some(0)), None, true);
    var ins := [rightUp, rightUp, leftUp];
    assert ins[..2] == [rightUp, rightUp];
    assert ins[..2][..1] == [rightUp];
    assert [rightUp][..0] == [];
    assert Run(INITIAL, []) == RunResult(INITIAL, []);
    var r1 := Run(INITIAL, [rightUp]);
    assert Current(rightUp.accel) == RightUp && Current(leftUp.accel) == LeftUp;
    assert r1.final == RotationState(RightUp, 1, 0) && r1.outs[0].dispatch == Some(3);
    var r2 := Run(INITIAL, [rightUp, rightUp]);
    assert r2.final == r1.final && r2.outs[1].dispatch.None?;
    var r := Run(INITIAL, ins);
    assert r.final == RotationState(LeftUp, 2, 0) && r.outs[2].dispatch == Some(1);
    assert r.outs[..2] == r2.outs && r2.outs[..1] == r1.outs && r1.outs[..0] == [];
    assert Commands(r1.outs) == [3];
    assert Commands(r2.outs) == [3];
  }

  /** An out-of-bounds x axis is rejected: nothing is classified or sent,
      and the tick waits the recovery delay. */
  lemma OutOfBoundsRejected(s: RotationState, temp: Option<int>, ok: bool)
    ensures var r := Step(s, TickInput(AxisSources(Some(1226), Some(0), Some(0)), temp, ok));
            r.next == s && r.out.dispatch.None? && r.out.sleepMs == 100
  {
  }

  /** The loop's state variables, updated in place one tick at a time. The
      transform indices sent so far are kept in `commands`. */
  class LoopState {
    var last: Orientation
    var ops: nat
    var reductions: nat
    var commands: seq<nat>

    function State(): RotationState
      reads this
    {
      RotationState(last, ops, reductions)
    }

    constructor ()
      ensures State() == INITIAL && commands == []
    {
      last, ops, reductions, commands := Undefined, 0, 0, [];
    }

    /** One pass of the loop body. */
    method Tick(i: TickInput) returns (out: TickOutput)
      modifies this
      ensures State() == Step(old(State()), i).next
      ensures out == Step(old(State()), i).out
      ensures commands == old(commands) + Commands([out])
    {
      var ok, x, y, z := ReadAccelerometer(i.accel);
      if !ok {
        out := TickOutput(None, RECOVERY_DELAY_MS, false);
        return;
      }
      var current := Classify(x, y);
      var dispatch := None;
      if current != Undefined && current != last {
        dispatch := Some(Ordinal(current));
        commands := commands + [Ordinal(current)];
        if i.commandOk {
          last := current;
          ops := ops + 1;
        }
      }
      var sleepMs := MAX_SAFE_FREQUENCY_MS;
      if !ThermalSafe(i.temp) {
        sleepMs := MAX_SAFE_FREQUENCY_MS * THERMAL_SLOWDOWN;
        reductions := reductions + 1;
      }
      out := TickOutput(dispatch, sleepMs, ops > 0 && ops % REPORT_EVERY == 0);
    }

    /** The endless loop cut to a finite sequence of ticks. */
    method RunTicks(ins: seq<TickInput>) returns (outs: seq<TickOutput>)
      modifies this
      ensures State() == Run(old(State()), ins).final
      ensures outs == Run(old(State()), ins).outs
      ensures commands == old(commands) + Commands(outs)
    {
      ghost var start := State();
      outs := [];
      var k := 0;
      while k < |ins|
        invariant 0 <= k <= |ins|
        invariant State() == Run(start, ins[..k]).final
        invariant outs == Run(start, ins[..k]).outs
        invariant commands == old(commands) + Commands(outs)
      {
        RunExtend(start, ins, k);
        var out := Tick(ins[k]);
        CommandsExtend(outs, out);
        outs := outs + [out];
        k := k + 1;
      }
      assert ins[..|ins|] == ins;
    }
  }
}
