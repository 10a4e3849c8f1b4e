/**
 * optimization/pid.py: a PID controller whose `calculate` updates the
 * accumulated integral and the remembered error on every call.
 */
module Pid {

  /** The part of the controller's state that `calculate` changes. */
  datatype Memory = Memory(integral: real, previousError: real)

  /** One sample fed to `calculate`. */
  datatype Sample = Sample(target: real, current: real, dt: real)

  /** The derivative term: the change in error over `dt`, or 0 when `dt` is not positive. */
  function Derivative(error: real, previousError: real, dt: real): (d: real)
    ensures dt > 0.0 ==> d * dt == error - previousError
    ensures dt <= 0.0 ==> d == 0.0
  {
    if dt > 0.0 then (error - previousError) / dt else 0.0
  }

  /** The memory after one call of `calculate`. */
  function Next(mem: Memory, s: Sample): (r: Memory)
    ensures r.previousError == s.target - s.current
    ensures r.integral - mem.integral == (s.target - s.current) * s.dt
  {
    var error := s.target - s.current;
    Memory(mem.integral + error * s.dt, error)
  }

  /**
   * The value `calculate` returns: the proportional term on the new error,
   * the integral term on the integral already updated by this call, and the
   * derivative term against the error remembered from the previous call.
   */
  function Output(kp: real, ki: real, kd: real, mem: Memory, s: Sample): real
  {
    var error := s.target - s.current;
    kp * error + ki * Next(mem, s).integral + kd * Derivative(error, mem.previousError, s.dt)
  }

  /** The memory after a run of calls, oldest sample first. */
  function Run(mem: Memory, samples: seq<Sample>): Memory
    decreases |samples|
  {
    if |samples| == 0 then mem else Run(Next(mem, samples[0]), samples[1..])
  }

  /** The error-times-interval sum the integral accumulates, newest sample last. */
  function WeightedErrors(samples: seq<Sample>): real
  {
    if |samples| == 0 then 0.0
    else
      var last := samples[|samples| - 1];
      WeightedErrors(samples[..|samples| - 1]) + (last.target - last.current) * last.dt
  }

  class PID {
    const kp: real
    const ki: real
    const kd: real
    var previousError: real
    var integral: real

    function State(): Memory
      reads this
    {
      Memory(integral, previousError)
    }

    /** `__init__`: the gains are kept and both the integral and the remembered error start at 0. */
    constructor(kp: real, ki: real, kd: real)
      ensures this.kp == kp && this.ki == ki && this.kd == kd
      ensures integral == 0.0 && previousError == 0.0
    {
      this.kp := kp;
      this.ki := ki;
      this.kd := kd;
      previousError := 0.0;
      integral := 0.0;
    }

    /** `calculate`: one control step; the gains stay as they are. */
    method Calculate(target: real, current: real, dt: real) returns (output: real)
      modifies this
      ensures State() == Next(old(State()), Sample(target, current, dt))
      ensures output == Output(kp, ki, kd, old(State()), Sample(target, current, dt))
    {
      var error := target - current;
      integral := integral + error * dt;
      var derivative := if dt > 0.0 then (error - previousError) / dt else 0.0;
      output := kp * error + ki * integral + kd * derivative;
      previousError := error;
    }
  }

  /** After a run of calls the integral has grown by the sum of error times interval. */
  lemma {:induction false} RunIntegral(mem: Memory, samples: seq<Sample>)
    ensures Run(mem, samples).integral == mem.integral + WeightedErrors(samples)
    decreases |samples|
  {
    if |samples| > 0 {
      var n := |samples| - 1;
      RunSnoc(mem, samples[..n], samples[n]);
      assert samples[..n] + [samples[n]] == samples;
      RunIntegral(mem, samples[..n]);
    }
  }

  /** Running one more sample is one more step after the run. */
  lemma {:induction false} RunSnoc(mem: Memory, samples: seq<Sample>, s: Sample)
    ensures Run(mem, samples + [s]) == Next(Run(mem, samples), s)
    decreases |samples|
  {
    if |samples| == 0 {
      assert samples + [s] == [s];
    } else {
      assert (samples + [s])[1..] == samples[1..] + [s];
      RunSnoc(Next(mem, samples[0]), samples[1..], s);
    }
  }

  /** After a non-empty run the remembered error is that of the newest sample. */
  lemma {:induction false} RunRemembersLastError(mem: Memory, samples: seq<Sample>)
    requires |samples| > 0
    ensures Run(mem, samples).previousError == samples[|samples| - 1].target - samples[|samples| - 1].current
  {
    var n := |samples| - 1;
    assert samples[..n] + [samples[n]] == samples;
    RunSnoc(mem, samples[..n], samples[n]);
  }

  /**
   * With no integral and no derivative gain the output is purely proportional,
   * whatever the controller remembers.
   */
  lemma ProportionalOnly(kp: real, mem: Memory, s: Sample)
    ensures Output(kp, 0.0, 0.0, mem, s) == kp * (s.target - s.current)
  {
  }

  /** A steady error with a positive interval contributes no derivative term. */
  lemma SteadyErrorNoKick(kp: real, ki: real, kd: real, mem: Memory, s: Sample)
    requires s.dt > 0.0 && mem.previousError == s.target - s.current
    ensures Output(kp, ki, kd, mem, s) == kp * (s.target - s.current) + ki * Next(mem, s).integral
  {
    assert Derivative(s.target - s.current, mem.previousError, s.dt) == 0.0;
  }
}
