/**
 The controller family of src/Controller.py: a proportional, a
 proportional-integral and a proportional-integral-derivative controller,
 each mapping the current body angle (and the time step) to a corrective
 torque. Floats are modelled as `real`.

 The per-call update rules are the `ControlTorque` methods of the three
 classes. The effect of many calls is stated on values: `Integral` and
 `PIDAfter` fold the per-call update over a sequence of inputs, the lemmas
 below say what those folds compute, and `RepeatPI` / `RepeatPID` drive a
 fresh controller object n times and tie it to the folds.
 */
module Controllers {

  /** The goal angle every controller steers towards: upright. */
  const GOAL: real := 0.0

  /** The angle error a controller acts on (positive angle, positive error). */
  function Error(theta: real): (e: real)
    ensures e == theta
  {
    theta - GOAL
  }

  /** One controller input: the current angle and the time step of the call. */
  datatype Sample = Sample(theta: real, dt: real)

  /** The integral accumulator after one call with input `s`. */
  function Accumulate(integral: real, s: Sample): (r: real)
    ensures r == integral + s.theta * s.dt
  {
    integral + Error(s.theta) * s.dt
  }

  /** The integral accumulator after one call per sample, in order, starting from `integral`. */
  function Integral(integral: real, samples: seq<Sample>): real
    decreases |samples|
  {
    if samples == [] then integral
    else Integral(Accumulate(integral, samples[0]), samples[1..])
  }

  /** `n` calls with the same input. */
  function Repeat(s: Sample, n: nat): (r: seq<Sample>)
    ensures |r| == n
    ensures forall i :: 0 <= i < n ==> r[i] == s
  {
    seq(n, _ => s)
  }

  /** Feeding two runs of samples one after the other accumulates as one run. */
  lemma {:induction false} IntegralAppend(integral: real, s: seq<Sample>, t: seq<Sample>)
    ensures Integral(integral, s + t) == Integral(Integral(integral, s), t)
    decreases |s|
  {
    if s == [] {
      assert s + t == t;
    } else {
      assert (s + t)[1..] == s[1..] + t;
      IntegralAppend(Accumulate(integral, s[0]), s[1..], t);
    }
  }

  /** The accumulator is its starting value plus what the calls add: a
      controller's history before a run does not change what the run adds. */
  lemma {:induction false} IntegralFromStart(integral: real, samples: seq<Sample>)
    ensures Integral(integral, samples) == integral + Integral(0.0, samples)
    decreases |samples|
  {
    if samples != [] {
      var c := Error(samples[0].theta) * samples[0].dt;
      assert Accumulate(integral, samples[0]) == integral + c;
      assert Accumulate(0.0, samples[0]) == c;
      IntegralFromStart(integral + c, samples[1..]);
      IntegralFromStart(c, samples[1..]);
    }
  }

  lemma MulSucc(k: real, x: real, y: real)
    ensures (k + 1.0) * x * y == x * y + k * x * y
  {
  }

  /** n calls with a fixed angle and time step add exactly n * theta * dt. */
  lemma {:induction false} IntegralOfRepeat(integral: real, theta: real, dt: real, n: nat)
    ensures Integral(integral, Repeat(Sample(theta, dt), n)) == integral + (n as real) * theta * dt
    decreases n
  {
    var s := Sample(theta, dt);
    if n > 0 {
      var e := theta * dt;
      assert Accumulate(integral, s) == integral + e;
      assert Repeat(s, n)[1..] == Repeat(s, n - 1);
      assert Integral(integral, Repeat(s, n)) == Integral(integral + e, Repeat(s, n - 1));
      IntegralOfRepeat(integral + e, theta, dt, n - 1);
      MulSucc((n - 1) as real, theta, dt);
    }
  }

  /** The guarded derivative of the PID controller: zero, with no division,
      when the time step is not positive; otherwise the difference quotient. */
  function Derivative(previousError: real, error: real, dt: real): (d: real)
    ensures dt <= 0.0 ==> d == 0.0
    ensures dt > 0.0 ==> d * dt == error - previousError
    ensures error == previousError ==> d == 0.0
  {
    if dt > 0.0 then (error - previousError) / dt else 0.0
  }

  /** The two accumulators of a PID controller. */
  datatype PIDMemory = PIDMemory(integral: real, previousError: real)

  /** The accumulators after one PID call with input `s`. */
  function PIDUpdate(m: PIDMemory, s: Sample): (r: PIDMemory)
    ensures r.integral == Accumulate(m.integral, s)
    ensures r.previousError == s.theta
  {
    PIDMemory(Accumulate(m.integral, s), Error(s.theta))
  }

  /** The accumulators after one PID call per sample, in order. */
  function PIDAfter(m: PIDMemory, samples: seq<Sample>): PIDMemory
    decreases |samples|
  {
    if samples == [] then m
    else PIDAfter(PIDUpdate(m, samples[0]), samples[1..])
  }

  lemma {:induction false} PIDAfterAppend(m: PIDMemory, s: seq<Sample>, t: seq<Sample>)
    ensures PIDAfter(m, s + t) == PIDAfter(PIDAfter(m, s), t)
    decreases |s|
  {
    if s == [] {
      assert s + t == t;
    } else {
      assert (s + t)[1..] == s[1..] + t;
      PIDAfterAppend(PIDUpdate(m, s[0]), s[1..], t);
    }
  }

  /** The PID integral accumulates exactly as the PI integral does. */
  lemma {:induction false} PIDIntegralIsPIIntegral(m: PIDMemory, samples: seq<Sample>)
    ensures PIDAfter(m, samples).integral == Integral(m.integral, samples)
    decreases |samples|
  {
    if samples != [] {
      PIDIntegralIsPIIntegral(PIDUpdate(m, samples[0]), samples[1..]);
    }
  }

  /** After at least one call the PID controller remembers the error of the
      last call only, whatever the time steps were. */
  lemma {:induction false} PIDRemembersLastError(m: PIDMemory, samples: seq<Sample>)
    requires |samples| > 0
    ensures PIDAfter(m, samples).previousError == samples[|samples| - 1].theta
    decreases |samples|
  {
    if |samples| > 1 {
      PIDRemembersLastError(PIDUpdate(m, samples[0]), samples[1..]);
    }
  }

  /** n PID calls with a fixed angle and time step from fresh accumulators. */
  lemma {:induction false} PIDAfterRepeat(theta: real, dt: real, n: nat)
    ensures PIDAfter(PIDMemory(0.0, 0.0), Repeat(Sample(theta, dt), n))
         == PIDMemory((n as real) * theta * dt, if n == 0 then 0.0 else theta)
  {
    var s := Repeat(Sample(theta, dt), n);
    PIDIntegralIsPIIntegral(PIDMemory(0.0, 0.0), s);
    IntegralOfRepeat(0.0, theta, dt, n);
    if n > 0 {
      PIDRemembersLastError(PIDMemory(0.0, 0.0), s);
    }
  }

  /** src/Controller.py:23-47. Stateless: the torque is the error times K_p. */
  class ProportionalController {
    const Kp: real

    constructor (Kp: real)
      ensures this.Kp == Kp
    {
      this.Kp := Kp;
    }

    /** The time step is accepted and ignored; no field changes. */
    method ControlTorque(theta: real, dt: real) returns (tau: real)
      ensures tau == Kp * theta
    {
      var error := Error(theta);
      tau := error * Kp;
    }
  }

  /** src/Controller.py:50-80. The gains are fixed at construction; only the
      integral accumulator changes. */
  class PIController {
    const Kp: real
    const Ki: real
    var integral: real

    constructor (Kp: real, Ki: real)
      ensures this.Kp == Kp && this.Ki == Ki
      ensures integral == 0.0
    {
      this.Kp := Kp;
      this.Ki := Ki;
      integral := 0.0;
    }

    /** Advances the integral by theta * dt and answers with the already
        advanced integral. */
    method ControlTorque(theta: real, dt: real) returns (tau: real)
      modifies this`integral
      ensures integral == Accumulate(old(integral), Sample(theta, dt))
      ensures integral == old(integral) + theta * dt
      ensures tau == Kp * theta + Ki * integral
    {
      var error := Error(theta);
      integral := integral + error * dt;
      tau := error * Kp + integral * Ki;
    }
  }

  /** src/Controller.py:83-119. The gains are fixed at construction; only the
      integral and the previous error change. */
  class PIDController {
    const Kp: real
    const Ki: real
    const Kd: real
    var integral: real
    var previousError: real

    function Memory(): PIDMemory
      reads this
    {
      PIDMemory(integral, previousError)
    }

    constructor (Kp: real, Ki: real, Kd: real)
      ensures this.Kp == Kp && this.Ki == Ki && this.Kd == Kd
      ensures Memory() == PIDMemory(0.0, 0.0)
    {
      this.Kp := Kp;
      this.Ki := Ki;
      this.Kd := Kd;
      integral := 0.0;
      previousError := 0.0;
    }

    /** Advances the integral, takes the guarded derivative against the
        previous error, answers with both, then remembers this error. */
    method ControlTorque(theta: real, dt: real) returns (tau: real)
      modifies this`integral, this`previousError
      ensures Memory() == PIDUpdate(old(Memory()), Sample(theta, dt))
      ensures integral == old(integral) + theta * dt && previousError == theta
      ensures tau == Kp * theta + Ki * integral + Kd * Derivative(old(previousError), theta, dt)
      ensures dt <= 0.0 ==> tau == Kp * theta + Ki * integral
    {
      var error := Error(theta);
      integral := integral + error * dt;
      var derivative := Derivative(previousError, error, dt);
      tau := error * Kp + integral * Ki + derivative * Kd;
      previousError := error;
    }
  }

  /** The answer of the `calls`-th call with a fixed angle and time step on a
      fresh controller, when no derivative term is added: K_p * theta plus K_i
      times the integral of `calls` calls. */
  function SteadyTorque(Kp: real, Ki: real, theta: real, dt: real, calls: nat): real {
    Kp * theta + Ki * ((calls as real) * theta * dt)
  }

  /** A fresh PI controller called n times with the same angle and time step:
      the k-th call (from 0) answers K_p * theta + K_i * (k + 1) * theta * dt. */
  method RepeatPI(Kp: real, Ki: real, theta: real, dt: real, n: nat)
    returns (c: PIController, taus: seq<real>)
    ensures c.Kp == Kp && c.Ki == Ki
    ensures c.integral == Integral(0.0, Repeat(Sample(theta, dt), n))
    ensures c.integral == (n as real) * theta * dt
    ensures |taus| == n
    ensures forall k :: 0 <= k < n ==> taus[k] == SteadyTorque(Kp, Ki, theta, dt, k + 1)
  {
    var s := Sample(theta, dt);
    c := new PIController(Kp, Ki);
    taus := [];
    var i := 0;
    while i < n
      invariant 0 <= i <= n && |taus| == i
      invariant c.integral == Integral(0.0, Repeat(s, i))
      invariant forall k :: 0 <= k < i ==> taus[k] == SteadyTorque(Kp, Ki, theta, dt, k + 1)
    {
      var tau := c.ControlTorque(theta, dt);
      assert Repeat(s, i + 1) == Repeat(s, i) + [s];
      IntegralAppend(0.0, Repeat(s, i), [s]);
      IntegralOfRepeat(0.0, theta, dt, i + 1);
      taus := taus + [tau];
      i := i + 1;
    }
    IntegralOfRepeat(0.0, theta, dt, n);
  }

  /** The (i + 1)-th call of a fresh PID controller with a fixed angle and
      time step, as RepeatPID performs it. */
  lemma PIDRepeatCall(Kp: real, Ki: real, Kd: real, theta: real, dt: real, i: nat,
                      before: PIDMemory, after: PIDMemory, tau: real)
    requires before == PIDAfter(PIDMemory(0.0, 0.0), Repeat(Sample(theta, dt), i))
    requires after == PIDUpdate(before, Sample(theta, dt))
    requires tau == Kp * theta + Ki * after.integral + Kd * Derivative(before.previousError, theta, dt)
    ensures after == PIDAfter(PIDMemory(0.0, 0.0), Repeat(Sample(theta, dt), i + 1))
    ensures i == 0 ==> tau == Kp * theta + Ki * theta * dt + Kd * Derivative(0.0, theta, dt)
    ensures i > 0 ==> tau == SteadyTorque(Kp, Ki, theta, dt, i + 1)
  {
    var s := Sample(theta, dt);
    var start := PIDMemory(0.0, 0.0);
    assert Repeat(s, i + 1) == Repeat(s, i) + [s];
    PIDAfterAppend(start, Repeat(s, i), [s]);
    assert PIDAfter(before, [s]) == PIDAfter(after, []);
    PIDAfterRepeat(theta, dt, i);
    PIDAfterRepeat(theta, dt, i + 1);
  }

  /** A fresh PID controller called n times with the same angle and time step:
      only the first call sees a derivative (against the initial previous
      error 0); every later call answers K_p * theta + K_i * (k + 1) * theta * dt. */
  method RepeatPID(Kp: real, Ki: real, Kd: real, theta: real, dt: real, n: nat)
    returns (c: PIDController, taus: seq<real>)
    ensures c.Kp == Kp && c.Ki == Ki && c.Kd == Kd
    ensures c.Memory() == PIDAfter(PIDMemory(0.0, 0.0), Repeat(Sample(theta, dt), n))
    ensures c.integral == (n as real) * theta * dt
    ensures c.previousError == if n == 0 then 0.0 else theta
    ensures |taus| == n
    ensures n > 0 ==> taus[0] == Kp * theta + Ki * theta * dt + Kd * Derivative(0.0, theta, dt)
    ensures forall k :: 1 <= k < n ==> taus[k] == SteadyTorque(Kp, Ki, theta, dt, k + 1)
  {
    var s := Sample(theta, dt);
    var start := PIDMemory(0.0, 0.0);
    c := new PIDController(Kp, Ki, Kd);
    taus := [];
    var i := 0;
    while i < n
      invariant 0 <= i <= n && |taus| == i
      invariant c.Memory() == PIDAfter(start, Repeat(s, i))
      invariant i > 0 ==> taus[0] == Kp * theta + Ki * theta * dt + Kd * Derivative(0.0, theta, dt)
      invariant forall k :: 1 <= k < i ==> taus[k] == SteadyTorque(Kp, Ki, theta, dt, k + 1)
    {
      ghost var before := c.Memory();
      var tau := c.ControlTorque(theta, dt);
      PIDRepeatCall(Kp, Ki, Kd, theta, dt, i, before, c.Memory(), tau);
      taus := taus + [tau];
      i := i + 1;
    }
    PIDAfterRepeat(theta, dt, n);
  }
}
