/**
 The per-tick physics and tipping state machine of src/simulation.py: a rigid
 body pivoting on a wheel, driven by gravity and a clamped corrective torque,
 integrated with semi-implicit Euler at a fixed time step until its angle
 passes the tipping threshold. Floats are modelled as `real`.

 `Step` is one tick on values and `Run` a sequence of ticks; the class `Sim`
 holds the script's module-level state (`theta`, `theta_dot`, `time`,
 `tipped`) and its `Tick` method is proved to perform `Step`.
 */
module Simulation {

  /** The physical and numerical constants of the script (src/simulation.py:7-17, 82). */
  datatype Params = Params(
    mBody: real,          // M_BODY, kg
    lBody: real,          // L_BODY, pivot to centre of mass, m
    g: real,              // G, m/s^2
    dt: real,             // DT, s
    maxAngle: real,       // MAX_ANGLE_TIPPING_RAD
    maxWheelTorque: real  // MAX_WHEEL_TORQUE, N*m
  )

  predicate ValidParams(p: Params) {
    p.mBody > 0.0 && p.lBody > 0.0 && p.g > 0.0 && p.dt > 0.0 && p.maxAngle > 0.0 && p.maxWheelTorque > 0.0
  }

  /** The values the script uses. Its tipping angle is 90 degrees, pi / 2
      radians, which no `real` literal equals, so it is only bracketed. */
  predicate SourceParams(p: Params) {
    p.mBody == 1.0 && p.lBody == 1.5 && p.g == 9.81 && p.dt == 0.005
    && 1.5707 < p.maxAngle < 1.5708 && p.maxWheelTorque == 100.0
  }

  /** The corrective torque the script applies on every tick (src/simulation.py:77). */
  const SOURCE_CORRECTIVE_TORQUE: real := -100.0

  /** I_BODY: the moment of inertia of a rod about one end. */
  function Inertia(p: Params): (i: real)
    requires ValidParams(p)
    ensures i > 0.0
  {
    var ml := p.mBody * p.lBody;
    assert ml > 0.0;
    ml * p.lBody / 3.0
  }

  lemma SourceParamsAreValid(p: Params)
    requires SourceParams(p)
    ensures ValidParams(p) && Inertia(p) == 0.75
  {
  }

  function Abs(x: real): (r: real)
    ensures r >= 0.0 && (r == x || r == -x)
  {
    if x < 0.0 then -x else x
  }

  /** Python's math.copysign: the magnitude of `magnitude` with the sign of `sign`
      (a negative zero, which `real` lacks, counts as positive here). */
  function CopySign(magnitude: real, sign: real): (r: real)
    ensures Abs(r) == Abs(magnitude)
    ensures sign < 0.0 ==> r <= 0.0
    ensures sign >= 0.0 ==> r >= 0.0
  {
    if sign < 0.0 then -Abs(magnitude) else Abs(magnitude)
  }

  /** The wheel-torque limit (src/simulation.py:82-84): bounded by the limit,
      the same sign as the request, and the identity within the limit. */
  function Clamp(tau: real, limit: real): (r: real)
    requires limit > 0.0
    ensures Abs(r) <= limit
    ensures Abs(tau) <= limit ==> r == tau
    ensures Abs(tau) > limit ==> Abs(r) == limit
    ensures (r > 0.0 <==> tau > 0.0) && (r < 0.0 <==> tau < 0.0)
  {
    if Abs(tau) > limit then CopySign(limit, tau) else tau
  }

  /** Clamping twice is clamping once. */
  lemma ClampIdempotent(tau: real, limit: real)
    requires limit > 0.0
    ensures Clamp(Clamp(tau, limit), limit) == Clamp(tau, limit)
  {
  }

  /** The script's own torque request sits exactly on the limit and passes unchanged. */
  lemma SourceTorqueUnclamped(p: Params)
    requires SourceParams(p)
    ensures Clamp(SOURCE_CORRECTIVE_TORQUE, p.maxWheelTorque) == SOURCE_CORRECTIVE_TORQUE
  {
  }

  /** tau_gravity, with math.sin given as `sin`: with positive constants it
      pulls the body the way it already leans, and vanishes when `sin` does. */
  function GravityTorque(p: Params, sin: real -> real, theta: real): (r: real)
    ensures ValidParams(p) ==> (r > 0.0 <==> sin(theta) > 0.0) && (r < 0.0 <==> sin(theta) < 0.0)
  {
    var k := p.mBody * p.g * p.lBody;
    assert ValidParams(p) ==> k > 0.0 by {
      if ValidParams(p) {
        assert p.mBody * p.g > 0.0;
      }
    }
    k * sin(theta)
  }

  /** theta_double_dot: net torque over the moment of inertia. */
  function AngularAcceleration(p: Params, sin: real -> real, theta: real, tauCommand: real): (a: real)
    requires ValidParams(p)
    ensures a * Inertia(p) == GravityTorque(p, sin, theta) + Clamp(tauCommand, p.maxWheelTorque)
  {
    (GravityTorque(p, sin, theta) + Clamp(tauCommand, p.maxWheelTorque)) / Inertia(p)
  }

  /** The body's state: the script's module-level `theta`, `theta_dot`, `time`, `tipped`. */
  datatype Body = Body(theta: real, thetaDot: real, time: real, tipped: bool)

  /** The state before the first tick (src/simulation.py:22-23, 64-65). */
  function Initial(theta0: real): Body {
    Body(theta0, 0.0, 0.0, false)
  }

  /** One pass of the simulation loop's physics (src/simulation.py:72-101). */
  function Step(p: Params, sin: real -> real, b: Body, tauCommand: real): (r: Body)
    requires ValidParams(p)
    ensures b.tipped ==> r == b
    ensures !b.tipped ==> r.time == b.time + p.dt
    ensures !b.tipped ==> (r.tipped <==> Abs(r.theta) > p.maxAngle)
    ensures !b.tipped ==> r.thetaDot - b.thetaDot == AngularAcceleration(p, sin, b.theta, tauCommand) * p.dt
  {
    if b.tipped then b
    else
      var thetaDot := b.thetaDot + AngularAcceleration(p, sin, b.theta, tauCommand) * p.dt;
      var theta := b.theta + thetaDot * p.dt;
      Body(theta, thetaDot, b.time + p.dt, Abs(theta) > p.maxAngle)
  }

  /** The angle moves with the NEW velocity: it differs from an explicit Euler
      step (old velocity) by exactly acceleration * dt^2. */
  lemma StepIsSemiImplicit(p: Params, sin: real -> real, b: Body, tauCommand: real)
    requires ValidParams(p) && !b.tipped
    ensures Step(p, sin, b, tauCommand).theta
         == b.theta + b.thetaDot * p.dt + AngularAcceleration(p, sin, b.theta, tauCommand) * p.dt * p.dt
  {
  }

  /** One tick per corrective torque in `commands`, in order. */
  function Run(p: Params, sin: real -> real, b: Body, commands: seq<real>): Body
    requires ValidParams(p)
    decreases |commands|
  {
    if commands == [] then b
    else Run(p, sin, Step(p, sin, b, commands[0]), commands[1..])
  }

  lemma {:induction false} RunAppend(p: Params, sin: real -> real, b: Body, s: seq<real>, t: seq<real>)
    requires ValidParams(p)
    ensures Run(p, sin, b, s + t) == Run(p, sin, Run(p, sin, b, s), t)
    decreases |s|
  {
    if s == [] {
      assert s + t == t;
    } else {
      assert (s + t)[1..] == s[1..] + t;
      RunAppend(p, sin, Step(p, sin, b, s[0]), s[1..], t);
    }
  }

  /** A tipped body is frozen: no number of ticks changes any of its fields. */
  lemma {:induction false} TippedIsFrozen(p: Params, sin: real -> real, b: Body, commands: seq<real>)
    requires ValidParams(p) && b.tipped
    ensures Run(p, sin, b, commands) == b
    decreases |commands|
  {
    if commands != [] {
      TippedIsFrozen(p, sin, b, commands[1..]);
    }
  }

  /** Tipping is one-way: once a run has tipped, later ticks change nothing. */
  lemma TippedStaysTipped(p: Params, sin: real -> real, b: Body, s: seq<real>, t: seq<real>)
    requires ValidParams(p) && Run(p, sin, b, s).tipped
    ensures Run(p, sin, b, s + t) == Run(p, sin, b, s)
    ensures Run(p, sin, b, s + t).tipped
  {
    RunAppend(p, sin, b, s, t);
    TippedIsFrozen(p, sin, Run(p, sin, b, s), t);
  }

  /** A run that ends upright began every one of its ticks upright, so each
      advanced the clock by dt. */
  lemma {:induction false} UprightRunTime(p: Params, sin: real -> real, b: Body, commands: seq<real>)
    requires ValidParams(p) && !Run(p, sin, b, commands).tipped
    ensures !b.tipped
    ensures Run(p, sin, b, commands).time == b.time + (|commands| as real) * p.dt
    decreases |commands|
  {
    if commands == [] {
    } else {
      var b' := Step(p, sin, b, commands[0]);
      if b.tipped {
        TippedIsFrozen(p, sin, b, commands);
      }
      UprightRunTime(p, sin, b', commands[1..]);
      assert (|commands| as real) * p.dt == p.dt + ((|commands| - 1) as real) * p.dt;
    }
  }

  lemma RunOne(p: Params, sin: real -> real, b: Body, tauCommand: real)
    requires ValidParams(p)
    ensures Run(p, sin, b, [tauCommand]) == Step(p, sin, b, tauCommand)
  {
    assert [tauCommand][1..] == [];
  }

  /** Arithmetic of the clock: n ticks, then one more. */
  lemma ClockAdvance(t0: real, t1: real, t2: real, n: nat, dt: real)
    requires t1 == t0 + (n as real) * dt && t2 == t1 + dt
    ensures t2 == t0 + ((n + 1) as real) * dt
  {
  }

  /** The tick after an upright run is a running tick: it advances the clock by dt. */
  lemma TickAfterUprightRun(p: Params, sin: real -> real, b: Body, s: seq<real>, tauCommand: real)
    requires ValidParams(p) && !Run(p, sin, b, s).tipped
    ensures Run(p, sin, b, s + [tauCommand]).time == Run(p, sin, b, s).time + p.dt
  {
    RunAppend(p, sin, b, s, [tauCommand]);
    RunOne(p, sin, Run(p, sin, b, s), tauCommand);
  }

  /** The clock of an upright run of n ticks, plus one more dt. */
  lemma UprightRunOneMore(p: Params, sin: real -> real, b: Body, s: seq<real>)
    requires ValidParams(p) && !Run(p, sin, b, s).tipped
    ensures Run(p, sin, b, s).time + p.dt == b.time + ((|s| + 1) as real) * p.dt
  {
    UprightRunTime(p, sin, b, s);
    ClockAdvance(b.time, Run(p, sin, b, s).time, Run(p, sin, b, s).time + p.dt, |s|, p.dt);
  }

  /** n ticks that all begin upright advance the clock by n * dt, the tick
      that tips included. */
  lemma TimeCountsRunningTicks(p: Params, sin: real -> real, b: Body, s: seq<real>, tauCommand: real)
    requires ValidParams(p) && !Run(p, sin, b, s).tipped
    ensures Run(p, sin, b, s + [tauCommand]).time == b.time + ((|s| + 1) as real) * p.dt
  {
    TickAfterUprightRun(p, sin, b, s, tauCommand);
    UprightRunOneMore(p, sin, b, s);
  }

  /** The clock never runs backwards and never gains more than dt per tick. */
  lemma {:induction false} TimeBounds(p: Params, sin: real -> real, b: Body, commands: seq<real>)
    requires ValidParams(p)
    ensures b.time <= Run(p, sin, b, commands).time <= b.time + (|commands| as real) * p.dt
    decreases |commands|
  {
    if commands != [] {
      TimeBounds(p, sin, Step(p, sin, b, commands[0]), commands[1..]);
      assert (|commands| as real) * p.dt == p.dt + ((|commands| - 1) as real) * p.dt;
    }
  }

  /** The simulation's state, with the script's module-level variables as fields. */
  class Sim {
    const p: Params
    const sin: real -> real
    var theta: real
    var thetaDot: real
    var time: real
    var tipped: bool

    /** A read-only snapshot of the state. */
    function State(): Body
      reads this
    {
      Body(theta, thetaDot, time, tipped)
    }

    /** The initial angle, random in the script, is a parameter. */
    constructor (p: Params, sin: real -> real, theta0: real)
      requires ValidParams(p)
      ensures this.p == p && this.sin == sin
      ensures State() == Initial(theta0)
    {
      this.p := p;
      this.sin := sin;
      theta := theta0;
      thetaDot := 0.0;
      time := 0.0;
      tipped := false;
    }

    /** One pass of the loop body's `if not tipped:` block. */
    method Tick(tauCommand: real)
      requires ValidParams(p)
      modifies this
      ensures State() == Step(p, sin, old(State()), tauCommand)
      ensures old(tipped) ==> unchanged(this)
      ensures tipped == (old(tipped) || Abs(theta) > p.maxAngle)
      ensures !old(tipped) ==> thetaDot == old(thetaDot) + AngularAcceleration(p, sin, old(theta), tauCommand) * p.dt
      ensures !old(tipped) ==> theta == old(theta) + thetaDot * p.dt
      ensures !old(tipped) ==> time == old(time) + p.dt
    {
      ghost var before := State();
      if !tipped {
        var tauGravity := GravityTorque(p, sin, theta);
        var tauCorrective := tauCommand;
        if Abs(tauCorrective) > p.maxWheelTorque {
          tauCorrective := CopySign(p.maxWheelTorque, tauCorrective);
        }
        assert tauCorrective == Clamp(tauCommand, p.maxWheelTorque);
        var tauNet := tauGravity + tauCorrective;
        var thetaDoubleDot := tauNet / Inertia(p);
        assert thetaDoubleDot == AngularAcceleration(p, sin, before.theta, tauCommand);
        thetaDot := thetaDot + thetaDoubleDot * p.dt;
        theta := theta + thetaDot * p.dt;
        if Abs(theta) > p.maxAngle {
          tipped := true;
        }
        time := time + p.dt;
        assert State() == Step(p, sin, before, tauCommand);
      }
    }

    /** The `while running` loop, one tick per element of `commands`. */
    method RunTicks(commands: seq<real>)
      requires ValidParams(p)
      modifies this
      ensures State() == Run(p, sin, old(State()), commands)
    {
      for i := 0 to |commands|
        invariant State() == Run(p, sin, old(State()), commands[..i])
      {
        Tick(commands[i]);
        assert commands[..i + 1] == commands[..i] + [commands[i]];
        RunAppend(p, sin, old(State()), commands[..i], [commands[i]]);
      }
      assert commands[..|commands|] == commands;
    }
  }
}
