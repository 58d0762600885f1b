/** The PID controller: an exponentially smoothed measurement, a hard-clamped
    integral, the smoothed derivative of the smoothed measurement, and a
    feed-forward term on the rate of change of the setpoint.
    The wall clock becomes an explicit time step `dt`, which must be positive
    because the derivative and feed-forward terms divide by it. */
module PidModel {
  import opened Numeric

  /** The fixed scale-down applied to the integral term of the output. */
  const IntegralScale: real := 0.1

  /** The tunable gains, limit and smoothing factors. */
  datatype Gains = Gains(
    Kp: real,
    Ki: real,
    Kd: real,
    kFF: real,
    integralLimit: real,
    derivativeEMASmooth: real,
    measurementEMASmooth: real)

  /** The state carried from one `update` call to the next. */
  datatype Memory = Memory(
    integral: real,
    previousMeasurement: real,
    previousDerivative: real,
    previousSetpoint: real)

  /** The inputs of one `update` call. */
  datatype Sample = Sample(measuredValue: real, setpoint: real, dt: real)

  /** Exponential moving average: weight `1 - alpha` on the new value `x`,
      weight `alpha` on the previous smoothed value. */
  function Ema(x: real, prev: real, alpha: real): (r: real)
    ensures alpha == 0.0 ==> r == x
    ensures alpha == 1.0 ==> r == prev
    ensures x == prev ==> r == x
  {
    x * (1.0 - alpha) + prev * alpha
  }

  /** With a weight in [0, 1] the average lies between its two inputs. */
  lemma EmaBetween(x: real, prev: real, alpha: real)
    ensures 0.0 <= alpha <= 1.0 ==> Min(x, prev) <= Ema(x, prev, alpha) <= Max(x, prev)
  {
    var r := Ema(x, prev, alpha);
    assert r - x == alpha * (prev - x);
    assert prev - r == (1.0 - alpha) * (prev - x);
    if 0.0 <= alpha <= 1.0 {
      if x <= prev {
        MulNonNegative(alpha, prev - x);
        MulNonNegative(1.0 - alpha, prev - x);
      } else {
        MulNonNegative(alpha, x - prev);
        MulNonNegative(1.0 - alpha, x - prev);
      }
    }
  }

  /** Change per unit time: the derivative and the feed-forward term. */
  function Rate(now: real, before: real, dt: real): (r: real)
    requires 0.0 < dt
    ensures r * dt == now - before
    ensures now == before ==> r == 0.0
  {
    (now - before) / dt
  }

  /** The rate is positive exactly when the value rose. */
  lemma RateSign(now: real, before: real, dt: real)
    requires 0.0 < dt
    ensures 0.0 < Rate(now, before, dt) <==> before < now
  {
    var r := Rate(now, before, dt);
    if 0.0 < r {
      MulPositive(r, dt);
    } else {
      MulMonotone(r, 0.0, dt);
    }
  }

  /** The state after one `update`. */
  function Next(g: Gains, s: Memory, input: Sample): (r: Memory)
    requires 0.0 < input.dt
    ensures r.previousSetpoint == input.setpoint
    ensures 0.0 <= g.integralLimit ==> -g.integralLimit <= r.integral <= g.integralLimit
    ensures g.measurementEMASmooth == 0.0 ==> r.previousMeasurement == input.measuredValue
    ensures 0.0 <= g.measurementEMASmooth <= 1.0 ==>
      Min(input.measuredValue, s.previousMeasurement) <= r.previousMeasurement
                                                      <= Max(input.measuredValue, s.previousMeasurement)
    ensures Ema(input.measuredValue, s.previousMeasurement, g.measurementEMASmooth) == s.previousMeasurement ==>
      r.previousMeasurement == s.previousMeasurement &&
      r.previousDerivative == g.derivativeEMASmooth * s.previousDerivative
  {
    EmaBetween(input.measuredValue, s.previousMeasurement, g.measurementEMASmooth);
    var measured := Ema(input.measuredValue, s.previousMeasurement, g.measurementEMASmooth);
    var integral := Clamp(s.integral + (input.setpoint - measured) * input.dt,
                          -g.integralLimit, g.integralLimit);
    var derivative := Ema(Rate(measured, s.previousMeasurement, input.dt),
                          s.previousDerivative, g.derivativeEMASmooth);
    Memory(integral, measured, derivative, input.setpoint)
  }

  /** The output formula: proportional, scaled integral, derivative and
      feed-forward terms. */
  function Combine(g: Gains, error: real, integral: real, derivative: real, ff: real): (r: real)
  {
    g.Kp * error + g.Ki * integral * IntegralScale - g.Kd * derivative + g.kFF * ff
  }

  /** The value `update` returns: the output formula on the error against the
      new smoothed measurement, the clamped integral, the new smoothed
      derivative and the setpoint rate. */
  function Response(g: Gains, s: Memory, input: Sample): (r: real)
    requires 0.0 < input.dt
  {
    var n := Next(g, s, input);
    Combine(g, input.setpoint - n.previousMeasurement, n.integral, n.previousDerivative,
            Rate(input.setpoint, s.previousSetpoint, input.dt))
  }

  /** With the setpoint unchanged the feed-forward term contributes nothing. */
  lemma SteadySetpointNoFeedForward(g: Gains, s: Memory, input: Sample)
    requires 0.0 < input.dt
    requires input.setpoint == s.previousSetpoint
    ensures var n := Next(g, s, input);
            Response(g, s, input)
              == g.Kp * (input.setpoint - n.previousMeasurement) + g.Ki * n.integral * IntegralScale
                 - g.Kd * n.previousDerivative
  {
  }

  /** Anti-windup: because the integral is clamped before it enters the
      output, the integral term's contribution to the output never exceeds
      |Ki| |integralLimit| scaled by 0.1, however long the error lasts. With
      a negative limit the clamp's bounds cross and the integral is pinned
      at -integralLimit. */
  lemma IntegralTermBounded(g: Gains, s: Memory, input: Sample)
    requires 0.0 < input.dt
    ensures Abs(g.Ki * Next(g, s, input).integral * IntegralScale)
         <= Abs(g.Ki) * Abs(g.integralLimit) * IntegralScale
  {
    var x := IntegralBeforeClamp(g, s, input);
    ClampSymmetric(x, g.integralLimit);
    TermBound(g.Ki, Next(g, s, input).integral, g.integralLimit, IntegralScale);
  }

  /** The new integral is the clamp of the accumulated one. */
  lemma IntegralBeforeClamp(g: Gains, s: Memory, input: Sample) returns (x: real)
    requires 0.0 < input.dt
    ensures Next(g, s, input).integral == Clamp(x, -g.integralLimit, g.integralLimit)
  {
    var measured := Ema(input.measuredValue, s.previousMeasurement, g.measurementEMASmooth);
    x := s.integral + (input.setpoint - measured) * input.dt;
  }

  /** A gain times a value bounded by |limit|, times a positive scale, is
      bounded by |gain| |limit| times that scale. */
  lemma TermBound(k: real, i: real, limit: real, c: real)
    requires Abs(i) <= Abs(limit) && 0.0 < c
    ensures Abs(k * i * c) <= Abs(k) * Abs(limit) * c
  {
    ScaledMagnitude(k, i, c);
    MulMonotone(Abs(i), Abs(limit), Abs(k) * c);
  }

  /** Clamping to [-limit, limit] bounds the magnitude by |limit|, also when
      a negative limit crosses the bounds. */
  lemma ClampSymmetric(x: real, limit: real)
    ensures Abs(Clamp(x, -limit, limit)) <= Abs(limit)
  {
  }

  /** |k i c| == |i| (|k| c) for a positive scale c. */
  lemma ScaledMagnitude(k: real, i: real, c: real)
    requires 0.0 < c
    ensures Abs(k * i * c) == Abs(i) * (Abs(k) * c)
  {
    if k < 0.0 && i < 0.0 {
      assert k * i * c == (-k) * (-i) * c;
    } else if k < 0.0 {
      assert -(k * i * c) == i * ((-k) * c);
    } else if i < 0.0 {
      assert -(k * i * c) == (-i) * (k * c);
    }
    assert 0.0 <= Abs(i) * (Abs(k) * c) by {
      MulNonNegative(Abs(k), c);
      MulNonNegative(Abs(i), Abs(k) * c);
    }
  }

  /** The derivative is taken on the measurement, not on the error: the
      setpoint has no influence on the smoothed measurement or derivative. */
  lemma NoDerivativeKick(g: Gains, s: Memory, measuredValue: real, sp1: real, sp2: real, dt: real)
    requires 0.0 < dt
    ensures Next(g, s, Sample(measuredValue, sp1, dt)).previousMeasurement
         == Next(g, s, Sample(measuredValue, sp2, dt)).previousMeasurement
    ensures Next(g, s, Sample(measuredValue, sp1, dt)).previousDerivative
         == Next(g, s, Sample(measuredValue, sp2, dt)).previousDerivative
  {
  }

  /** With only the proportional gain and no measurement smoothing, the
      output is Kp times the raw error. */
  lemma ProportionalOnly(g: Gains, s: Memory, input: Sample)
    requires 0.0 < input.dt
    requires g.Ki == 0.0 && g.Kd == 0.0 && g.kFF == 0.0 && g.measurementEMASmooth == 0.0
    ensures Response(g, s, input) == g.Kp * (input.setpoint - input.measuredValue)
  {
  }

  /** A pure proportional controller without measurement smoothing, reset to
      (0, 0), answers measurement 5 and setpoint 10 with 5, whatever the
      integral limit, derivative smoothing and previous derivative. */
  lemma ProportionalScenario(limit: real, derivativeEMASmooth: real, previousDerivative: real)
    ensures Response(Gains(1.0, 0.0, 0.0, 0.0, limit, derivativeEMASmooth, 0.0),
                     Memory(0.0, 0.0, previousDerivative, 0.0),
                     Sample(5.0, 10.0, 1.0)) == 5.0
  {
  }

  /** One call whose smoothed measurement stays at its previous value (a raw
      value equal to it, or any raw value when measurementEMASmooth is 1)
      multiplies the smoothed derivative by the smoothing factor, so with a
      factor in [0, 1) its magnitude strictly shrinks, or stays 0. */
  lemma HeldMeasurementDamps(g: Gains, s: Memory, input: Sample)
    requires 0.0 < input.dt
    requires Ema(input.measuredValue, s.previousMeasurement, g.measurementEMASmooth) == s.previousMeasurement
    requires 0.0 <= g.derivativeEMASmooth < 1.0
    ensures s.previousDerivative == 0.0 ==> Next(g, s, input).previousDerivative == 0.0
    ensures s.previousDerivative != 0.0 ==>
      Abs(Next(g, s, input).previousDerivative) < Abs(s.previousDerivative)
  {
    if s.previousDerivative != 0.0 {
      Shrink(g.derivativeEMASmooth, s.previousDerivative, Next(g, s, input).previousDerivative);
    }
  }

  /** A factor in [0, 1) strictly shrinks any nonzero value. */
  lemma Shrink(a: real, d: real, r: real)
    requires 0.0 <= a < 1.0 && d != 0.0
    requires r == a * d
    ensures Abs(r) < Abs(d)
  {
    var m := Abs(d);
    MulNonNegative(a, m);
    MulPositive(1.0 - a, m);
    assert m - a * m == (1.0 - a) * m;
    assert Abs(r) == a * m by {
      if d < 0.0 { assert a * m == -(a * d); }
    }
  }

  // ---------------------------------------------------------------------------
  // Sequences of updates

  ghost predicate PositiveSteps(inputs: seq<Sample>)
  {
    forall i | 0 <= i < |inputs| :: 0.0 < inputs[i].dt
  }

  /** The state after running `update` on every sample in turn, gains fixed. */
  function Run(g: Gains, s: Memory, inputs: seq<Sample>): (r: Memory)
    requires PositiveSteps(inputs)
    decreases |inputs|
  {
    if inputs == [] then s else Run(g, Next(g, s, inputs[0]), inputs[1..])
  }

  /** The integral never leaves [-integralLimit, integralLimit] once inside. */
  lemma {:induction false} RunKeepsIntegralBounded(g: Gains, s: Memory, inputs: seq<Sample>)
    requires PositiveSteps(inputs)
    requires 0.0 <= g.integralLimit
    requires -g.integralLimit <= s.integral <= g.integralLimit
    ensures -g.integralLimit <= Run(g, s, inputs).integral <= g.integralLimit
    decreases |inputs|
  {
    if inputs != [] {
      RunKeepsIntegralBounded(g, Next(g, s, inputs[0]), inputs[1..]);
    }
  }

  function Pow(a: real, n: nat): (r: real)
  {
    if n == 0 then 1.0 else a * Pow(a, n - 1)
  }

  /** The smoothed derivative after n calls whose raw derivative is 0:
      each call multiplies it by the smoothing factor `a`. */
  function Decay(a: real, n: nat, d: real): (r: real)
  {
    if n == 0 then d else Decay(a, n - 1, a * d)
  }

  /** Decay is a power of the smoothing factor: Decay(a, n, d) == a^n d. */
  lemma {:induction false} DecayIsPow(a: real, n: nat, d: real)
    ensures Decay(a, n, d) == Pow(a, n) * d
  {
    if n > 0 {
      DecayIsPow(a, n - 1, a * d);
      MoveFactor(Pow(a, n - 1), a, d, Pow(a, n), a * d);
    }
  }

  /** p (a d) == (a p) d, with both products named so that callers need not
      rewrite inside a product. */
  lemma MoveFactor(p: real, a: real, d: real, q: real, e: real)
    requires q == a * p && e == a * d
    ensures p * e == q * d
  {
  }

  /** While every sample leaves the smoothed measurement at its previous
      value, that value never moves and the smoothed derivative decays
      geometrically: after n calls it is derivativeEMASmooth^n times what it was. */
  lemma {:induction false} HeldMeasurementDecay(g: Gains, s: Memory, inputs: seq<Sample>)
    requires PositiveSteps(inputs)
    requires forall i | 0 <= i < |inputs| ::
      Ema(inputs[i].measuredValue, s.previousMeasurement, g.measurementEMASmooth) == s.previousMeasurement
    ensures Run(g, s, inputs).previousMeasurement == s.previousMeasurement
    ensures Run(g, s, inputs).previousDerivative
         == Decay(g.derivativeEMASmooth, |inputs|, s.previousDerivative)
    decreases |inputs|
  {
    if inputs != [] {
      var s' := Next(g, s, inputs[0]);
      var rest := inputs[1..];
      assert forall i | 0 <= i < |rest| :: rest[i] == inputs[i + 1];
      HeldMeasurementDecay(g, s', rest);
    }
  }

  /** With a smoothing factor in [0, 1), the held-measurement derivative
      Decay(a, n, d) falls below any eps > 0 once n (1 - a) eps reaches |d|;
      with HeldMeasurementDecay this bounds the smoothed derivative of a run. */
  lemma DecaySettles(a: real, n: nat, d: real, eps: real)
    requires 0.0 <= a < 1.0 && 0.0 < eps
    requires Abs(d) <= n as real * (1.0 - a) * eps
    ensures Abs(Decay(a, n, d)) < eps
  {
    DecayBound(a, n, d);
    MulNonNegative(n as real, 1.0 - a);
    SettleBound(Abs(Decay(a, n, d)), Abs(d), n as real * (1.0 - a), eps);
  }

  /** For a factor in [0, 1), |Decay(a, n, d)| never exceeds |d| and
      |Decay(a, n, d)| (1 + n (1 - a)) <= |d|. */
  lemma {:induction false} DecayBound(a: real, n: nat, d: real)
    requires 0.0 <= a < 1.0
    ensures Abs(Decay(a, n, d)) <= Abs(d)
    ensures Abs(Decay(a, n, d)) * (1.0 + n as real * (1.0 - a)) <= Abs(d)
  {
    if n > 0 {
      DecayBound(a, n - 1, a * d);
      DecayBoundStep(a, d, Abs(a * d), Abs(Decay(a, n, d)), (n - 1) as real);
    }
  }

  /** The inductive step of DecayBound on plain reals: with x <= |a d| and
      x (1 + m (1 - a)) <= |a d|, also x <= |d| and x (1 + (m + 1)(1 - a)) <= |d|. */
  lemma DecayBoundStep(a: real, d: real, ad: real, x: real, m: real)
    requires 0.0 <= a < 1.0 && 0.0 <= m && 0.0 <= x
    requires ad == Abs(a * d)
    requires x <= ad && x * (1.0 + m * (1.0 - a)) <= ad
    ensures x <= Abs(d)
    ensures x * (1.0 + (m + 1.0) * (1.0 - a)) <= Abs(d)
  {
    assert ad == a * Abs(d) by {
      if d < 0.0 { assert a * d == -(a * Abs(d)); }
    }
    MulMonotone(a, 1.0, Abs(d));
    MulMonotone(x, Abs(d), 1.0 - a);
    assert x * (1.0 + (m + 1.0) * (1.0 - a)) == x * (1.0 + m * (1.0 - a)) + x * (1.0 - a);
    assert a * Abs(d) + Abs(d) * (1.0 - a) == Abs(d);
  }

  /** The arithmetic behind DecaySettles: x (1 + k) <= D <= k eps forces x < eps. */
  lemma SettleBound(x: real, D: real, k: real, eps: real)
    requires 0.0 <= x && 0.0 <= k && 0.0 < eps
    requires x * (1.0 + k) <= D && D <= k * eps
    ensures x < eps
  {
    assert x * (1.0 + k) == x + x * k;
    if eps <= x {
      MulMonotone(eps, x, k);
    }
  }

  // ---------------------------------------------------------------------------
  // The controller object

  class PID {
    var Kp: real
    var Ki: real
    var Kd: real
    var kFF: real
    var integralLimit: real
    var derivativeEMASmooth: real
    var measurementEMASmooth: real
    var integral: real
    var previousMeasurement: real
    var previousDerivative: real
    var previousSetpoint: real

    function Config(): Gains
      reads this`Kp, this`Ki, this`Kd, this`kFF, this`integralLimit,
            this`derivativeEMASmooth, this`measurementEMASmooth
    {
      Gains(Kp, Ki, Kd, kFF, integralLimit, derivativeEMASmooth, measurementEMASmooth)
    }

    function State(): Memory
      reads this`integral, this`previousMeasurement, this`previousDerivative, this`previousSetpoint
    {
      Memory(integral, previousMeasurement, previousDerivative, previousSetpoint)
    }

    constructor (Kp: real, Ki: real, Kd: real, kFF: real, integralLimit: real,
                 derivativeEMASmooth: real, measurementEMASmooth: real)
      ensures Config() == Gains(Kp, Ki, Kd, kFF, integralLimit, derivativeEMASmooth, measurementEMASmooth)
      ensures State() == Memory(0.0, 0.0, 0.0, 0.0)
    {
      this.Kp := Kp;
      this.Ki := Ki;
      this.Kd := Kd;
      this.kFF := kFF;
      this.integralLimit := integralLimit;
      this.derivativeEMASmooth := derivativeEMASmooth;
      this.measurementEMASmooth := measurementEMASmooth;
      integral := 0.0;
      previousMeasurement := 0.0;
      previousDerivative := 0.0;
      previousSetpoint := 0.0;
    }

    /** Zero the integral and seed the previous measurement and setpoint; the
        smoothed derivative and the gains are kept. */
    method Reset(previousMeasurement: real := 0.0, previousSetpoint: real := 0.0)
      modifies this`integral, this`previousMeasurement, this`previousSetpoint
      ensures integral == 0.0
      ensures this.previousMeasurement == previousMeasurement
      ensures this.previousSetpoint == previousSetpoint
    {
      integral := 0.0;
      this.previousMeasurement := previousMeasurement;
      this.previousSetpoint := previousSetpoint;
    }

    /** One control step `dt` seconds after the previous one. */
    method Update(measuredValue: real, setpoint: real, dt: real) returns (output: real)
      requires 0.0 < dt
      modifies this`integral, this`previousMeasurement, this`previousDerivative, this`previousSetpoint
      ensures State() == Next(Config(), old(State()), Sample(measuredValue, setpoint, dt))
      ensures output == Response(Config(), old(State()), Sample(measuredValue, setpoint, dt))
    {
      ghost var next := Next(Config(), State(), Sample(measuredValue, setpoint, dt));
      ghost var response := Response(Config(), State(), Sample(measuredValue, setpoint, dt));
      var measured := Ema(measuredValue, previousMeasurement, measurementEMASmooth);
      assert measured == next.previousMeasurement;
      var error := setpoint - measured;

      integral := integral + error * dt;
      integral := Clamp(integral, -integralLimit, integralLimit);
      assert integral == next.integral;

      var derivative := Rate(measured, previousMeasurement, dt);
      var smoothedDerivative := Ema(derivative, previousDerivative, derivativeEMASmooth);
      assert smoothedDerivative == next.previousDerivative;

      previousDerivative := smoothedDerivative;

      var ff := Rate(setpoint, previousSetpoint, dt);
      output := Combine(Config(), error, integral, smoothedDerivative, ff);
      assert output == response;

      previousMeasurement := measured;
      previousSetpoint := setpoint;
    }
  }
}
