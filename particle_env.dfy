/** The 2-D point-particle environment: gravity, a one-sided floor spring,
    friction and an actuator force, integrated by semi-implicit Euler, observed
    through a noisy sensor quantised to 0.1, inside an open box.
    The wall clock becomes an explicit time step `dt` and the two Gaussian
    sensor draws become an explicit `noise` vector. */
module ParticleEnvModel {
  import opened Numeric

  datatype Option<T> = None | Some(value: T)

  /** A two-element `[x, y]` array, as a value. */
  datatype Vec2 = Vec2(x: real, y: real)

  function Add(a: Vec2, b: Vec2): (r: Vec2)
  {
    Vec2(a.x + b.x, a.y + b.y)
  }

  function Scale(a: Vec2, c: real): (r: Vec2)
  {
    Vec2(a.x * c, a.y * c)
  }

  /** The physical constants the environment's constructor sets. */
  datatype Params = Params(
    gravity: real,
    mass: real,
    radius: real,
    k: real,          // spring constant
    mu: real,         // friction coefficient
    edge: real,       // half-width of the box
    minThrust: real,
    maxThrust: real)

  const DefaultParams: Params := Params(
    gravity := 9.8, mass := 0.6, radius := 1.0, k := 100.0, mu := 0.0,
    edge := 10.0, minThrust := 0.1 * 9.8, maxThrust := 1.5 * 9.8)

  const MaxHistorySize: nat := 100

  // ---------------------------------------------------------------------------
  // Actuator clamping and the bounded action history

  /** The action as `step` uses it: the vertical thrust clamped to
      [minThrust, maxThrust], the horizontal force passed through. */
  function ClampAction(p: Params, a: Vec2): (r: Vec2)
    ensures r.x == a.x
    ensures p.minThrust <= r.y
    ensures p.minThrust <= p.maxThrust ==> r.y <= p.maxThrust
    ensures p.minThrust <= a.y <= p.maxThrust ==> r.y == a.y
    ensures a.y < p.minThrust ==> r.y == p.minThrust
    ensures p.minThrust <= p.maxThrust < a.y ==> r.y == p.maxThrust
  {
    Vec2(a.x, Clamp(a.y, p.minThrust, p.maxThrust))
  }

  /** Push `v` and, if the history then exceeds `cap`, shift out the oldest entry. */
  function PushBounded(h: seq<real>, v: real, cap: nat): (r: seq<real>)
    ensures |h| <= cap ==> |r| <= cap
    ensures |r| == if |h| < cap then |h| + 1 else |h|
    ensures |r| > 0 ==> r[|r| - 1] == v
    ensures forall j | 0 <= j < |r| - 1 :: r[j] == h[|h| + 1 - |r| + j]
  {
    var pushed := h + [v];
    if |pushed| > cap then pushed[1..] else pushed
  }

  /** Below capacity nothing is evicted; at capacity exactly the oldest entry is. */
  lemma PushBoundedEvictsOnlyOldest(h: seq<real>, v: real, cap: nat)
    ensures |h| < cap ==> PushBounded(h, v, cap) == h + [v]
    ensures 0 < |h| && cap <= |h| ==> PushBounded(h, v, cap) == h[1..] + [v]
  {
  }

  /** The history after pushing every value of `vs` in turn. */
  function History(h: seq<real>, vs: seq<real>, cap: nat): (r: seq<real>)
    decreases |vs|
  {
    if vs == [] then h else PushBounded(History(h, vs[..|vs| - 1], cap), vs[|vs| - 1], cap)
  }

  /** Starting from a history within capacity, any sequence of pushes leaves
      min(|h| + |vs|, cap) values ... */
  lemma {:induction false} HistoryLength(h: seq<real>, vs: seq<real>, cap: nat)
    requires |h| <= cap
    ensures |History(h, vs, cap)| == if |h| + |vs| < cap then |h| + |vs| else cap
    decreases |vs|
  {
    if vs != [] {
      HistoryLength(h, vs[..|vs| - 1], cap);
    }
  }

  /** ... and those values are the latest ones: counting back from the
      newest, the i-th entry of the history is the i-th latest value pushed,
      reaching back into the starting history once `vs` is exhausted. */
  lemma {:induction false} HistoryHoldsLatest(h: seq<real>, vs: seq<real>, cap: nat, i: nat)
    requires i < |History(h, vs, cap)|
    ensures i < |h| + |vs|
    ensures History(h, vs, cap)[|History(h, vs, cap)| - 1 - i]
         == if i < |vs| then vs[|vs| - 1 - i] else h[|h| + |vs| - 1 - i]
    decreases |vs|
  {
    if vs != [] {
      var front, v := vs[..|vs| - 1], vs[|vs| - 1];
      var p := History(h, front, cap);
      var r := PushBounded(p, v, cap);
      assert History(h, vs, cap) == r;
      if i == 0 {
        assert r[|r| - 1] == v;
      } else {
        HistoryHoldsLatest(h, front, cap, i - 1);
        assert r[|r| - 1 - i] == p[|p| - 1 - (i - 1)];
        if i < |vs| {
          assert front[|front| - 1 - (i - 1)] == vs[|vs| - 1 - i];
        }
      }
    }
  }

  // ---------------------------------------------------------------------------
  // Forces and integration

  /** The floor spring: k times the penetration depth while the particle is
      below `radius`, and absent otherwise. */
  function Spring(p: Params, y: real): (s: real)
  {
    if y < p.radius then p.k * (p.radius - y) else 0.0
  }

  /** The spring is one-sided: it vanishes at or above `radius`. With a
      non-negative spring constant it never pulls the particle down, and it
      pushes up strictly whenever the particle is below `radius`. */
  lemma SpringPushesUp(p: Params, y: real)
    ensures p.radius <= y ==> Spring(p, y) == 0.0
    ensures 0.0 <= p.k ==> 0.0 <= Spring(p, y)
    ensures 0.0 < p.k && y < p.radius ==> 0.0 < Spring(p, y)
  {
    if y < p.radius {
      MulSign(p.k, p.radius - y);
    }
  }

  /** Deeper penetration gives a proportionally larger restoring force. */
  lemma SpringLinearInDepth(p: Params, y1: real, y2: real)
    requires y1 < p.radius && y2 < p.radius
    ensures Spring(p, y1) - Spring(p, y2) == p.k * (y2 - y1)
    ensures 0.0 < p.k && y1 < y2 ==> Spring(p, y2) < Spring(p, y1)
  {
    if 0.0 < p.k && y1 < y2 {
      assert p.k * (y2 - y1) > 0.0;
    }
  }

  /** Net force: gravity, the floor spring, friction against the velocity, and
      the (already clamped) action. */
  function NetForce(p: Params, pos: Vec2, vel: Vec2, a: Vec2): (r: Vec2)
  {
    Vec2(a.x - p.mu * vel.x,
         -p.gravity * p.mass + Spring(p, pos.y) - p.mu * vel.y + a.y)
  }

  function Acceleration(p: Params, f: Vec2): (r: Vec2)
    requires p.mass != 0.0
  {
    Vec2(f.x / p.mass, f.y / p.mass)
  }

  /** The action enters the net force unchanged: two actions applied in the
      same state give forces that differ by exactly the actions' difference. */
  lemma ActionEntersForceUnchanged(p: Params, pos: Vec2, vel: Vec2, a: Vec2, b: Vec2)
    ensures NetForce(p, pos, vel, a).x - NetForce(p, pos, vel, b).x == a.x - b.x
    ensures NetForce(p, pos, vel, a).y - NetForce(p, pos, vel, b).y == a.y - b.y
  {
  }

  /** Newton's second law: the acceleration times the mass is the force. */
  lemma AccelerationTimesMass(p: Params, f: Vec2)
    requires p.mass != 0.0
    ensures Scale(Acceleration(p, f), p.mass) == f
  {
  }

  /** Semi-implicit Euler moves the position by the old velocity plus the
      acceleration times dt squared; a zero step moves nothing. */
  lemma SemiImplicitDisplacement(pos: Vec2, vel: Vec2, acc: Vec2, dt: real)
    ensures Add(pos, Scale(Add(vel, Scale(acc, dt)), dt))
         == Vec2(pos.x + vel.x * dt + acc.x * dt * dt, pos.y + vel.y * dt + acc.y * dt * dt)
    ensures dt == 0.0 ==> Add(vel, Scale(acc, dt)) == vel && Add(pos, Scale(vel, dt)) == pos
  {
  }

  // ---------------------------------------------------------------------------
  // Observation and termination

  /** Math.round(v * 10) / 10: the multiple of 0.1 nearest to `v`, halves up. */
  function Quantise(v: real): (q: real)
    ensures (q * 10.0).Floor as real == q * 10.0
    ensures v - 0.05 < q <= v + 0.05
  {
    Round(v * 10.0) as real / 10.0
  }

  /** The two facts above pin the quantised value down: any multiple of 0.1
      within (v - 0.05, v + 0.05] is Quantise(v). */
  lemma QuantiseUnique(v: real, q: real)
    requires (q * 10.0).Floor as real == q * 10.0
    requires v - 0.05 < q <= v + 0.05
    ensures q == Quantise(v)
  {
    var n := (q * 10.0).Floor;
    RoundUnique(v * 10.0, n);
  }

  /** Quantising an already quantised reading changes nothing. */
  lemma QuantiseIdempotent(v: real)
    ensures Quantise(Quantise(v)) == Quantise(v)
  {
    QuantiseUnique(Quantise(v), Quantise(v));
  }

  /** The sensor reading: position plus noise, each axis quantised to 0.1. */
  function Observe(pos: Vec2, noise: Vec2): (r: Vec2)
  {
    Vec2(Quantise(pos.x + noise.x), Quantise(pos.y + noise.y))
  }

  /** The episode ends when the particle is not strictly inside
      (-edge, edge) x (0, 2 edge); the boundary itself counts as out. */
  function Done(p: Params, pos: Vec2): (d: bool)
    ensures d <==> pos.x <= -p.edge || p.edge <= pos.x || pos.y <= 0.0 || 2.0 * p.edge <= pos.y
  {
    !(pos.x > -p.edge && pos.x < p.edge && pos.y > 0.0 && pos.y < 2.0 * p.edge)
  }

  // ---------------------------------------------------------------------------
  // The environment object

  class ParticleEnv {
    const params: Params := DefaultParams
    const maxHistorySize: nat := MaxHistorySize
    const sensorStd: real
    var dt: Option<real>
    var position: Vec2
    var velocity: Vec2
    var action: Option<Vec2>
    var force: Option<Vec2>
    var actionHistory: seq<real>

    ghost predicate Valid()
      reads this`actionHistory
    {
      |actionHistory| <= maxHistorySize
    }

    constructor (sensorStd: real)
      ensures Valid()
      ensures this.sensorStd == sensorStd
      ensures dt == None && action == None && force == None
      ensures position == Vec2(0.0, 0.0) && velocity == Vec2(0.0, 0.0)
      ensures actionHistory == []
    {
      this.sensorStd := sensorStd;
      dt := None;
      position := Vec2(0.0, 0.0);
      velocity := Vec2(0.0, 0.0);
      action := None;
      force := None;
      actionHistory := [];
    }

    /** Put the particle at rest at `initPosition`, or at height 2 radius above
        the origin; the action history is kept. */
    method Reset(noise: Vec2, initPosition: Option<Vec2> := None) returns (obs: Vec2)
      modifies this`position, this`velocity
      ensures position == if initPosition.Some? then initPosition.value else Vec2(0.0, 2.0 * params.radius)
      ensures velocity == Vec2(0.0, 0.0)
      ensures obs == Observe(position, noise)
    {
      position := Vec2(0.0, params.radius * 2.0);
      if initPosition.Some? {
        position := initPosition.value;
      }
      velocity := Vec2(0.0, 0.0);
      obs := GetObs(noise);
    }

    /** Advance the particle by one step of length `dt` under `action`. */
    method Step(action: Vec2, dt: real, noise: Vec2) returns (obs: Vec2, done: bool)
      requires Valid()
      modifies this`dt, this`action, this`actionHistory, this`force, this`velocity, this`position
      ensures Valid()
      ensures this.dt == Some(dt)
      ensures this.action == Some(ClampAction(params, action))
      ensures actionHistory == PushBounded(old(actionHistory), ClampAction(params, action).y, maxHistorySize)
      ensures force == Some(NetForce(params, old(position), old(velocity), ClampAction(params, action)))
      ensures velocity == Add(old(velocity), Scale(Acceleration(params, force.value), dt))
      ensures position == Add(old(position), Scale(velocity, dt))
      ensures obs == Observe(position, noise)
      ensures done == Done(params, position)
    {
      this.dt := Some(dt);
      var a := Vec2(action.x, Max(Min(action.y, params.maxThrust), params.minThrust));
      assert a == ClampAction(params, action);
      this.action := Some(a);
      actionHistory := actionHistory + [a.y];
      if |actionHistory| > maxHistorySize {
        actionHistory := actionHistory[1..];
      }
      ghost var spring := Spring(params, position.y);
      var forceX, forceY := 0.0, -params.gravity * params.mass;
      if position.y < params.radius {
        forceY := forceY - params.k * (position.y - params.radius);
      }
      assert forceY == -params.gravity * params.mass + spring;
      forceX := forceX - params.mu * velocity.x;
      forceY := forceY - params.mu * velocity.y;
      forceX := forceX + a.x;
      forceY := forceY + a.y;
      assert Vec2(forceX, forceY) == NetForce(params, old(position), old(velocity), a);
      var f := Vec2(forceX, forceY);
      force := Some(f);
      var acceleration := Acceleration(params, f);
      velocity := Add(velocity, Scale(acceleration, dt));
      position := Add(position, Scale(velocity, dt));
      obs := GetObs(noise);
      done := !(position.x > -params.edge && position.x < params.edge &&
                position.y > 0.0 && position.y < 2.0 * params.edge);
    }

    /** The noisy, quantised reading of the current position. */
    method GetObs(noise: Vec2) returns (obs: Vec2)
      ensures obs == Observe(position, noise)
    {
      var noisyX := position.x + noise.x;
      var noisyY := position.y + noise.y;
      obs := Vec2(Round(noisyX * 10.0) as real / 10.0, Round(noisyY * 10.0) as real / 10.0);
    }
  }

  // ---------------------------------------------------------------------------
  // Worked scenarios (exact reals, sensor noise zero)

  const TestParams: Params := Params(
    gravity := 9.8, mass := 1.0, radius := 1.0, k := 100.0, mu := 0.0,
    edge := 10.0, minThrust := 0.1 * 9.8, maxThrust := 1.5 * 9.8)

  /** Free fall from (0, 2) with a zero command: the clamp raises the thrust
      to minThrust = 0.98, so the net force and acceleration are -8.82; the
      height 1.9118 reached below is still inside the box. */
  lemma FallFromRestForce()
    ensures ClampAction(TestParams, Vec2(0.0, 0.0)) == Vec2(0.0, 0.98)
    ensures NetForce(TestParams, Vec2(0.0, 2.0), Vec2(0.0, 0.0), Vec2(0.0, 0.98)) == Vec2(0.0, -8.82)
    ensures Acceleration(TestParams, Vec2(0.0, -8.82)) == Vec2(0.0, -8.82)
    ensures !Done(TestParams, Vec2(0.0, 1.9118))
  {
    SpringPushesUp(TestParams, 2.0);
    assert TestParams.minThrust == 0.98;
    assert TestParams.gravity * TestParams.mass == 9.8;
  }

  /** The same fall carried through one step of 0.1 s from the start state:
      the velocity becomes (0, -0.882) and, moved by that updated velocity,
      the particle reaches (0, 1.9118). */
  lemma FallFromRestStep()
    ensures var f := NetForce(TestParams, Vec2(0.0, 2.0), Vec2(0.0, 0.0),
                              ClampAction(TestParams, Vec2(0.0, 0.0)));
            var v := Add(Vec2(0.0, 0.0), Scale(Acceleration(TestParams, f), 0.1));
            v == Vec2(0.0, -0.882) && Add(Vec2(0.0, 2.0), Scale(v, 0.1)) == Vec2(0.0, 1.9118)
  {
    FallFromRestForce();
    var f := NetForce(TestParams, Vec2(0.0, 2.0), Vec2(0.0, 0.0), ClampAction(TestParams, Vec2(0.0, 0.0)));
    assert f == Vec2(0.0, -8.82);
    FallVelocity(f);
    FallPosition(Vec2(0.0, -0.882));
  }

  /** The velocity update of that step, for the force the fall produces. */
  lemma FallVelocity(f: Vec2)
    requires f == Vec2(0.0, -8.82)
    ensures Add(Vec2(0.0, 0.0), Scale(Acceleration(TestParams, f), 0.1)) == Vec2(0.0, -0.882)
  {
  }

  /** The position update of that step, for the velocity it produces. */
  lemma FallPosition(v: Vec2)
    requires v == Vec2(0.0, -0.882)
    ensures Add(Vec2(0.0, 2.0), Scale(v, 0.1)) == Vec2(0.0, 1.9118)
  {
  }

  /** A thrust equal to the weight, above the floor and without friction,
      leaves a resting particle where it is. */
  lemma HoverScenario(p: Params, pos: Vec2, dt: real)
    requires p.mass > 0.0 && p.mu == 0.0 && p.radius <= pos.y
    requires p.minThrust <= p.gravity * p.mass <= p.maxThrust
    ensures var a := ClampAction(p, Vec2(0.0, p.gravity * p.mass));
            var f := NetForce(p, pos, Vec2(0.0, 0.0), a);
            var v := Add(Vec2(0.0, 0.0), Scale(Acceleration(p, f), dt));
            f == Vec2(0.0, 0.0) && v == Vec2(0.0, 0.0) && Add(pos, Scale(v, dt)) == pos
  {
    var a := ClampAction(p, Vec2(0.0, p.gravity * p.mass));
    assert a == Vec2(0.0, p.gravity * p.mass);
    assert Spring(p, pos.y) == 0.0;
    var f := NetForce(p, pos, Vec2(0.0, 0.0), a);
    assert f == Vec2(0.0, 0.0);
    assert Acceleration(p, f) == Vec2(0.0, 0.0);
  }
}
