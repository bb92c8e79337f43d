/** The cart-pole simulation (js/pendulum.js): the state that `update` advances
    by one Euler step, the six-column history capped at 1000 samples, the
    stabilisation check and the performance metrics computed over the history.
    The equations of motion are an abstract function supplied by the caller. */
module Pendulum {
  import opened Wrappers
  import opened Utils

  // ---------------------------------------------------------------------------
  // Constants and options
  // ---------------------------------------------------------------------------

  const Gravity: real := 9.81
  const PendulumLength: real := 1.0
  const CartMass: real := 1.0
  const PendulumMass: real := 0.1

  /** The history keeps at most this many samples. */
  const MaxHistoryLength: nat := 1000

  /** The `options` object of the constructor and of `reset`; an absent
      property is `None`. */
  datatype Options = Options(
    gravity: Option<real>,
    pendulumLength: Option<real>,
    cartMass: Option<real>,
    pendulumMass: Option<real>,
    initialAngle: Option<real>,
    initialAngularVelocity: Option<real>,
    initialCartPosition: Option<real>,
    initialCartVelocity: Option<real>,
    cartPositionLimit: Option<real>,
    timeStep: Option<real>)

  const NoOptions: Options := Options(None, None, None, None, None, None, None, None, None, None)

  /** The initial angle in radians: `degToRad(initialAngle || 5)`. */
  function InitialAngle(options: Options): (radians: real)
    ensures options.initialAngle.Some? && options.initialAngle.value != 0.0 ==>
      radians == DegToRad(options.initialAngle.value)
    ensures options.initialAngle.None? || options.initialAngle.value == 0.0 ==> radians == DegToRad(5.0)
  {
    DegToRad(OrElse(options.initialAngle, 5.0))
  }

  /** An explicit initial angle of 0 degrees is falsy and becomes 5 degrees. */
  lemma ZeroInitialAngleBecomesFive(options: Options)
    requires options.initialAngle == Some(0.0)
    ensures InitialAngle(options) == DegToRad(5.0) && InitialAngle(options) > 0.0
  {
  }

  // ---------------------------------------------------------------------------
  // One step of motion
  // ---------------------------------------------------------------------------

  /** The four quantities that change with each step. */
  datatype Motion = Motion(angle: real, angularVelocity: real, cartPosition: real, cartVelocity: real)

  /** The physical parameters the equations of motion read. */
  datatype Physics = Physics(gravity: real, pendulumLength: real, cartMass: real, pendulumMass: real)

  /** The equations of motion: from the physics, the angle, the angular
      velocity and the control force to the (angular, cart) accelerations. */
  type Accelerations = (Physics, real, real, real) -> (real, real)

  /** A control system's calculateControlForce(angleDeg, angularVelocityDeg,
      cartPosition, cartVelocity). */
  type Controller = (real, real, real, real) -> real

  /** The force of a step: 0 without a control system, otherwise the
      controller's answer for the angles in degrees. */
  function ControlForceFor(controlSystem: Option<Controller>, m: Motion): (force: real)
    ensures controlSystem.None? ==> force == 0.0
    ensures controlSystem.Some? ==>
      force == controlSystem.value(RadToDeg(m.angle), RadToDeg(m.angularVelocity), m.cartPosition, m.cartVelocity)
  {
    match controlSystem
    case None => 0.0
    case Some(calculate) =>
      calculate(RadToDeg(m.angle), RadToDeg(m.angularVelocity), m.cartPosition, m.cartVelocity)
  }

  /** The track limit: clamp the position to [-limit, limit] and stop the cart
      when it is at (or beyond) the limit. */
  function OnTrack(position: real, velocity: real, limit: real): (r: (real, real))
    ensures r.0 <= limit
    ensures limit >= 0.0 ==> -limit <= r.0
    ensures -limit < position < limit ==> r == (position, velocity)
    ensures Abs(r.0) >= limit ==> r.1 == 0.0
    ensures Abs(r.0) < limit ==> r.1 == velocity
  {
    var clamped := Clamp(position, -limit, limit);
    if Abs(clamped) >= limit then (clamped, 0.0) else (clamped, velocity)
  }

  /** Math.PI's real value is positive and below 4. */
  lemma PiBounds()
    ensures 3.0 < Pi < 4.0
  {
  }

  /** The integer part of a real, rounding toward zero. */
  function Truncate(x: real): (n: int)
    ensures x >= 0.0 ==> n == x.Floor
    ensures x < 0.0 ==> n == -((-x).Floor)
  {
    if x >= 0.0 then x.Floor else -((-x).Floor)
  }

  /** JavaScript's `x % m` on numbers: the remainder of a division rounded
      toward zero, which takes the sign of `x`. */
  function JsRemainder(x: real, m: real): (r: real)
    requires m != 0.0
    ensures m > 0.0 && x >= 0.0 ==> 0.0 <= r < m
    ensures m > 0.0 && x < 0.0 ==> -m < r <= 0.0
  {
    assert m > 0.0 && x < 0.0 ==> -m < x - m * Truncate(x / m) as real <= 0.0 by {
      if m > 0.0 && x < 0.0 {
        FloorDivision(-x, m);
        assert -x / m == -(x / m);
      }
    }
    assert m > 0.0 && x >= 0.0 ==> 0.0 <= x - m * Truncate(x / m) as real < m by {
      if m > 0.0 && x >= 0.0 {
        FloorDivision(x, m);
      }
    }
    x - m * Truncate(x / m) as real
  }

  /** Multiplying by a positive number keeps the sign. */
  lemma ProductSign(a: real, b: real)
    requires b > 0.0
    ensures a * b >= 0.0 <==> a >= 0.0
    ensures a * b > 0.0 <==> a > 0.0
  {
  }

  /** The floor of x / m places x between two multiples of m. */
  lemma FloorDivision(x: real, m: real)
    requires m > 0.0
    ensures ((x / m).Floor as real) * m <= x < ((x / m).Floor as real) * m + m
  {
    var q := (x / m).Floor as real;
    var d := x / m;
    assert q <= d < q + 1.0;
    assert d * m == x;
    ProductSign(q + 1.0 - d, m);
    assert (q + 1.0 - d) * m == q * m + m - d * m;
    assert x < q * m + m;
    ProductSign(d - q, m);
    assert (d - q) * m == d * m - q * m;
  }

  /** ... and those multiples determine the floor. */
  lemma FloorUnique(x: real, m: real, n: int)
    requires m > 0.0
    requires (n as real) * m <= x < (n as real) * m + m
    ensures (x / m).Floor == n
  {
    var d := x / m;
    assert d * m == x;
    ProductSign(d - n as real, m);
    assert (d - n as real) * m == d * m - (n as real) * m;
    ProductSign(n as real + 1.0 - d, m);
    assert (n as real + 1.0 - d) * m == (n as real) * m + m - d * m;
  }

  /** The angle normalisation of `update` as written:
      ((angle + PI) % (2 PI)) - PI. */
  function WrapAngleAsWritten(angle: real): (r: real)
    ensures angle >= -Pi ==> -Pi <= r < Pi
  {
    var x := angle + Pi;
    FloorDivision(x, 2.0 * Pi);
    JsRemainder(x, 2.0 * Pi) - Pi
  }

  /** Below -PI the remainder is negative and the "normalised" angle stays
      below -PI: an angle of -4 radians is left at -4. */
  lemma WrapAngleAsWrittenMissesBelowMinusPi()
    ensures WrapAngleAsWritten(-4.0) == -4.0 < -Pi
  {
    var x := -4.0 + Pi;
    var q := x / (2.0 * Pi);
    assert -1.0 < q < 0.0;
    assert (-q).Floor == 0;
    assert Truncate(q) == 0;
  }

  /** The normalisation the code means: the angle shifted by a whole number
      of turns into [-PI, PI). */
  function WrapAngle(angle: real): (r: real)
    ensures -Pi <= r < Pi
    ensures -Pi <= angle < Pi ==> r == angle
  {
    var x := angle + Pi;
    var turns := (x / (2.0 * Pi)).Floor;
    FloorDivision(x, 2.0 * Pi);
    assert -Pi <= angle < Pi ==> turns == 0 by {
      if -Pi <= angle < Pi {
        FloorUnique(x, 2.0 * Pi, 0);
      }
    }
    x - 2.0 * Pi * turns as real - Pi
  }

  /** A whole turn more or less makes no difference. */
  lemma WrapAnglePeriodic(angle: real)
    ensures WrapAngle(angle + 2.0 * Pi) == WrapAngle(angle)
  {
    var x := angle + Pi;
    var turns := (x / (2.0 * Pi)).Floor;
    FloorDivision(x, 2.0 * Pi);
    FloorUnique(x + 2.0 * Pi, 2.0 * Pi, turns + 1);
  }

  /** From -PI upward both normalisations agree. */
  lemma WrapAngleAgreesFromMinusPi(angle: real)
    requires angle >= -Pi
    ensures WrapAngleAsWritten(angle) == WrapAngle(angle)
  {
    var x := angle + Pi;
    assert Truncate(x / (2.0 * Pi)) == (x / (2.0 * Pi)).Floor;
  }

  /** The Euler step of `update` after the accelerations are known, before
      the angle is normalised: new velocities first, positions from the new
      velocities, then the track limit. */
  function EulerStep(m: Motion, angularAcceleration: real, cartAcceleration: real, dt: real, limit: real)
    : (r: Motion)
    ensures r.angularVelocity == m.angularVelocity + angularAcceleration * dt
    ensures r.angle == m.angle + r.angularVelocity * dt
    ensures r.cartPosition <= limit
    ensures limit >= 0.0 ==> -limit <= r.cartPosition
    ensures Abs(r.cartPosition) >= limit ==> r.cartVelocity == 0.0
  {
    var angularVelocity := m.angularVelocity + angularAcceleration * dt;
    var cartVelocity := m.cartVelocity + cartAcceleration * dt;
    var track := OnTrack(m.cartPosition + cartVelocity * dt, cartVelocity, limit);
    Motion(m.angle + angularVelocity * dt, angularVelocity, track.0, track.1)
  }

  /** The step of `update` with the corrected normalisation: the Euler step,
      then the angle brought into [-PI, PI). */
  function Advance(m: Motion, angularAcceleration: real, cartAcceleration: real, dt: real, limit: real): (r: Motion)
    ensures r.angularVelocity == m.angularVelocity + angularAcceleration * dt
    ensures r.cartPosition <= limit
    ensures limit >= 0.0 ==> -limit <= r.cartPosition
    ensures Abs(r.cartPosition) >= limit ==> r.cartVelocity == 0.0
    ensures -Pi <= r.angle < Pi
  {
    var raw := EulerStep(m, angularAcceleration, cartAcceleration, dt, limit);
    raw.(angle := WrapAngle(raw.angle))
  }

  /** The step of `update` as written: the Euler step, then the truncating
      normalisation, which reaches [-PI, PI) only when the stepped angle is
      not below -PI. */
  function AdvanceAsWritten(m: Motion, angularAcceleration: real, cartAcceleration: real, dt: real, limit: real)
    : (r: Motion)
    ensures r.angularVelocity == m.angularVelocity + angularAcceleration * dt
    ensures r.cartPosition <= limit
    ensures limit >= 0.0 ==> -limit <= r.cartPosition
    ensures Abs(r.cartPosition) >= limit ==> r.cartVelocity == 0.0
    ensures m.angle + r.angularVelocity * dt >= -Pi ==> -Pi <= r.angle < Pi
  {
    var raw := EulerStep(m, angularAcceleration, cartAcceleration, dt, limit);
    raw.(angle := WrapAngleAsWritten(raw.angle))
  }

  /** Both steps agree whenever the stepped angle is not below -PI. */
  lemma AdvanceAgreesFromMinusPi(m: Motion, angularAcceleration: real, cartAcceleration: real, dt: real,
                                 limit: real)
    requires m.angle + (m.angularVelocity + angularAcceleration * dt) * dt >= -Pi
    ensures AdvanceAsWritten(m, angularAcceleration, cartAcceleration, dt, limit) ==
            Advance(m, angularAcceleration, cartAcceleration, dt, limit)
  {
    WrapAngleAgreesFromMinusPi(EulerStep(m, angularAcceleration, cartAcceleration, dt, limit).angle);
  }

  /** A pendulum falling through -PI: from -3.14 rad at -1 rad/s with no
      acceleration and dt = 0.01, the step as written stores -3.15, below
      -PI, where the corrected step wraps to the other side. */
  lemma AdvanceAsWrittenFallsThroughMinusPi()
    ensures var m := Motion(-3.14, -1.0, 0.0, 0.0);
      AdvanceAsWritten(m, 0.0, 0.0, 0.01, 5.0).angle == -3.15 < -Pi &&
      Advance(m, 0.0, 0.0, 0.01, 5.0).angle > 0.0
  {
    var m := Motion(-3.14, -1.0, 0.0, 0.0);
    var raw := EulerStep(m, 0.0, 0.0, 0.01, 5.0);
    assert raw.angle == -3.15;
    var x := -3.15 + Pi;
    var q := x / (2.0 * Pi);
    assert -1.0 < q < 0.0;
    assert (-q).Floor == 0;
    assert Truncate(q) == 0;
    assert (x / (2.0 * Pi)).Floor == -1 by {
      FloorUnique(x, 2.0 * Pi, -1);
    }
  }

  /** Inside the track and the angle range, a step is the plain Euler step. */
  lemma AdvanceIsEulerInside(m: Motion, angularAcceleration: real, cartAcceleration: real, dt: real, limit: real)
    requires var angularVelocity := m.angularVelocity + angularAcceleration * dt;
             -Pi <= m.angle + angularVelocity * dt < Pi
    requires var cartVelocity := m.cartVelocity + cartAcceleration * dt;
             -limit < m.cartPosition + cartVelocity * dt < limit
    ensures Advance(m, angularAcceleration, cartAcceleration, dt, limit) ==
      Motion(m.angle + (m.angularVelocity + angularAcceleration * dt) * dt,
             m.angularVelocity + angularAcceleration * dt,
             m.cartPosition + (m.cartVelocity + cartAcceleration * dt) * dt,
             m.cartVelocity + cartAcceleration * dt)
    ensures AdvanceAsWritten(m, angularAcceleration, cartAcceleration, dt, limit) ==
            Advance(m, angularAcceleration, cartAcceleration, dt, limit)
  {
    var angularVelocity := m.angularVelocity + angularAcceleration * dt;
    var cartVelocity := m.cartVelocity + cartAcceleration * dt;
    var position := m.cartPosition + cartVelocity * dt;
    hide OnTrack, Clamp;
    AdvanceAgreesFromMinusPi(m, angularAcceleration, cartAcceleration, dt, limit);
    assert OnTrack(position, cartVelocity, limit) == (position, cartVelocity);
    var raw := EulerStep(m, angularAcceleration, cartAcceleration, dt, limit);
    assert raw == Motion(m.angle + angularVelocity * dt, angularVelocity, position, cartVelocity);
    assert WrapAngle(raw.angle) == raw.angle;
    hide EulerStep, WrapAngle;
  }

  // ---------------------------------------------------------------------------
  // History
  // ---------------------------------------------------------------------------

  /** The six parallel columns of `history`. */
  datatype History = History(
    time: seq<real>,
    angle: seq<real>,
    angularVelocity: seq<real>,
    cartPosition: seq<real>,
    cartVelocity: seq<real>,
    controlForce: seq<real>)

  const EmptyHistory: History := History([], [], [], [], [], [])

  /** One row of the history. */
  datatype Sample = Sample(
    time: real, angle: real, angularVelocity: real, cartPosition: real, cartVelocity: real, controlForce: real)

  /** All columns have the length of `time`, which is within the cap. */
  predicate Aligned(h: History)
  {
    |h.time| <= MaxHistoryLength &&
    |h.angle| == |h.time| && |h.angularVelocity| == |h.time| && |h.cartPosition| == |h.time| &&
    |h.cartVelocity| == |h.time| && |h.controlForce| == |h.time|
  }

  /** The last `MaxHistoryLength` entries of a column. */
  function Window(column: seq<real>): (w: seq<real>)
    ensures |w| <= MaxHistoryLength
    ensures |column| <= MaxHistoryLength ==> w == column
    ensures |column| > MaxHistoryLength ==> |w| == MaxHistoryLength
  {
    if |column| <= MaxHistoryLength then column else column[|column| - MaxHistoryLength..]
  }

  /** The pushes and the shift of `update`: append one sample to every column
      and drop the oldest row once `time` holds more than the cap. */
  function Recorded(h: History, s: Sample): (r: History)
    ensures Aligned(h) ==> Aligned(r)
    ensures Aligned(h) ==> |r.time| == if |h.time| < MaxHistoryLength then |h.time| + 1 else MaxHistoryLength
    ensures |r.time| > 0 && r.time[|r.time| - 1] == s.time
    ensures Aligned(h) ==> r.angle[|r.angle| - 1] == s.angle && r.controlForce[|r.controlForce| - 1] == s.controlForce
  {
    var pushed := History(h.time + [s.time], h.angle + [s.angle], h.angularVelocity + [s.angularVelocity],
                          h.cartPosition + [s.cartPosition], h.cartVelocity + [s.cartVelocity],
                          h.controlForce + [s.controlForce]);
    if |pushed.time| > MaxHistoryLength then
      History(pushed.time[1..], pushed.angle[1..], pushed.angularVelocity[1..],
              pushed.cartPosition[1..], pushed.cartVelocity[1..], pushed.controlForce[1..])
    else
      pushed
  }

  /** Every column of a recorded history is the window of the column with
      the sample appended. */
  lemma RecordedIsWindow(h: History, s: Sample)
    requires Aligned(h)
    ensures var r := Recorded(h, s);
      r.time == Window(h.time + [s.time]) && r.angle == Window(h.angle + [s.angle]) &&
      r.angularVelocity == Window(h.angularVelocity + [s.angularVelocity]) &&
      r.cartPosition == Window(h.cartPosition + [s.cartPosition]) &&
      r.cartVelocity == Window(h.cartVelocity + [s.cartVelocity]) &&
      r.controlForce == Window(h.controlForce + [s.controlForce])
  {
  }

  /** The newest row of a recorded history is the sample just recorded. */
  lemma RecordedEndsWithSample(h: History, s: Sample)
    requires Aligned(h)
    ensures var r := Recorded(h, s);
      |r.time| > 0 && r.time[|r.time| - 1] == s.time && r.angle[|r.time| - 1] == s.angle &&
      r.angularVelocity[|r.time| - 1] == s.angularVelocity && r.cartPosition[|r.time| - 1] == s.cartPosition &&
      r.cartVelocity[|r.time| - 1] == s.cartVelocity && r.controlForce[|r.time| - 1] == s.controlForce
  {
  }

  /** Pushing onto the window of a log is the window of the longer log: a
      column always holds the newest samples, at most 1000 of them, oldest
      first. */
  lemma WindowSlides(log: seq<real>, x: real)
    ensures Window(Window(log) + [x]) == Window(log + [x])
  {
    if |log| > MaxHistoryLength {
      var w := Window(log);
      assert w + [x] == (log + [x])[|log| - MaxHistoryLength..];
      assert Window(w + [x]) == (w + [x])[1..];
      assert (w + [x])[1..] == (log + [x])[|log| + 1 - MaxHistoryLength..];
    }
  }

  // ---------------------------------------------------------------------------
  // The simulation object
  // ---------------------------------------------------------------------------

  /** What `update` returns after a running step. */
  datatype StepRecord = StepRecord(
    angle: real, angularVelocity: real, cartPosition: real, cartVelocity: real, controlForce: real, time: real)

  /** What `getState` returns. */
  datatype StateRecord = StateRecord(
    angle: real, angularVelocity: real, cartPosition: real, cartVelocity: real, time: real, running: bool)

  /** What `calculatePerformanceMetrics` returns; `None` is null or NaN. */
  datatype Metrics = Metrics(
    stabilizationTime: Option<real>,
    rootMeanSquaredError: Option<real>,
    energyConsumption: Option<real>,
    robustness: Option<real>)

  /** Samples that must stay within the angle bound after a stabilisation
      candidate, whatever the time step. */
  const StabilityWindow: nat := 300

  /** `Array.prototype.slice(start)` for an integer start: a negative start
      counts from the end. */
  function SliceFrom(s: seq<real>, start: int): (r: seq<real>)
    ensures start >= 0 ==> r == s[if start <= |s| then start else |s|..]
    ensures start < 0 ==> r == s[if |s| + start >= 0 then |s| + start else 0..]
  {
    if start >= 0 then s[if start <= |s| then start else |s|..]
    else s[if |s| + start >= 0 then |s| + start else 0..]
  }

  /** No angle in [i, min(i + 300, |angles|)) exceeds 5 degrees. */
  predicate StaysStable(angles: seq<real>, i: nat)
  {
    forall j :: i <= j < |angles| && j < i + StabilityWindow ==> !(Abs(angles[j]) > 5.0)
  }

  /** Index i qualifies as the stabilisation point: it is below 5 degrees and
      stays at or below 5 degrees for the next 300 samples. */
  predicate StableFrom(angles: seq<real>, i: nat)
  {
    i < |angles| && Abs(angles[i]) < 5.0 && StaysStable(angles, i)
  }

  /** Index i is the first that qualifies. */
  predicate FirstStable(angles: seq<real>, i: nat)
  {
    StableFrom(angles, i) && forall p :: 0 <= p < i ==> !StableFrom(angles, p)
  }

  /** sqrt(mean of the squared angles); NaN (`None`) for an empty history.
      For a square root that maps non-negative numbers to non-negative
      numbers the error is non-negative. */
  function RootMeanSquare(angles: seq<real>, sqrt: real -> real): (r: Option<real>)
    ensures r.None? <==> |angles| == 0
    ensures r.Some? && (forall y :: y >= 0.0 ==> sqrt(y) >= 0.0) ==> r.value >= 0.0
  {
    if |angles| == 0 then None
    else
      MeanOfSquaresNonNegative(angles);
      Some(sqrt(Mean(Squares(angles)).value))
  }

  /** The mean squared force times the elapsed time; NaN (`None`) for an
      empty history. Never negative once time is not. */
  function Energy(forces: seq<real>, time: real): (r: Option<real>)
    ensures r.None? <==> |forces| == 0
    ensures r.Some? && time >= 0.0 ==> r.value >= 0.0
  {
    if |forces| == 0 then None
    else
      MeanOfSquaresNonNegative(forces);
      Some(Mean(Squares(forces)).value * time)
  }

  /** `findIndex(t => t >= target)`. */
  function FindAtLeast(times: seq<real>, target: real): (r: Option<nat>)
    ensures r.Some? ==> r.value < |times| && times[r.value] >= target
    ensures r.Some? ==> forall p :: 0 <= p < r.value ==> times[p] < target
    ensures r.None? ==> forall p :: 0 <= p < |times| ==> times[p] < target
  {
    if |times| == 0 then None
    else if times[0] >= target then Some(0)
    else
      match FindAtLeast(times[1..], target)
      case None => None
      case Some(p) => Some(p + 1)
  }

  // ---------------------------------------------------------------------------
  // The simulation's fields as one value, and what update and reset do to it
  // ---------------------------------------------------------------------------

  /** Every field of a PendulumSimulation. */
  datatype SimState = SimState(
    physics: Physics,
    motion: Motion,
    cartPositionLimit: real,
    dt: real,
    time: real,
    history: History,
    running: bool,
    controlSystem: Option<Controller>)

  /** The time step is never 0 (a 0 option becomes 0.01), the columns are
      aligned and the newest recorded time is the current time. */
  predicate ValidState(s: SimState)
  {
    s.dt != 0.0 && Aligned(s.history) &&
    (|s.history.time| > 0 ==> s.history.time[|s.history.time| - 1] == s.time)
  }

  /** The state the constructor builds: `||` defaults, time 0, an empty
      history, paused and without a control system. */
  function Initial(options: Options): (s: SimState)
    ensures ValidState(s)
    ensures s.time == 0.0 && s.history == EmptyHistory && !s.running && s.controlSystem.None?
  {
    SimState(
      Physics(OrElse(options.gravity, Gravity), OrElse(options.pendulumLength, PendulumLength),
              OrElse(options.cartMass, CartMass), OrElse(options.pendulumMass, PendulumMass)),
      InitialMotion(options),
      OrElse(options.cartPositionLimit, 5.0),
      OrElse(options.timeStep, 0.01),
      0.0, EmptyHistory, false, None)
  }

  /** The initial motion of the constructor and of reset. */
  function InitialMotion(options: Options): Motion
  {
    Motion(InitialAngle(options), OrElse(options.initialAngularVelocity, 0.0),
           OrElse(options.initialCartPosition, 0.0), OrElse(options.initialCartVelocity, 0.0))
  }

  /** The state after `reset(options)`. */
  /** reset restarts the motion, the clock and the history as the constructor
      does, and keeps the physics, the step, the limit, `running` and the
      control system. */
  function ResetState(s: SimState, options: Options): (r: SimState)
    ensures r.motion == Initial(options).motion && r.time == 0.0 && r.history == EmptyHistory
    ensures r.physics == s.physics && r.dt == s.dt && r.cartPositionLimit == s.cartPositionLimit
    ensures r.running == s.running && r.controlSystem == s.controlSystem
    ensures ValidState(s) ==> ValidState(r)
  {
    s.(motion := InitialMotion(options), time := 0.0, history := EmptyHistory)
  }

  /** A fresh simulation reset with the options it was built with is
      unchanged. */
  lemma ResetOfInitial(options: Options)
    ensures ResetState(Initial(options), options) == Initial(options)
  {
  }

  /** The force of the next step. */
  function StepForce(s: SimState): real
  {
    ControlForceFor(s.controlSystem, s.motion)
  }

  /** The motion and clock part of `update`: one step of the equations of
      motion under the step's force, and time advanced by dt. */
  function Moved(s: SimState, accelerations: Accelerations): (r: SimState)
    ensures r.time == s.time + s.dt && -Pi <= r.motion.angle < Pi
    ensures r.motion.cartPosition <= s.cartPositionLimit
    ensures s.cartPositionLimit >= 0.0 ==> -s.cartPositionLimit <= r.motion.cartPosition
    ensures r.physics == s.physics && r.dt == s.dt && r.cartPositionLimit == s.cartPositionLimit
    ensures r.running == s.running && r.controlSystem == s.controlSystem && r.history == s.history
  {
    var a := accelerations(s.physics, s.motion.angle, s.motion.angularVelocity, StepForce(s));
    s.(motion := Advance(s.motion, a.0, a.1, s.dt, s.cartPositionLimit), time := s.time + s.dt)
  }

  /** The history part of `update`: the current state recorded with the
      angles in degrees and the force used. */
  function WithSample(s: SimState, force: real): (r: SimState)
    ensures r.motion == s.motion && r.time == s.time
    ensures r.physics == s.physics && r.dt == s.dt && r.cartPositionLimit == s.cartPositionLimit
    ensures r.running == s.running && r.controlSystem == s.controlSystem
    ensures Aligned(s.history) ==>
      Aligned(r.history) && |r.history.time| > 0 &&
      |r.history.time| == if |s.history.time| < MaxHistoryLength then |s.history.time| + 1 else MaxHistoryLength
    ensures s.dt != 0.0 && Aligned(s.history) ==> ValidState(r)
    ensures Aligned(s.history) ==>
      r.history.angle[|r.history.angle| - 1] == RadToDeg(s.motion.angle) &&
      r.history.controlForce[|r.history.controlForce| - 1] == force
  {
    var m := s.motion;
    s.(history := Recorded(s.history, Sample(s.time, RadToDeg(m.angle), RadToDeg(m.angularVelocity),
                                             m.cartPosition, m.cartVelocity, force)))
  }

  /** `update`: the new state and what it returns. */
  function Updated(s: SimState, accelerations: Accelerations): (r: (SimState, Option<StepRecord>))
    ensures r.1.Some? <==> s.running
    ensures !s.running ==> r.0 == s
    ensures s.running ==>
      r.0.time == s.time + s.dt &&
      r.1.value == StepRecord(r.0.motion.angle, r.0.motion.angularVelocity, r.0.motion.cartPosition,
                              r.0.motion.cartVelocity, StepForce(s), r.0.time)
  {
    if !s.running then (s, None)
    else
      var force := StepForce(s);
      var r := WithSample(Moved(s, accelerations), force);
      (r, Some(StepRecord(r.motion.angle, r.motion.angularVelocity, r.motion.cartPosition, r.motion.cartVelocity,
                          force, r.time)))
  }

  /** A running update keeps the state valid, advances the clock by exactly
      dt, leaves everything but the motion, the clock and the history as it
      was, and grows the history by one row up to the cap. */
  lemma RunningUpdateBookkeeping(s: SimState, accelerations: Accelerations)
    requires ValidState(s) && s.running
    ensures var (r, step) := Updated(s, accelerations);
      ValidState(r) && step.Some? &&
      r.time == s.time + s.dt && step.value.time == r.time &&
      r.physics == s.physics && r.dt == s.dt && r.cartPositionLimit == s.cartPositionLimit &&
      r.running && r.controlSystem == s.controlSystem &&
      |r.history.time| == (if |s.history.time| < MaxHistoryLength then |s.history.time| + 1 else MaxHistoryLength)
  {
  }

  /** After a running update the cart is on the track, stopped when at its
      limit, and the angle is in [-PI, PI). */
  lemma RunningUpdateOnTrack(s: SimState, accelerations: Accelerations)
    requires ValidState(s) && s.running
    ensures var r := Updated(s, accelerations).0;
      r.motion.cartPosition <= r.cartPositionLimit &&
      (r.cartPositionLimit >= 0.0 ==> -r.cartPositionLimit <= r.motion.cartPosition) &&
      (Abs(r.motion.cartPosition) >= r.cartPositionLimit ==> r.motion.cartVelocity == 0.0) &&
      -Pi <= r.motion.angle < Pi
  {
  }

  /** The newest history row holds the new state, the angles in degrees, and
      the force used; without a control system that force is 0. */
  lemma RunningUpdateRecords(s: SimState, accelerations: Accelerations)
    requires ValidState(s) && s.running
    ensures var (r, step) := Updated(s, accelerations);
      var h, last := r.history, |r.history.time| - 1;
      last >= 0 && step.Some? &&
      h.time[last] == r.time && h.angle[last] == RadToDeg(r.motion.angle) &&
      h.angularVelocity[last] == RadToDeg(r.motion.angularVelocity) &&
      h.cartPosition[last] == r.motion.cartPosition && h.cartVelocity[last] == r.motion.cartVelocity &&
      h.controlForce[last] == step.value.controlForce &&
      (s.controlSystem.None? ==> step.value.controlForce == 0.0)
  {
    var moved := Moved(s, accelerations);
    var m := moved.motion;
    RecordedEndsWithSample(s.history,
      Sample(moved.time, RadToDeg(m.angle), RadToDeg(m.angularVelocity), m.cartPosition, m.cartVelocity, StepForce(s)));
  }

  /** The clock runs forward: a positive step, and neither the current time
      nor any recorded time is negative. */
  predicate ClockForward(s: SimState)
  {
    s.dt > 0.0 && s.time >= 0.0 && forall k :: 0 <= k < |s.history.time| ==> s.history.time[k] >= 0.0
  }

  /** update keeps the clock running forward. */
  lemma UpdateKeepsClockForward(s: SimState, accelerations: Accelerations)
    requires ClockForward(s)
    ensures ClockForward(Updated(s, accelerations).0)
  {
    if s.running {
      var moved := Moved(s, accelerations);
      var m := moved.motion;
      var sample := Sample(moved.time, RadToDeg(m.angle), RadToDeg(m.angularVelocity),
                           m.cartPosition, m.cartVelocity, StepForce(s));
      var pushed := s.history.time + [moved.time];
      assert forall k :: 0 <= k < |pushed| ==> pushed[k] >= 0.0;
      assert Recorded(s.history, sample).time == if |pushed| > MaxHistoryLength then pushed[1..] else pushed;
    }
  }

  /** The first index at or after p that qualifies as the stabilisation
      point, scanning forward as calculatePerformanceMetrics does. */
  function FirstStableFrom(angles: seq<real>, p: nat): (r: Option<nat>)
    decreases |angles| - p
    ensures r.Some? ==> p <= r.value && StableFrom(angles, r.value)
    ensures r.Some? ==> forall q :: p <= q < r.value ==> !StableFrom(angles, q)
    ensures r.None? ==> forall q :: p <= q < |angles| ==> !StableFrom(angles, q)
  {
    if p >= |angles| then None
    else if StableFrom(angles, p) then Some(p)
    else FirstStableFrom(angles, p + 1)
  }

  /** The stabilisation time of a history: the time of its first
      stabilisation point, or null when none qualifies. */
  function StabilizationTimeOf(h: History): (t: Option<real>)
    requires Aligned(h)
    ensures t.None? <==> forall p :: 0 <= p < |h.angle| ==> !StableFrom(h.angle, p)
    ensures t.Some? ==> exists i: nat :: i < |h.time| && FirstStable(h.angle, i) && t.value == h.time[i]
  {
    match FirstStableFrom(h.angle, 0)
    case None => None
    case Some(i) =>
      assert FirstStable(h.angle, i);
      Some(h.time[i])
  }

  /** What calculatePerformanceMetrics returns for a state. Robustness is
      present exactly when a stabilisation time is, since the time of the
      stabilisation point is itself at least that time. */
  function PerformanceMetrics(s: SimState, sqrt: real -> real): (m: Metrics)
    requires ValidState(s)
    ensures m.stabilizationTime == StabilizationTimeOf(s.history)
    ensures m.rootMeanSquaredError == RootMeanSquare(s.history.angle, sqrt)
    ensures m.energyConsumption == Energy(s.history.controlForce, s.time)
    ensures m.robustness.Some? <==> m.stabilizationTime.Some?
    ensures m.robustness.Some? ==>
      var from := FindAtLeast(s.history.time, m.stabilizationTime.value);
      from.Some? && m.robustness == StandardDeviation(s.history.angle[from.value..], sqrt)
  {
    var h := s.history;
    var stabilizationTime := StabilizationTimeOf(h);
    var robustness :=
      if stabilizationTime.None? then None
      else
        match FindAtLeast(h.time, stabilizationTime.value)
        case None => None
        case Some(from) => StandardDeviation(h.angle[from..], sqrt);
    if stabilizationTime.Some? then
      var i: nat :| i < |h.time| && stabilizationTime.value == h.time[i];
      assert FindAtLeast(h.time, stabilizationTime.value).Some? by {
        assert h.time[i] >= stabilizationTime.value;
      }
      Metrics(stabilizationTime, RootMeanSquare(h.angle, sqrt), Energy(h.controlForce, s.time), robustness)
    else
      Metrics(stabilizationTime, RootMeanSquare(h.angle, sqrt), Energy(h.controlForce, s.time), robustness)
  }

  class PendulumSimulation {
    var gravity: real
    var pendulumLength: real
    var cartMass: real
    var pendulumMass: real
    var angle: real
    var angularVelocity: real
    var cartPosition: real
    var cartVelocity: real
    var cartPositionLimit: real
    var dt: real
    var time: real
    var history: History
    var running: bool
    var controlSystem: Option<Controller>

    function State(): SimState
      reads this
    {
      SimState(Physics(gravity, pendulumLength, cartMass, pendulumMass),
               Motion(angle, angularVelocity, cartPosition, cartVelocity),
               cartPositionLimit, dt, time, history, running, controlSystem)
    }

    predicate Valid()
      reads this
    {
      ValidState(State())
    }

    constructor(options: Options)
      ensures State() == Initial(options) && Valid()
    {
      gravity := OrElse(options.gravity, Gravity);
      pendulumLength := OrElse(options.pendulumLength, PendulumLength);
      cartMass := OrElse(options.cartMass, CartMass);
      pendulumMass := OrElse(options.pendulumMass, PendulumMass);
      angle := InitialAngle(options);
      angularVelocity := OrElse(options.initialAngularVelocity, 0.0);
      cartPosition := OrElse(options.initialCartPosition, 0.0);
      cartVelocity := OrElse(options.initialCartVelocity, 0.0);
      cartPositionLimit := OrElse(options.cartPositionLimit, 5.0);
      dt := OrElse(options.timeStep, 0.01);
      time := 0.0;
      history := EmptyHistory;
      running := false;
      controlSystem := None;
    }

    method SetControlSystem(calculate: Controller)
      modifies this
      ensures State() == old(State()).(controlSystem := Some(calculate))
    {
      controlSystem := Some(calculate);
    }

    method Start()
      modifies this
      ensures State() == old(State()).(running := true)
    {
      running := true;
    }

    method Pause()
      modifies this
      ensures State() == old(State()).(running := false)
    {
      running := false;
    }

    method Reset(options: Options)
      modifies this
      ensures State() == old(State()).(motion := InitialMotion(options), time := 0.0, history := EmptyHistory)
    {
      var initial := InitialMotion(options);
      angle, angularVelocity, cartPosition, cartVelocity := initial.angle, initial.angularVelocity, initial.cartPosition, initial.cartVelocity;
      time, history := 0.0, EmptyHistory;
    }

    /** One time step. When paused nothing changes and nothing is returned;
        otherwise the force is asked of the control system, the motion
        advances by one step of the given equations, time advances by dt and
        the new state is recorded. */
    method Update(accelerations: Accelerations) returns (step: Option<StepRecord>)
      modifies this
      ensures (State(), step) == Updated(old(State()), accelerations)
    {
      if !running {
        return None;
      }
      var controlForce := Move(accelerations);
      Record(controlForce);
      step := Some(StepRecord(angle, angularVelocity, cartPosition, cartVelocity, controlForce, time));
    }

    /** The force and the Euler step of update. */
    method Move(accelerations: Accelerations) returns (controlForce: real)
      modifies this
      ensures controlForce == StepForce(old(State()))
      ensures State() == Moved(old(State()), accelerations)
    {
      controlForce := ControlForceFor(controlSystem, Motion(angle, angularVelocity, cartPosition, cartVelocity));
      var a := accelerations(Physics(gravity, pendulumLength, cartMass, pendulumMass), angle, angularVelocity, controlForce);
      var next := Advance(Motion(angle, angularVelocity, cartPosition, cartVelocity), a.0, a.1, dt, cartPositionLimit);
      angle, angularVelocity, cartPosition, cartVelocity := next.angle, next.angularVelocity, next.cartPosition, next.cartVelocity;
      time := time + dt;
    }

    /** The six pushes and the shift of update. */
    method Record(controlForce: real)
      modifies this
      ensures State() == WithSample(old(State()), controlForce)
    {
      history := Recorded(history, Sample(time, RadToDeg(angle), RadToDeg(angularVelocity),
                                          cartPosition, cartVelocity, controlForce));
    }

    function GetState(): StateRecord
      reads this
    {
      StateRecord(angle, angularVelocity, cartPosition, cartVelocity, time, running)
    }

    function GetHistory(): History
      reads this
    {
      history
    }

    /** isStabilized: false while the history is shorter than the window
        (timeWindow / dt samples); otherwise every one of the last
        floor(timeWindow / dt) angles is within the threshold. A window of
        fewer than one sample slices with -0 and checks the whole history. */
    function IsStabilized(angleThreshold: real, timeWindow: real): (stable: bool)
      requires Valid()
      reads this
      ensures (|history.time| as real) < timeWindow / dt ==> !stable
      ensures timeWindow / dt >= 1.0 ==>
        (stable <==> ((|history.time| as real) >= timeWindow / dt &&
                      forall i :: |history.angle| - (timeWindow / dt).Floor <= i < |history.angle| ==>
                        Abs(history.angle[i]) < angleThreshold))
      ensures 0.0 <= timeWindow / dt < 1.0 && (|history.time| as real) >= timeWindow / dt ==>
        (stable <==> forall i :: 0 <= i < |history.angle| ==> Abs(history.angle[i]) < angleThreshold)
    {
      if (|history.time| as real) < timeWindow / dt then false
      else
        var recent := SliceFrom(history.angle, -((timeWindow / dt).Floor));
        forall a :: a in recent ==> Abs(a) < angleThreshold
    }

    /** The stabilisation scan: the first index whose angle is below 5
        degrees and that no angle above 5 degrees follows within 300
        samples. */
    method StabilizationIndex() returns (index: Option<nat>)
      requires Valid()
      ensures index.Some? ==> StableFrom(history.angle, index.value)
      ensures index.Some? ==> forall p :: 0 <= p < index.value ==> !StableFrom(history.angle, p)
      ensures index.None? ==> forall p :: 0 <= p < |history.angle| ==> !StableFrom(history.angle, p)
      ensures index == FirstStableFrom(history.angle, 0)
    {
      var angles := history.angle;
      var n := |history.time|;
      var i := 0;
      while i < n
        invariant 0 <= i <= n
        invariant forall p :: 0 <= p < i ==> !StableFrom(angles, p)
      {
        if Abs(angles[i]) < 5.0 {
          var stable := true;
          var end := if i + StabilityWindow < n then i + StabilityWindow else n;
          var j := i;
          while j < end
            invariant i <= j <= end
            invariant stable ==> forall k :: i <= k < j ==> !(Abs(angles[k]) > 5.0)
            invariant !stable ==> !StaysStable(angles, i)
          {
            if Abs(angles[j]) > 5.0 {
              stable := false;
              break;
            }
            j := j + 1;
          }
          if stable {
            assert StableFrom(angles, i);
            assert FirstStableFrom(angles, 0) == Some(i);
            return Some(i);
          }
        }
        i := i + 1;
      }
      return None;
    }

    /** The stabilisation time: the time of the first index that qualifies,
        or null when none does. */
    method StabilizationTime() returns (stabilizationTime: Option<real>)
      requires Valid()
      ensures stabilizationTime.None? <==> forall p :: 0 <= p < |history.angle| ==> !StableFrom(history.angle, p)
      ensures stabilizationTime.Some? ==> (exists i: nat :: i < |history.time| && FirstStable(history.angle, i) && stabilizationTime.value == history.time[i])
      ensures stabilizationTime == StabilizationTimeOf(history)
    {
      var index := StabilizationIndex();
      if index.None? {
        return None;
      }
      stabilizationTime := Some(history.time[index.value]);
    }

    /** Robustness: null without a stabilisation time, otherwise the standard
        deviation of the angles from the first time at or after it. */
    method Robustness(stabilizationTime: Option<real>, sqrt: real -> real) returns (robustness: Option<real>)
      requires Valid()
      ensures robustness.Some? <==>
        stabilizationTime.Some? && FindAtLeast(history.time, stabilizationTime.value).Some?
      ensures robustness.Some? ==>
        var from := FindAtLeast(history.time, stabilizationTime.value);
        from.Some? && robustness == StandardDeviation(history.angle[from.value..], sqrt)
    {
      robustness := None;
      if stabilizationTime.Some? {
        var stabilizationIndex := FindAtLeast(history.time, stabilizationTime.value);
        if stabilizationIndex.Some? {
          robustness := StandardDeviation(history.angle[stabilizationIndex.value..], sqrt);
        }
      }
    }

    /** calculatePerformanceMetrics. NaN from an empty history and the null
        of "never stabilised" are both `None`; the square root is the given
        function. */
    method CalculatePerformanceMetrics(sqrt: real -> real) returns (metrics: Metrics)
      requires Valid()
      ensures metrics.stabilizationTime.None? <==>
        forall p :: 0 <= p < |history.angle| ==> !StableFrom(history.angle, p)
      ensures metrics.stabilizationTime.Some? ==> (exists i: nat :: (i < |history.time| && FirstStable(history.angle, i) &&
                                       metrics.stabilizationTime.value == history.time[i]))
      ensures metrics.rootMeanSquaredError == RootMeanSquare(history.angle, sqrt)
      ensures metrics.energyConsumption == Energy(history.controlForce, time)
      ensures metrics.robustness.Some? <==> metrics.stabilizationTime.Some?
      ensures metrics.robustness.Some? ==>
        var from := FindAtLeast(history.time, metrics.stabilizationTime.value);
        from.Some? && metrics.robustness == StandardDeviation(history.angle[from.value..], sqrt)
      ensures metrics == PerformanceMetrics(State(), sqrt)
    {
      hide StabilizationTimeOf, StableFrom, FirstStable, FirstStableFrom;
      var stabilizationTime := StabilizationTime();
      var rootMeanSquaredError := RootMeanSquare(history.angle, sqrt);
      var energyConsumption := Energy(history.controlForce, time);
      var robustness := Robustness(stabilizationTime, sqrt);
      if stabilizationTime.Some? {
        var i: nat :| i < |history.time| && stabilizationTime.value == history.time[i];
        assert FindAtLeast(history.time, stabilizationTime.value).Some? by {
          assert history.time[i] >= stabilizationTime.value;
        }
      }
      metrics := Metrics(stabilizationTime, rootMeanSquaredError, energyConsumption, robustness);
    }
  }
}
