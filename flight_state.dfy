/** The simulation's one mutable record, seen as a value, together with the
    physics constants and the `clamp` helper of app.js.

    JavaScript numbers are modelled as Dafny `real`s (exact arithmetic); the
    control deflections and the camera mode, which the source only ever sets
    to whole numbers, are `int`s. */
module FlightState {

  // Physics constants (app.js:4-5). DEG and STALL_ANGLE are not used by the
  // runway variant's update step and are not modelled.
  const G: real := 9.81
  const MASS: real := 1000.0
  const WING_AREA: real := 14.0
  const AIR_DENSITY: real := 1.22
  const MAX_THRUST: real := 2500.0
  const LIFT_COEFF: real := 1.13
  const DRAG_COEFF: real := 0.035

  /** Fixed logical time step of one animation frame, in seconds. */
  const DT: real := 0.022
  /** Altitude of the runway surface: the floor of `y`. */
  const RUNWAY_Y: real := 3.0
  /** Amount one throttle button press adds or removes. */
  const THROTTLE_STEP: real := 0.08
  /** Orientation change per frame for a full deflection. */
  const CONTROL_GAIN: real := 0.002
  const PITCH_LIMIT: real := 0.45
  const ROLL_LIMIT: real := 0.8
  /** Below this speed the aircraft is held on the runway and rolls with friction. */
  const TAXI_SPEED: real := 20.0
  /** Liftoff needs more than this speed and more than LIFTOFF_THROTTLE. */
  const LIFTOFF_SPEED: real := 22.0
  const LIFTOFF_THROTTLE: real := 0.5
  const ROLLING_FRICTION: real := 0.98
  /** Forward acceleration per unit throttle while on the ground. */
  const GROUND_THRUST: real := 25.0
  const STALL_PITCH: real := 0.3
  const OVERSPEED: real := 180.0

  const NO_WARNING: string := ""
  const OVERSPEED_WARNING: string := "OVERSPEED"
  const STALL_WARNING: string := "STALL"

  /** A position or a velocity: x forward, y up (altitude), z lateral. */
  datatype Vector = Vector(x: real, y: real, z: real)

  /** Orientation in radians. */
  datatype Orientation = Orientation(pitch: real, roll: real, yaw: real)

  /** Control-surface deflections (each -1, 0 or 1) and throttle (0 to 1). */
  datatype ControlState = ControlState(elevator: int, aileron: int, rudder: int, throttle: real)

  /** The fields of the module-level `state` object of app.js. */
  datatype Aircraft = Aircraft(
    x: real, y: real, z: real,
    vx: real, vy: real, vz: real,
    pitch: real, roll: real, yaw: real,
    elevator: int, aileron: int, rudder: int,
    throttle: real,
    camera: int,
    stall: bool,
    warningText: string,
    onGround: bool)

  /** The record as the page creates it: parked on the runway, engine idle. */
  const INITIAL: Aircraft :=
    Aircraft(0.0, RUNWAY_Y, 0.0, 0.0, 0.0, 0.0, 0.0, 0.0, 0.0,
             0, 0, 0, 0.0, 1, false, NO_WARNING, true)

  /** Math.abs */
  function Abs(v: real): (r: real)
    ensures r >= 0.0 && (r == v || r == -v)
  {
    if v < 0.0 then -v else v
  }

  /** clamp(x, a, b) = Math.max(a, Math.min(x, b)). */
  function Clamp(x: real, a: real, b: real): (r: real)
    ensures r >= a
    ensures a <= b ==> r <= b
    ensures a <= x <= b ==> r == x
    ensures x < a ==> r == a
    ensures a <= b && b < x ==> r == b
  {
    var m := if x < b then x else b;
    if a > m then a else m
  }

  /** JavaScript's `%` on integers: the remainder takes the dividend's sign. */
  function JsRem(a: int, n: int): (r: int)
    requires n > 0
    ensures a >= 0 ==> 0 <= r < n
    ensures a < 0 ==> -n < r <= 0
    // r is a remainder of a by n; with the ranges above this fixes r
    ensures exists q: int :: a == q * n + r
  {
    if a >= 0 then
      assert a == a / n * n + a % n;
      a % n
    else
      assert -a == (-a) / n * n + (-a) % n;
      assert a == -((-a) / n) * n + -((-a) % n);
      -((-a) % n)
  }
}
