/** One frame of `animate()` in app.js (lines 73-124), split into its five
    phases, each a function on the aircraft record:
    ground contact, control application, forces, position, warnings.

    `speed` is the magnitude of the velocity at the start of the frame; the
    caller supplies it (the imperative Tick requires speed >= 0 and
    speed * speed == vx * vx + vy * vy + vz * vz). `cos` stands for
    Math.cos and is left uninterpreted: lift and drag are opaque reals, and
    nothing below depends on their values. */
module FlightModel {
  import opened FlightState

  /** GROUND AND TAKEOFF LOGIC (app.js:76-87). */
  function GroundPhase(s: Aircraft, speed: real): (r: Aircraft)
    // the ground-contact machine in closed form
    ensures r.onGround <==>
      s.y <= RUNWAY_Y &&
      (speed < TAXI_SPEED || (s.onGround && !(s.throttle > LIFTOFF_THROTTLE && speed > LIFTOFF_SPEED)))
    // on the runway the aircraft is pinned to it; above it nothing moves
    ensures s.y <= RUNWAY_Y ==> r.y == RUNWAY_Y && r.vy == 0.0
    ensures s.y > RUNWAY_Y ==> r.y == s.y && r.vy == s.vy
    // rolling friction applies exactly when taxiing slowly on the runway
    ensures r.vx == if s.y <= RUNWAY_Y && speed < TAXI_SPEED then s.vx * ROLLING_FRICTION else s.vx
    ensures r == s.(y := r.y, vy := r.vy, vx := r.vx, onGround := r.onGround)
  {
    if s.y <= RUNWAY_Y then
      var pinned := s.(y := RUNWAY_Y, vy := 0.0);
      if speed < TAXI_SPEED then
        pinned.(onGround := true, vx := s.vx * ROLLING_FRICTION)
      else if s.throttle > LIFTOFF_THROTTLE && speed > LIFTOFF_SPEED then
        pinned.(onGround := false)
      else
        pinned
    else
      s.(onGround := false)
  }

  /** Orientation change from one deflection: `if (d) { a += d * 0.002 }`. */
  function Deflect(angle: real, d: int): (r: real)
    // the guard on a zero deflection never changes the result
    ensures r == angle + d as real * CONTROL_GAIN
  {
    if d != 0 then angle + d as real * CONTROL_GAIN else angle
  }

  /** CONTROLS (app.js:90-96): the deflections act only in the air, and pitch
      and roll are then clamped to their limits. */
  function ControlPhase(s: Aircraft): (r: Aircraft)
    ensures s.onGround ==> r == s
    ensures !s.onGround ==>
      -PITCH_LIMIT <= r.pitch <= PITCH_LIMIT && -ROLL_LIMIT <= r.roll <= ROLL_LIMIT
    // inside the limits a deflection moves the angle by exactly one gain step
    ensures !s.onGround && -PITCH_LIMIT <= s.pitch + s.elevator as real * CONTROL_GAIN <= PITCH_LIMIT ==>
      r.pitch == s.pitch + s.elevator as real * CONTROL_GAIN
    ensures !s.onGround && -ROLL_LIMIT <= s.roll + s.aileron as real * CONTROL_GAIN <= ROLL_LIMIT ==>
      r.roll == s.roll + s.aileron as real * CONTROL_GAIN
    // past a limit the angle stops exactly at that limit
    ensures !s.onGround && s.pitch + s.elevator as real * CONTROL_GAIN > PITCH_LIMIT ==> r.pitch == PITCH_LIMIT
    ensures !s.onGround && s.pitch + s.elevator as real * CONTROL_GAIN < -PITCH_LIMIT ==> r.pitch == -PITCH_LIMIT
    ensures !s.onGround && s.roll + s.aileron as real * CONTROL_GAIN > ROLL_LIMIT ==> r.roll == ROLL_LIMIT
    ensures !s.onGround && s.roll + s.aileron as real * CONTROL_GAIN < -ROLL_LIMIT ==> r.roll == -ROLL_LIMIT
    // yaw is not limited
    ensures !s.onGround ==> r.yaw == s.yaw + s.rudder as real * CONTROL_GAIN
    ensures r == s.(pitch := r.pitch, roll := r.roll, yaw := r.yaw)
  {
    if !s.onGround then
      s.(pitch := Clamp(Deflect(s.pitch, s.elevator), -PITCH_LIMIT, PITCH_LIMIT),
         roll := Clamp(Deflect(s.roll, s.aileron), -ROLL_LIMIT, ROLL_LIMIT),
         yaw := Deflect(s.yaw, s.rudder))
    else
      s
  }

  /** PHYSICS (app.js:99-113): aerodynamic forces in the air; on the ground
      the throttle pushes the aircraft forward directly. Only vx and vy change. */
  function ForcePhase(s: Aircraft, speed: real, cos: real -> real): (r: Aircraft)
    ensures r == s.(vx := r.vx, vy := r.vy)
    // on the ground vx gains GROUND_THRUST * throttle * DT, so a non-negative
    // throttle never slows the aircraft
    ensures s.onGround ==> r.vy == s.vy && r.vx == s.vx + GROUND_THRUST * s.throttle * DT
  {
    if !s.onGround then
      var thrust := MAX_THRUST * s.throttle;
      var aoa := -s.pitch;
      var lift := 0.5 * AIR_DENSITY * speed * speed * WING_AREA * LIFT_COEFF * cos(aoa);
      var drag := 0.5 * AIR_DENSITY * speed * speed * WING_AREA * DRAG_COEFF;
      var fx := thrust * cos(s.pitch) - drag;
      var fy := lift - MASS * G * cos(s.pitch);
      s.(vx := s.vx + fx / MASS * DT, vy := s.vy + fy / MASS * DT)
    else
      s.(vx := s.vx + GROUND_THRUST * s.throttle * DT)
  }

  /** UPDATE POSITION (app.js:116-118): integrate x and y, then re-apply the
      runway floor. */
  function PositionPhase(s: Aircraft): (r: Aircraft)
    ensures r.y >= RUNWAY_Y
    ensures r.x == s.x + s.vx * DT
    // the floor clamp fires exactly when integration would sink below the runway
    ensures s.y + s.vy * DT < RUNWAY_Y ==> r.y == RUNWAY_Y && r.vy == 0.0
    ensures s.y + s.vy * DT >= RUNWAY_Y ==> r.y == s.y + s.vy * DT && r.vy == s.vy
    ensures r == s.(x := r.x, y := r.y, vy := r.vy)
  {
    var x := s.x + s.vx * DT;
    var y := s.y + s.vy * DT;
    if y < RUNWAY_Y then s.(x := x, y := RUNWAY_Y, vy := 0.0) else s.(x := x, y := y)
  }

  /** WARNINGS (app.js:121-123): OVERSPEED is written first and STALL, when
      it applies, overwrites it. */
  function WarningLabel(pitch: real, onGround: bool, speed: real): (w: string)
    ensures w == STALL_WARNING <==> Abs(pitch) > STALL_PITCH && !onGround
    ensures w == OVERSPEED_WARNING <==> !(Abs(pitch) > STALL_PITCH && !onGround) && speed > OVERSPEED
    ensures w == NO_WARNING <==> !(Abs(pitch) > STALL_PITCH && !onGround) && speed <= OVERSPEED
  {
    var showWarn := if speed > OVERSPEED then OVERSPEED_WARNING else NO_WARNING;
    if Abs(pitch) > STALL_PITCH && !onGround then STALL_WARNING else showWarn
  }

  /** app.js:124: the label is stored in the record. */
  function WarningPhase(s: Aircraft, speed: real): (r: Aircraft) {
    s.(warningText := WarningLabel(s.pitch, s.onGround, speed))
  }

  /** One whole frame of the update. */
  function Step(s: Aircraft, speed: real, cos: real -> real): (r: Aircraft) {
    WarningPhase(PositionPhase(ForcePhase(ControlPhase(GroundPhase(s, speed)), speed, cos)), speed)
  }

  /** After any frame the aircraft is at or above the runway, and whenever
      the floor clamp of the position update fires it ends on the runway with
      no vertical speed. If it started the frame on or below the runway, it
      ends either resting on the runway with no vertical speed, or above it
      and climbing. */
  lemma StepAltitudeFloor(s: Aircraft, speed: real, cos: real -> real)
    ensures Step(s, speed, cos).y >= RUNWAY_Y
    ensures var f := ForcePhase(ControlPhase(GroundPhase(s, speed)), speed, cos);
      f.y + f.vy * DT < RUNWAY_Y ==> Step(s, speed, cos).y == RUNWAY_Y && Step(s, speed, cos).vy == 0.0
    ensures s.y <= RUNWAY_Y ==>
      var r := Step(s, speed, cos);
      r.vy >= 0.0 && (r.y == RUNWAY_Y <==> r.vy == 0.0)
  {
  }

  /** A frame keeps pitch and roll within their limits. */
  lemma StepKeepsAttitudeBounds(s: Aircraft, speed: real, cos: real -> real)
    requires -PITCH_LIMIT <= s.pitch <= PITCH_LIMIT && -ROLL_LIMIT <= s.roll <= ROLL_LIMIT
    ensures var r := Step(s, speed, cos);
      -PITCH_LIMIT <= r.pitch <= PITCH_LIMIT && -ROLL_LIMIT <= r.roll <= ROLL_LIMIT
  {
  }

  /** When the frame leaves the aircraft on the ground, its orientation is
      untouched, it rests on the runway with no vertical speed, and vx gets
      only the ground update: friction below taxi speed, then throttle push. */
  lemma StepGroundedMotion(s: Aircraft, speed: real, cos: real -> real)
    ensures var r := Step(s, speed, cos);
      r.onGround ==>
        r.pitch == s.pitch && r.roll == s.roll && r.yaw == s.yaw &&
        r.y == RUNWAY_Y && r.vy == 0.0 &&
        r.vx == (if speed < TAXI_SPEED then s.vx * ROLLING_FRICTION else s.vx)
                + GROUND_THRUST * s.throttle * DT
  {
  }

  /** The four transitions of the ground-contact machine. */
  lemma StepGroundTransitions(s: Aircraft, speed: real, cos: real -> real)
    ensures s.y > RUNWAY_Y ==> !Step(s, speed, cos).onGround
    ensures s.y <= RUNWAY_Y && speed < TAXI_SPEED ==> Step(s, speed, cos).onGround
    ensures s.y <= RUNWAY_Y && speed >= TAXI_SPEED &&
            s.throttle > LIFTOFF_THROTTLE && speed > LIFTOFF_SPEED ==>
              !Step(s, speed, cos).onGround
    ensures s.y <= RUNWAY_Y && speed >= TAXI_SPEED &&
            !(s.throttle > LIFTOFF_THROTTLE && speed > LIFTOFF_SPEED) ==>
              Step(s, speed, cos).onGround == s.onGround
  {
  }

  /** The stored warning is STALL exactly when the post-control pitch exceeds
      0.3 in the air; otherwise OVERSPEED exactly when the start-of-frame
      speed exceeds 180; otherwise empty. */
  lemma StepWarning(s: Aircraft, speed: real, cos: real -> real)
    ensures var r := Step(s, speed, cos);
      var stall := Abs(r.pitch) > STALL_PITCH && !r.onGround;
      (r.warningText == STALL_WARNING <==> stall) &&
      (r.warningText == OVERSPEED_WARNING <==> !stall && speed > OVERSPEED) &&
      (r.warningText == NO_WARNING <==> !stall && speed <= OVERSPEED)
    ensures Step(s, speed, cos).pitch == ControlPhase(GroundPhase(s, speed)).pitch
  {
  }

  /** A frame never writes the throttle, the deflections, the camera, the
      lateral position and velocity, or the stall flag. */
  lemma StepFrame(s: Aircraft, speed: real, cos: real -> real)
    ensures var r := Step(s, speed, cos);
      r == s.(x := r.x, y := r.y, vx := r.vx, vy := r.vy,
              pitch := r.pitch, roll := r.roll, yaw := r.yaw,
              onGround := r.onGround, warningText := r.warningText)
  {
  }

  /** Liftoff from the runway at 23 m/s needs throttle above one half:
      at 0.6 the aircraft leaves the ground, at 0.3 it keeps rolling. */
  lemma LiftoffScenario(s: Aircraft, cos: real -> real)
    requires s.onGround && s.y == RUNWAY_Y
    ensures !Step(s.(throttle := 0.6), 23.0, cos).onGround
    ensures Step(s.(throttle := 0.3), 23.0, cos).onGround
  {
  }
}
