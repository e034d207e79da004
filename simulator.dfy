/** The module-level `state` object of app.js as a class whose fields the
    touch handlers and the animation frame overwrite in place. The record's
    seventeen fields are kept in eight: position (x, y, z), velocity
    (vx, vy, vz), orientation (pitch, roll, yaw), controls (elevator,
    aileron, rudder, throttle), and the camera mode, stall flag, warning
    text and ground flag. Snap() reads them back as the flat record.

    Each method is proved to produce the record its specification function
    describes (modules Controls and FlightModel), and to keep the session
    invariant; the phase methods of a frame keep it as well. */
module Simulator {
  import opened FlightState
  import opened Controls
  import opened FlightModel
  import opened Session

  class State {
    var position: Vector
    var velocity: Vector
    var orientation: Orientation
    var controls: ControlState
    var camera: int
    var stall: bool
    var warningText: string
    var onGround: bool

    /** The current contents of the record, as a value. */
    function Snap(): (r: Aircraft)
      reads this
    {
      Aircraft(position.x, position.y, position.z,
               velocity.x, velocity.y, velocity.z,
               orientation.pitch, orientation.roll, orientation.yaw,
               controls.elevator, controls.aileron, controls.rudder, controls.throttle,
               camera, stall, warningText, onGround)
    }

    predicate Valid()
      reads this
    {
      Inv(Snap())
    }

    /** The record at page load (app.js:22-40): on the runway, engine idle. */
    constructor ()
      ensures Snap() == INITIAL
      ensures Valid()
    {
      position := Vector(0.0, RUNWAY_Y, 0.0);
      velocity := Vector(0.0, 0.0, 0.0);
      orientation := Orientation(0.0, 0.0, 0.0);
      controls := ControlState(0, 0, 0, 0.0);
      camera := 1;
      stall := false;
      warningText := NO_WARNING;
      onGround := true;
      InitialInv();
    }

    method PressUp()
      modifies this
      ensures controls.elevator == -1
      ensures Snap() == TouchStart(old(Snap()), Up)
      ensures old(Valid()) ==> Valid()
    {
      controls := controls.(elevator := -1);
    }

    method PressDown()
      modifies this
      ensures controls.elevator == 1
      ensures Snap() == TouchStart(old(Snap()), Down)
      ensures old(Valid()) ==> Valid()
    {
      controls := controls.(elevator := 1);
    }

    method PressLeft()
      modifies this
      ensures controls.aileron == -1
      ensures Snap() == TouchStart(old(Snap()), Left)
      ensures old(Valid()) ==> Valid()
    {
      controls := controls.(aileron := -1);
    }

    method PressRight()
      modifies this
      ensures controls.aileron == 1
      ensures Snap() == TouchStart(old(Snap()), Right)
      ensures old(Valid()) ==> Valid()
    {
      controls := controls.(aileron := 1);
    }

    method PressRudderLeft()
      modifies this
      ensures controls.rudder == -1
      ensures Snap() == TouchStart(old(Snap()), RudderLeft)
      ensures old(Valid()) ==> Valid()
    {
      controls := controls.(rudder := -1);
    }

    method PressRudderRight()
      modifies this
      ensures controls.rudder == 1
      ensures Snap() == TouchStart(old(Snap()), RudderRight)
      ensures old(Valid()) ==> Valid()
    {
      controls := controls.(rudder := 1);
    }

    /** The centre button neutralises all controls and clears the warning. */
    method PressCenter()
      modifies this
      ensures controls == old(controls).(elevator := 0, aileron := 0, rudder := 0)
      ensures warningText == NO_WARNING
      ensures Snap() == TouchStart(old(Snap()), Center)
      ensures old(Valid()) ==> Valid()
    {
      controls := controls.(elevator := 0);
      controls := controls.(aileron := 0);
      controls := controls.(rudder := 0);
      warningText := NO_WARNING;
    }

    method PressThrottleUp()
      modifies this
      ensures old(0.0 <= controls.throttle <= 1.0) ==> 0.0 <= controls.throttle <= 1.0
      ensures old(controls.throttle) + THROTTLE_STEP <= 1.0 && old(controls.throttle) >= -THROTTLE_STEP ==>
        controls.throttle == old(controls.throttle) + THROTTLE_STEP
      ensures Snap() == TouchStart(old(Snap()), ThrottleUp)
      ensures old(Valid()) ==> Valid()
    {
      controls := controls.(throttle := Clamp(controls.throttle + THROTTLE_STEP, 0.0, 1.0));
      if old(Valid()) {
        TouchStartKeepsInv(old(Snap()), ThrottleUp);
      }
    }

    method PressThrottleDown()
      modifies this
      ensures old(0.0 <= controls.throttle <= 1.0) ==> 0.0 <= controls.throttle <= 1.0
      ensures old(controls.throttle) - THROTTLE_STEP >= 0.0 && old(controls.throttle) <= 1.0 + THROTTLE_STEP ==>
        controls.throttle == old(controls.throttle) - THROTTLE_STEP
      ensures Snap() == TouchStart(old(Snap()), ThrottleDown)
      ensures old(Valid()) ==> Valid()
    {
      controls := controls.(throttle := Clamp(controls.throttle - THROTTLE_STEP, 0.0, 1.0));
      if old(Valid()) {
        TouchStartKeepsInv(old(Snap()), ThrottleDown);
      }
    }

    /** Reset (app.js:60-62) restores the page-load values of every field it
        lists; camera, warning text and stall flag are not among them. */
    method PressReset()
      modifies this
      ensures Snap() == INITIAL.(camera := old(camera), stall := old(stall),
                                 warningText := old(warningText))
      ensures Snap() == TouchStart(old(Snap()), Reset)
      ensures old(Valid()) ==> Valid()
    {
      position := Vector(0.0, RUNWAY_Y, 0.0);
      velocity := Vector(0.0, 0.0, 0.0);
      orientation := Orientation(0.0, 0.0, 0.0);
      controls := ControlState(0, 0, 0, 0.0);
      onGround := true;
      ResetRestores(old(Snap()));
      if old(Valid()) {
        TouchStartKeepsInv(old(Snap()), Reset);
      }
    }

    method PressCamera()
      modifies this
      ensures old(camera) >= 0 ==> 1 <= camera <= 4
      ensures 1 <= old(camera) <= 4 ==> camera == if old(camera) == 4 then 1 else old(camera) + 1
      ensures Snap() == TouchStart(old(Snap()), Camera)
      ensures old(Valid()) ==> Valid()
    {
      camera := NextCamera(camera);
    }

    /** The `touchend` handler shared by the six held buttons (app.js:65-67). */
    method Release(b: HeldButton)
      modifies this
      ensures b == RudderLeft || b == RudderRight ==> controls == old(controls).(rudder := 0)
      ensures b != RudderLeft && b != RudderRight ==>
        controls == old(controls).(elevator := 0, aileron := 0)
      ensures Snap() == TouchEnd(old(Snap()), b)
      ensures old(Valid()) ==> Valid()
    {
      RudderIds(b);
      if IsRudderId(Id(b)) {
        controls := controls.(rudder := 0);
      } else {
        controls := controls.(elevator := 0);
        controls := controls.(aileron := 0);
      }
    }

    /** One animation frame (app.js:73-124), without the display, sound and
        scheduling that follow it. `speed` is the frame's Math.sqrt of the
        squared velocity and `cos` is Math.cos. */
    method Tick(speed: real, cos: real -> real)
      requires speed >= 0.0
      requires speed * speed == velocity.x * velocity.x + velocity.y * velocity.y + velocity.z * velocity.z
      modifies this
      ensures Snap() == Step(old(Snap()), speed, cos)
      ensures position.y >= RUNWAY_Y
      ensures onGround ==> position.y == RUNWAY_Y && velocity.y == 0.0
      ensures controls == old(controls) && camera == old(camera)
      ensures position.z == old(position.z) && velocity.z == old(velocity.z)
      ensures old(Valid()) ==> Valid()
    {
      ghost var s0 := Snap();
      GroundContact(speed);
      ApplyControls();
      ApplyForces(speed, cos);
      UpdatePosition();
      UpdateWarning(speed);
      StepAltitudeFloor(s0, speed, cos);
      StepGroundedMotion(s0, speed, cos);
      if old(Valid()) {
        StepKeepsInv(s0, speed, cos);
      }
    }

    /** Ground and takeoff logic (app.js:76-87). */
    method GroundContact(speed: real)
      modifies this
      ensures Snap() == GroundPhase(old(Snap()), speed)
      ensures old(Valid()) ==> Valid()
    {
      if position.y <= RUNWAY_Y {
        position := position.(y := RUNWAY_Y);
        velocity := velocity.(y := 0.0);
        if speed < TAXI_SPEED {
          onGround := true;
          velocity := velocity.(x := velocity.x * ROLLING_FRICTION);
        } else if controls.throttle > LIFTOFF_THROTTLE && speed > LIFTOFF_SPEED {
          onGround := false;
        }
      } else {
        onGround := false;
      }
      if old(Valid()) {
        GroundPhaseKeepsInv(old(Snap()), speed);
      }
    }

    /** Controls (app.js:90-96). */
    method ApplyControls()
      modifies this
      ensures Snap() == ControlPhase(old(Snap()))
      ensures old(Valid()) ==> Valid()
    {
      if !onGround {
        if controls.elevator != 0 {
          orientation := orientation.(pitch := orientation.pitch + controls.elevator as real * CONTROL_GAIN);
        }
        if controls.aileron != 0 {
          orientation := orientation.(roll := orientation.roll + controls.aileron as real * CONTROL_GAIN);
        }
        if controls.rudder != 0 {
          orientation := orientation.(yaw := orientation.yaw + controls.rudder as real * CONTROL_GAIN);
        }
        orientation := orientation.(pitch := Clamp(orientation.pitch, -PITCH_LIMIT, PITCH_LIMIT));
        orientation := orientation.(roll := Clamp(orientation.roll, -ROLL_LIMIT, ROLL_LIMIT));
      }
      if old(Valid()) {
        ControlPhaseKeepsInv(old(Snap()));
      }
    }

    /** Physics (app.js:99-113). */
    method ApplyForces(speed: real, cos: real -> real)
      modifies this
      ensures Snap() == ForcePhase(old(Snap()), speed, cos)
      ensures old(Valid()) ==> Valid()
    {
      if !onGround {
        var thrust := MAX_THRUST * controls.throttle;
        var aoa := -orientation.pitch;
        var lift := 0.5 * AIR_DENSITY * speed * speed * WING_AREA * LIFT_COEFF * cos(aoa);
        var drag := 0.5 * AIR_DENSITY * speed * speed * WING_AREA * DRAG_COEFF;
        var fx := thrust * cos(orientation.pitch) - drag;
        var fy := lift - MASS * G * cos(orientation.pitch);
        velocity := velocity.(x := velocity.x + fx / MASS * DT);
        velocity := velocity.(y := velocity.y + fy / MASS * DT);
      } else {
        velocity := velocity.(x := velocity.x + GROUND_THRUST * controls.throttle * DT);
      }
      if old(Valid()) {
        ForcePhaseKeepsInv(old(Snap()), speed, cos);
      }
    }

    /** Update position (app.js:116-118). */
    method UpdatePosition()
      modifies this
      ensures Snap() == PositionPhase(old(Snap()))
      ensures old(Valid()) ==> Valid()
    {
      position := position.(x := position.x + velocity.x * DT);
      position := position.(y := position.y + velocity.y * DT);
      if position.y < RUNWAY_Y {
        position := position.(y := RUNWAY_Y);
        velocity := velocity.(y := 0.0);
      }
      if old(Valid()) {
        PositionPhaseKeepsInv(old(Snap()));
      }
    }

    /** Warnings (app.js:121-124). */
    method UpdateWarning(speed: real)
      modifies this
      ensures Snap() == WarningPhase(old(Snap()), speed)
      ensures old(Valid()) ==> Valid()
    {
      var showWarn := NO_WARNING;
      if speed > OVERSPEED { showWarn := OVERSPEED_WARNING; }
      if Abs(orientation.pitch) > STALL_PITCH && !onGround { showWarn := STALL_WARNING; }
      warningText := showWarn;
      if old(Valid()) {
        WarningPhaseKeepsInv(old(Snap()), speed);
      }
    }
  }
}
