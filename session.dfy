/** A session of the page: from page load, any interleaving of button
    presses, button releases and animation frames. Handlers and frames each
    run to completion (app.js is single-threaded), so a session is a
    sequence of events applied one after another. */
module Session {
  import opened FlightState
  import opened Controls
  import opened FlightModel

  /** One thing that happens to the record. A frame carries the speed the
      frame computes from the velocity; the lemmas below hold for any value. */
  datatype Event =
    | Press(button: Button)
    | Release(held: HeldButton)
    | Frame(speed: real)

  function Apply(s: Aircraft, e: Event, cos: real -> real): (r: Aircraft) {
    match e
    case Press(b) => TouchStart(s, b)
    case Release(b) => TouchEnd(s, b)
    case Frame(speed) => Step(s, speed, cos)
  }

  /** The record after the events, in order. */
  function Run(s: Aircraft, events: seq<Event>, cos: real -> real): (r: Aircraft)
    decreases |events|
  {
    if events == [] then s else Run(Apply(s, events[0], cos), events[1..], cos)
  }

  predicate IsDeflection(d: int) {
    d == -1 || d == 0 || d == 1
  }

  /** What holds of the record in every reachable state. */
  predicate Inv(s: Aircraft) {
    && 0.0 <= s.throttle <= 1.0
    && -PITCH_LIMIT <= s.pitch <= PITCH_LIMIT
    && -ROLL_LIMIT <= s.roll <= ROLL_LIMIT
    && s.y >= RUNWAY_Y
    && (s.onGround ==> s.y == RUNWAY_Y && s.vy == 0.0)
    && 1 <= s.camera <= 4
    && IsDeflection(s.elevator) && IsDeflection(s.aileron) && IsDeflection(s.rudder)
    && (s.warningText == NO_WARNING || s.warningText == OVERSPEED_WARNING
        || s.warningText == STALL_WARNING)
  }

  lemma InitialInv()
    ensures Inv(INITIAL)
  {
  }

  lemma TouchStartKeepsInv(s: Aircraft, b: Button)
    requires Inv(s)
    ensures Inv(TouchStart(s, b))
  {
    match b
    case ThrottleUp => ThrottleUpStep(s);
    case ThrottleDown => ThrottleDownStep(s);
    case _ =>
  }

  lemma TouchEndKeepsInv(s: Aircraft, b: HeldButton)
    requires Inv(s)
    ensures Inv(TouchEnd(s, b))
  {
  }

  /** Each phase of a frame keeps the invariant on its own, so it also holds
      between the phases of one frame. */
  lemma GroundPhaseKeepsInv(s: Aircraft, speed: real)
    requires Inv(s)
    ensures Inv(GroundPhase(s, speed))
  {
  }

  lemma ControlPhaseKeepsInv(s: Aircraft)
    requires Inv(s)
    ensures Inv(ControlPhase(s))
  {
  }

  lemma ForcePhaseKeepsInv(s: Aircraft, speed: real, cos: real -> real)
    requires Inv(s)
    ensures Inv(ForcePhase(s, speed, cos))
  {
  }

  lemma PositionPhaseKeepsInv(s: Aircraft)
    requires Inv(s)
    ensures Inv(PositionPhase(s))
  {
  }

  lemma WarningPhaseKeepsInv(s: Aircraft, speed: real)
    requires Inv(s)
    ensures Inv(WarningPhase(s, speed))
  {
  }

  /** A frame keeps the invariant; in particular it never leaves the aircraft
      grounded anywhere but resting on the runway. */
  lemma StepKeepsInv(s: Aircraft, speed: real, cos: real -> real)
    requires Inv(s)
    ensures Inv(Step(s, speed, cos))
  {
  }

  lemma ApplyKeepsInv(s: Aircraft, e: Event, cos: real -> real)
    requires Inv(s)
    ensures Inv(Apply(s, e, cos))
  {
    match e
    case Press(b) => TouchStartKeepsInv(s, b);
    case Release(b) => TouchEndKeepsInv(s, b);
    case Frame(speed) => StepKeepsInv(s, speed, cos);
  }

  /** Every state reachable from page load satisfies the invariant: throttle
      in [0, 1], pitch and roll within their limits, altitude at or above the
      runway and pinned to it while grounded, camera mode in 1..4, deflections
      in {-1, 0, 1} and one of the three warning labels. */
  lemma {:induction false} SessionInvariant(s: Aircraft, events: seq<Event>, cos: real -> real)
    requires Inv(s)
    ensures Inv(Run(s, events, cos))
    decreases |events|
  {
    if events != [] {
      ApplyKeepsInv(s, events[0], cos);
      SessionInvariant(Apply(s, events[0], cos), events[1..], cos);
    }
  }

  lemma ReachableInv(events: seq<Event>, cos: real -> real)
    ensures Inv(Run(INITIAL, events, cos))
  {
    InitialInv();
    SessionInvariant(INITIAL, events, cos);
  }
}
