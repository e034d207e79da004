/** The touch handlers of app.js (lines 51-67) as functions on the aircraft
    record: what each button press and release writes. */
module Controls {
  import opened FlightState

  /** The on-screen buttons that have a `touchstart` handler. */
  datatype Button =
    | Up | Down | Left | Right | Center
    | ThrottleUp | ThrottleDown
    | RudderLeft | RudderRight
    | Reset | Camera

  /** The six buttons that are held: they also have a `touchend` handler. */
  type HeldButton = b: Button
    | b.Up? || b.Down? || b.Left? || b.Right? || b.RudderLeft? || b.RudderRight?
    witness Up

  /** The DOM id of each button. */
  function Id(b: Button): (id: string) {
    match b
    case Up => "btn-up"
    case Down => "btn-down"
    case Left => "btn-left"
    case Right => "btn-right"
    case Center => "btn-center"
    case ThrottleUp => "btn-throttle-up"
    case ThrottleDown => "btn-throttle-down"
    case RudderLeft => "btn-rudder-left"
    case RudderRight => "btn-rudder-right"
    case Reset => "btn-reset"
    case Camera => "btn-camera"
  }

  /** `id.startsWith('btn-rudder')` */
  predicate IsRudderId(id: string) {
    "btn-rudder" <= id
  }

  /** The camera button's `state.camera % 4 + 1`, with JavaScript's `%`. */
  function NextCamera(c: int): (r: int)
    ensures c >= 0 ==> 1 <= r <= 4
    ensures 1 <= c < 4 ==> r == c + 1
    ensures c == 4 ==> r == 1
    ensures c < 0 ==> -2 <= r <= 1
  {
    JsRem(c, 4) + 1
  }

  /** The record after the `touchstart` handler of button `b` has run. */
  function TouchStart(s: Aircraft, b: Button): (r: Aircraft) {
    match b
    case Up => s.(elevator := -1)
    case Down => s.(elevator := 1)
    case Left => s.(aileron := -1)
    case Right => s.(aileron := 1)
    case Center => s.(elevator := 0, aileron := 0, rudder := 0, warningText := NO_WARNING)
    case ThrottleUp => s.(throttle := Clamp(s.throttle + THROTTLE_STEP, 0.0, 1.0))
    case ThrottleDown => s.(throttle := Clamp(s.throttle - THROTTLE_STEP, 0.0, 1.0))
    case RudderLeft => s.(rudder := -1)
    case RudderRight => s.(rudder := 1)
    case Reset =>
      s.(x := 0.0, y := RUNWAY_Y, z := 0.0, vx := 0.0, vy := 0.0, vz := 0.0,
         pitch := 0.0, roll := 0.0, yaw := 0.0,
         elevator := 0, aileron := 0, rudder := 0, throttle := 0.0, onGround := true)
    case Camera => s.(camera := NextCamera(s.camera))
  }

  /** The record after the `touchend` handler of held button `b` has run. */
  function TouchEnd(s: Aircraft, b: HeldButton): (r: Aircraft) {
    if IsRudderId(Id(b)) then s.(rudder := 0)
    else s.(elevator := 0, aileron := 0)
  }

  /** Only the two rudder buttons have ids starting with "btn-rudder". */
  lemma RudderIds(b: HeldButton)
    ensures IsRudderId(Id(b)) <==> b == RudderLeft || b == RudderRight
  {
  }

  /** A throttle press keeps the throttle in [0, 1] and moves it by exactly
      one step unless that would leave the range, in which case it stops at
      the bound. */
  lemma ThrottleUpStep(s: Aircraft)
    requires 0.0 <= s.throttle <= 1.0
    ensures var t := TouchStart(s, ThrottleUp).throttle;
      0.0 <= t <= 1.0 &&
      t == (if s.throttle + THROTTLE_STEP <= 1.0 then s.throttle + THROTTLE_STEP else 1.0)
    ensures TouchStart(s, ThrottleUp) == s.(throttle := TouchStart(s, ThrottleUp).throttle)
  {
  }

  lemma ThrottleDownStep(s: Aircraft)
    requires 0.0 <= s.throttle <= 1.0
    ensures var t := TouchStart(s, ThrottleDown).throttle;
      0.0 <= t <= 1.0 &&
      t == (if s.throttle - THROTTLE_STEP >= 0.0 then s.throttle - THROTTLE_STEP else 0.0)
    ensures TouchStart(s, ThrottleDown) == s.(throttle := TouchStart(s, ThrottleDown).throttle)
  {
  }

  /** Releasing a rudder button clears only the rudder; releasing any other
      held button clears elevator and aileron and leaves the rudder alone. */
  lemma ReleaseClears(s: Aircraft, b: HeldButton)
    ensures b == RudderLeft || b == RudderRight ==> TouchEnd(s, b) == s.(rudder := 0)
    ensures b != RudderLeft && b != RudderRight ==>
      TouchEnd(s, b) == s.(elevator := 0, aileron := 0) && TouchEnd(s, b).rudder == s.rudder
  {
    RudderIds(b);
  }

  /** The centre button zeroes all three deflections and the warning text,
      whatever they were before. */
  lemma CenterClears(s: Aircraft)
    ensures var r := TouchStart(s, Center);
      r.elevator == 0 && r.aileron == 0 && r.rudder == 0 && r.warningText == NO_WARNING &&
      r == s.(elevator := 0, aileron := 0, rudder := 0, warningText := NO_WARNING)
  {
  }

  /** Reset puts every kinematic and control field back to its value at page
      load and sets the ground flag; the camera mode, the warning text and the
      unused stall flag are not part of the reset. */
  lemma ResetRestores(s: Aircraft)
    ensures TouchStart(s, Reset) ==
      INITIAL.(camera := s.camera, stall := s.stall, warningText := s.warningText)
  {
  }

  /** Pressing the camera button four times from any mode 1..4 returns to
      that mode, visiting the next mode each time. */
  lemma CameraCycles(c: int)
    requires 1 <= c <= 4
    ensures NextCamera(c) == (if c == 4 then 1 else c + 1)
    ensures NextCamera(NextCamera(NextCamera(NextCamera(c)))) == c
  {
  }
}
