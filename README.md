# Runway flight simulator: the per-frame state update, in Dafny

This project models the core of a browser flight simulator for touch screens, in its runway
take-off and landing variant (`app.js`). All simulation state lives in one mutable record
called `state`. Touch handlers write the control fields, the camera mode and the warning
text, and the reset button also restores the kinematic fields and the ground flag. Once per
animation frame, `animate()` advances it through five phases:

1. The ground-contact machine decides whether the aircraft is on the runway.
2. Control deflections turn the aircraft, but only in the air.
3. Thrust, lift, drag and gravity change the velocity. On the ground, the throttle pushes
   the aircraft forward directly.
4. Position is integrated, and the runway floor at altitude 3 is re-applied.
5. The STALL / OVERSPEED warning is derived from the new pitch and ground flag, and from
   the speed measured at the start of the frame.

The project has five modules:

- `FlightState` (`flight_state.dfy`) holds the record as a value (`Aircraft`), its
  page-load value `INITIAL`, the physics constants, and `clamp`.
- `Controls` (`controls.dfy`) models each touch handler as a function on the record
  (`TouchStart`, `TouchEnd`), with lemmas about the throttle step, the release rule, the
  centre button, reset and the camera cycle.
- `FlightModel` (`flight_model.dfy`) models the five phases of a frame as functions. Each
  function's contract states what its phase guarantees. `Step` is their composition. Lemmas
  state what one whole frame guarantees.
- `Session` (`session.dfy`) covers a whole session: any sequence of presses, releases and
  frames, applied in order. JavaScript runs each handler and each frame to completion, so
  this order is the only thing that matters. Lemmas prove, by induction over the sequence,
  an invariant that holds in every reachable state.
- `Simulator` (`simulator.dfy`) is the imperative model. Class `State` has mutable fields,
  one method per touch handler, and a `Tick` method for one frame. `Tick` runs the five
  phase methods in the source's order. Each method is proved to leave exactly the record
  that its specification function gives, and to keep the session invariant: the
  constructor, every handler method, `Tick`, and each of the five phase methods on its own.

JavaScript numbers are modelled as exact `real`s. Control deflections and the camera mode
are `int`s, because the source only ever gives them whole values. The frame's speed is
`Math.sqrt` of the squared velocity, and it is an input to `Tick`. `Tick` requires
`speed >= 0` and `speed * speed == vx*vx + vy*vy + vz*vz`. `Math.cos` is a parameter
`cos: real -> real` that is never interpreted. Lift and drag are therefore opaque values,
and no proved property depends on them. The specification function `Step` accepts any
speed, so the session invariant is proved for every sequence of speed values. That is
stronger than needed.

The class keeps the record's seventeen fields in eight: `position` (x, y, z),
`velocity` (vx, vy, vz), `orientation` (pitch, roll, yaw), `controls` (elevator,
aileron, rudder, throttle), `camera`, `stall`, `warningText` and `onGround`. `Snap()`
reads these back as the flat record. Each source assignment `state.f = v` becomes an
in-place update of the group that holds `f`.

Three behaviours of `animate()` worth knowing:

- OVERSPEED is judged on the speed computed at the start of the frame (app.js:73, 122),
  not on the speed after the forces have been applied.
- Nothing grounds the aircraft when it sinks back to the runway. The floor clamp
  (app.js:118) pins it at altitude 3 with `vy == 0`, and `onGround` becomes true only on a
  later frame whose start-of-frame speed is below 20 (app.js:80-81). On the runway at speed
  20 or more, the flag keeps its previous value unless the liftoff test (throttle above 0.5
  and speed above 22, app.js:82) makes it false.
- On a liftoff frame the runway branch resets `vy` to 0 (app.js:78) and the force phase sets
  it again (app.js:109). So after a frame that started on the runway, `vy` is never
  negative, and it is 0 exactly when the frame ends at altitude 3 (`StepAltitudeFloor`).

## Model

| member | source | states |
|---|---|---|
| `FlightState.Clamp` | app.js:69 | the result is at least `a`; when `a <= b` it lies in `[a, b]`, equals `x` when `x` is already in range, and equals the bound that `x` passes otherwise |
| `FlightState.Abs` | app.js:123 | `Math.abs`: the result is non-negative and equals either the argument or its negation |
| `Controls.Id` | app.js:51-65 | the element id of each of the eleven buttons; no contract of its own: `RudderIds` states which ids carry the rudder prefix |
| `Controls.IsRudderId` | app.js:66 | `id.startsWith('btn-rudder')`; no contract of its own: `RudderIds` states that it holds exactly for the two rudder buttons among the held ones |
| `FlightState.JsRem` | app.js:63 | JavaScript's `%` on integers: for a positive divisor the result is a remainder of `a` by `n` (`a == q * n + r` for some integer `q`), in [0, n) for a non-negative dividend and in (-n, 0] for a negative one, which together fix it to the truncating remainder |
| `Controls.TouchStart` | app.js:51-63 | the record after the `touchstart` handler of a button; no contract of its own: `ThrottleUpStep`, `ThrottleDownStep`, `CenterClears`, `ResetRestores`, `CameraCycles` and `TouchStartKeepsInv` state its properties |
| `Controls.TouchEnd` | app.js:65-67 | the record after the shared `touchend` handler; no contract of its own: `ReleaseClears` and `TouchEndKeepsInv` state its properties |
| `FlightModel.Deflect` | app.js:91-93 | `if (d) a += d * 0.002`: the result is `angle + d × 0.002` for every deflection, so the guard never changes the outcome |
| `FlightModel.WarningPhase` | app.js:124 | stores `WarningLabel` as the warning text; no contract of its own: `StepWarning` states the stored label |
| `FlightModel.Step` | app.js:73-124 | one whole frame, the composition of the five phases; no contract of its own: `StepAltitudeFloor`, `StepKeepsAttitudeBounds`, `StepGroundedMotion`, `StepGroundTransitions`, `StepWarning`, `StepFrame`, `LiftoffScenario` and `StepKeepsInv` state its properties |
| `Controls.NextCamera` | app.js:63 | from any non-negative mode the result is in 1..4; modes 1, 2, 3 go to the next mode and 4 goes to 1; a negative mode gives a result in -2..1, because JavaScript's `%` keeps the dividend's sign |
| `Controls.CameraCycles` | app.js:63 | from a mode in 1..4, one press goes to the next mode and four presses return to the start |
| `Controls.RudderIds` | app.js:65-66 | among the six held buttons, only the two rudder buttons have ids that start with `btn-rudder` |
| `Controls.ThrottleUpStep` | app.js:56 | from a throttle in [0, 1], the throttle stays in [0, 1] and rises by exactly 0.08, or stops at 1 when 0.08 would pass it; no other field changes |
| `Controls.ThrottleDownStep` | app.js:57 | from a throttle in [0, 1], the throttle stays in [0, 1] and falls by exactly 0.08, or stops at 0; no other field changes |
| `Controls.ReleaseClears` | app.js:65-67 | releasing a rudder button clears only the rudder; releasing any other held button clears elevator and aileron and leaves the rudder unchanged |
| `Controls.CenterClears` | app.js:55 | the centre button sets elevator, aileron and rudder to 0, empties the warning text, and changes nothing else |
| `Controls.ResetRestores` | app.js:60-62 | reset gives the page-load record, except that the camera mode, warning text and stall flag keep their values |
| `FlightModel.GroundPhase` | app.js:76-87 | the aircraft is grounded afterwards iff it was at or below altitude 3 and either its speed was below 20 or it was already grounded and did not meet the liftoff test (throttle > 0.5 and speed > 22); at or below the runway, y becomes 3 and vy becomes 0; above it, y and vy are unchanged; vx is multiplied by 0.98 exactly when on the runway below speed 20; no other field changes |
| `FlightModel.ControlPhase` | app.js:90-96 | on the ground the record is unchanged; in the air, pitch ends in [-0.45, 0.45] and roll ends in [-0.8, 0.8]; each changes by exactly deflection × 0.002 when that stays within its limit and otherwise stops exactly at the limit it would pass; yaw always changes by rudder × 0.002; only the orientation changes |
| `FlightModel.ForcePhase` | app.js:99-113 | only vx and vy change; on the ground vy is unchanged and vx grows by exactly 25 × throttle × 0.022 |
| `FlightModel.PositionPhase` | app.js:116-118 | the new altitude is at least 3; x advances by vx × 0.022; when the integrated altitude would be below 3, the floor clamp sets y to 3 and vy to 0; otherwise y is the integrated value and vy is unchanged; only x, y and vy change |
| `FlightModel.WarningLabel` | app.js:121-123 | the label is STALL iff abs(pitch) > 0.3 and the aircraft is airborne; otherwise it is OVERSPEED iff speed > 180; otherwise it is empty, so STALL takes precedence over OVERSPEED |
| `FlightModel.StepAltitudeFloor` | app.js:76-118 | after any frame the altitude is at least 3; whenever the floor clamp fires the frame ends with y == 3 and vy == 0; after a frame that started at or below the runway, vy >= 0, and y == 3 exactly when vy == 0 |
| `FlightModel.StepKeepsAttitudeBounds` | app.js:90-96 | a frame that starts with pitch in [-0.45, 0.45] and roll in [-0.8, 0.8] ends with both still in range |
| `FlightModel.StepGroundedMotion` | app.js:76-113 | when a frame leaves the aircraft grounded, pitch, roll and yaw are unchanged, y == 3 and vy == 0, and vx is the old vx (times 0.98 when speed < 20) plus 25 × throttle × 0.022 |
| `FlightModel.StepGroundTransitions` | app.js:76-87 | above the runway the aircraft becomes airborne; on the runway below speed 20 it becomes grounded; at speed 20 or more it lifts off when throttle > 0.5 and speed > 22; otherwise the ground flag keeps its value |
| `FlightModel.StepWarning` | app.js:121-124 | the stored warning is STALL iff the post-control pitch exceeds 0.3 in absolute value while airborne; otherwise it is OVERSPEED iff the start-of-frame speed exceeds 180; otherwise it is empty; the stored pitch is the post-control pitch |
| `FlightModel.StepFrame` | app.js:72-124 | a frame changes only x, y, vx, vy, pitch, roll, yaw, the ground flag and the warning; throttle, deflections, camera, z, vz and the stall flag are unchanged |
| `FlightModel.LiftoffScenario` | app.js:82-83 | a grounded aircraft on the runway at speed 23 lifts off with throttle 0.6 and stays grounded with throttle 0.3 |
| `Session.InitialInv` | app.js:22-40 | the page-load record satisfies the session invariant |
| `Session.TouchStartKeepsInv` | app.js:51-63 | every button press keeps the session invariant |
| `Session.TouchEndKeepsInv` | app.js:65-67 | every button release keeps the session invariant |
| `Session.GroundPhaseKeepsInv` | app.js:76-87 | the ground-contact phase on its own keeps the session invariant |
| `Session.ControlPhaseKeepsInv` | app.js:90-96 | the control phase on its own keeps the session invariant |
| `Session.ForcePhaseKeepsInv` | app.js:99-113 | the force phase on its own keeps the session invariant |
| `Session.PositionPhaseKeepsInv` | app.js:116-118 | the position update on its own keeps the session invariant |
| `Session.WarningPhaseKeepsInv` | app.js:121-124 | the warning update on its own keeps the session invariant |
| `Session.StepKeepsInv` | app.js:73-124 | every frame keeps the session invariant, whatever the speed and cosine |
| `Session.SessionInvariant` | app.js:51-124 | any sequence of presses, releases and frames from a state that satisfies the invariant ends in a state that satisfies it: throttle in [0, 1], pitch and roll within their limits, altitude at least 3 and exactly 3 with vy == 0 while grounded, camera mode in 1..4, deflections in {-1, 0, 1}, and one of the three warning labels |
| `Session.ReachableInv` | app.js:22-124 | every state reachable from page load satisfies the session invariant |
| `Simulator.State.constructor` | app.js:22-40 | the new record equals the page-load value and satisfies the invariant |
| `Simulator.State.PressUp` | app.js:51 | elevator becomes -1 and nothing else changes; keeps the invariant |
| `Simulator.State.PressDown` | app.js:52 | elevator becomes 1 and nothing else changes; keeps the invariant |
| `Simulator.State.PressLeft` | app.js:53 | aileron becomes -1 and nothing else changes; keeps the invariant |
| `Simulator.State.PressRight` | app.js:54 | aileron becomes 1 and nothing else changes; keeps the invariant |
| `Simulator.State.PressCenter` | app.js:55 | elevator, aileron and rudder become 0 and the warning text becomes empty; throttle and the rest are unchanged |
| `Simulator.State.PressThrottleUp` | app.js:56 | from a throttle in [0, 1] it stays in [0, 1]; it rises by exactly 0.08 unless the clamp applies; nothing else changes |
| `Simulator.State.PressThrottleDown` | app.js:57 | from a throttle in [0, 1] it stays in [0, 1]; it falls by exactly 0.08 unless the clamp applies; nothing else changes |
| `Simulator.State.PressRudderLeft` | app.js:58 | rudder becomes -1 and nothing else changes; keeps the invariant |
| `Simulator.State.PressRudderRight` | app.js:59 | rudder becomes 1 and nothing else changes; keeps the invariant |
| `Simulator.State.PressReset` | app.js:60-62 | the record becomes the page-load value, except that the camera mode, warning text and stall flag are kept |
| `Simulator.State.PressCamera` | app.js:63 | the camera moves to the next mode in 1..4, wrapping from 4 to 1; nothing else changes |
| `Simulator.State.Release` | app.js:65-67 | a rudder button's release clears only the rudder; any other held button's release clears elevator and aileron |
| `Simulator.State.Tick` | app.js:72-124 | the new record is `Step` of the old one; altitude at least 3; grounded implies y == 3 and vy == 0; controls, camera, z and vz are unchanged; keeps the invariant |
| `Simulator.State.GroundContact` | app.js:76-87 | the fields are updated in place to the record that `GroundPhase` gives; keeps the invariant |
| `Simulator.State.ApplyControls` | app.js:90-96 | the fields are updated in place to the record that `ControlPhase` gives; keeps the invariant |
| `Simulator.State.ApplyForces` | app.js:99-113 | the fields are updated in place to the record that `ForcePhase` gives; keeps the invariant |
| `Simulator.State.UpdatePosition` | app.js:116-118 | the fields are updated in place to the record that `PositionPhase` gives; keeps the invariant |
| `Simulator.State.UpdateWarning` | app.js:121-124 | the fields are updated in place to the record that `WarningPhase` gives; keeps the invariant |

## Left out

- Rendering (app.js:147-175) is not modelled. It draws pixels and feeds nothing back into the state.
- The display text for airspeed, altitude, heading and warning (app.js:127-130) is not modelled. This includes the `Math.round` formatting.
- Audio volume, playback rate and `play()` (app.js:43-48, 133-140) are not modelled. They are browser calls that write nothing back.
- Canvas sizing, window resize handling, and attaching handlers through `getElementById` are not modelled (app.js:8-19, 51-67). Only the handler bodies are modelled.
- The `requestAnimationFrame` recursion (app.js:143, 177) is not modelled. `Tick` is one frame, and `Session.Run` stands for any sequence of frames and handler calls.
- Floating-point arithmetic is not modelled. Values are exact reals, so rounding in `+= 0.08` steps or `*= 0.98` decay is not captured.
- `Math.sqrt` is not modelled. The speed is an input, tied to the velocity by `speed * speed == vx*vx + vy*vy + vz*vz`.
- `Math.cos` is left uninterpreted. The actual values of lift, drag and thrust are not reasoned about.
- The constants `DEG` and `STALL_ANGLE` (app.js:4-5) are not modelled. The runway variant's update never reads them.
- Frames in a `Session.Run` may carry any speed, not only the magnitude of the current velocity. This over-approximates the frames the page can run, so the session invariant is proved for more sessions than can actually happen.
