# Third-person camera and character controller, modelled in Dafny

This project models the two per-frame controllers of a Unity third-person scene.

- **CameraController** is an orbit camera that follows a target. The scroll wheel
  zooms it in and out, between a minimum and a maximum distance. Dragging with the
  right mouse button orbits it around the target, with the vertical angle clamped.
  The camera sits on a sphere around the target (spherical coordinates in degrees)
  and always looks at the target. While orbiting it snaps to its place on the
  sphere; otherwise it glides there with `Vector3.Lerp`.
- **PlayerController** moves the character. Gravity is integrated into a single
  vertical velocity, held at -2 while grounded. A mouse click on the ground sets a
  target, and the character then walks straight towards it, stopping within 0.1
  units. Without a target, keyboard input moves the character relative to the
  camera's flattened forward and right axes. In both modes the character turns
  towards where it is going with `Quaternion.Slerp`.

Each controller is two things:

- A `class` whose fields are the component's fields plus the transform. Its methods
  (`LateUpdate`, `HandleOrbit`, `HandleZoom`, `Update`, `MoveToTarget`,
  `MoveWithKeyboard`, the input callbacks) update those fields in place, statement
  by statement as the source does.
- A value-level specification. A state record and one function per operation
  (`AfterLateUpdate`, `AfterMoveToTarget`, ...) are combined into `Step` over an
  event type (the input callbacks and one frame) and `Run` over a sequence of
  events. Every method ensures that its new `State()` is the specification
  function applied to `old(State())`. The lemmas state the controllers' properties
  about `Step` and `Run`.

Modules:

- `Vectors` holds `Vector2`/`Vector3`/`Quaternion` as records of reals, with their
  arithmetic.
- `UnityMath` holds `Mathf.Clamp`, `Vector3.magnitude` and `Vector3.Normalize` as
  Unity defines them. The engine's square root, sine, cosine, `Vector3.Lerp`,
  `Quaternion.Slerp` and `Quaternion.LookRotation` are supplied as function values
  (a `Library`). Proofs that need a fact about them take it as a precondition:
  `SqrtLaw` for the square root, and `TrigLaw` (the Pythagorean identity) for sine
  and cosine.
- `Camera` and `Player` hold the two controllers.
- `Options` is a plain optional value.

Some details of Unity's semantics are written out:

- `==` and `!=` on `Vector2`/`Vector3` are approximate. They compare the squared
  length of the difference with `kEpsilon²`, where `kEpsilon = 1e-5`; this is
  `ApproxZero2`/`ApproxZero3`.
- `Normalize` returns the zero vector for vectors of length `kEpsilon` or less.
- `Mathf.Deg2Rad` is the single-precision constant `0.0174532924`.
- `transform.LookAt(p)` is `Quaternion.LookRotation(p - position)`.

Some behaviours of the code are worth stating plainly, because a reader might expect otherwise:

- An idle frame calls no `CharacterController.Move`, so a standing character does
  not fall under gravity. The code moves the character only while it seeks a
  target or the keyboard input is non-zero (`IdleFramesStayPut`).
- Any move input cancels a click target, even the zero vector sent when the keys
  are released (`MoveInputCancelsTarget`).
- While seeking, the character turns on every frame that moves it. The 0.5 test
  reads the direction after `Normalize`, and that direction always has length 1
  (`TargetStep`).
- The step towards a target is not shortened near the end. When `moveSpeed *
  deltaTime` exceeds the remaining distance, the character passes the target
  (`TargetStepOvershoots`).
- Start copies the vertical angle from the setting without clamping it. The
  distance and vertical-angle bounds therefore hold over a run only from a state
  already within them (`RunStaysInBounds`). This holds for the inspector defaults
  (`DefaultsStayInBounds`).

## Model

| member | source | states |
|---|---|---|
| UnityMath.Clamp | Assets/Project/Scripts/Camera/CameraController.cs:129 | the result lies in `[min, max]` when that range is non-empty. It is the value itself inside the range, `min` below it, and `max` above it |
| UnityMath.Magnitude | Assets/Project/Scripts/Player/PlayerController.cs:62 | under the square-root law, the magnitude is the non-negative number whose square is the squared length |
| UnityMath.Normalized | Assets/Project/Scripts/Player/PlayerController.cs:96-101 | normalising keeps a flattened (y = 0) vector flat |
| UnityMath.MagnitudeBelow | Assets/Project/Scripts/Player/PlayerController.cs:62 | comparing a magnitude with a positive threshold is the same as comparing squared lengths |
| UnityMath.NormalizedIsUnit | Assets/Project/Scripts/Player/PlayerController.cs:70 | a vector longer than kEpsilon normalises to itself divided by its length, and the result has length 1 |
| Camera.ZoomedDistance | Assets/Project/Scripts/Camera/CameraController.cs:123-131 | a zero scroll leaves the distance alone. Any other scroll lands in `[minDistance, maxDistance]`: it equals `distance - scroll * zoomSpeed` when that is in range, `minDistance` when that is below, and `maxDistance` when that is above. A distance in range stays in range |
| Camera.OrbitedAngle | Assets/Project/Scripts/Camera/CameraController.cs:73-80 | the horizontal angle changes only while orbiting with a horizontal drag, and then by exactly `delta.x * orbitSpeed * (±1)` |
| Camera.OrbitedVerticalAngle | Assets/Project/Scripts/Camera/CameraController.cs:73-89 | the vertical angle changes only while orbiting with a vertical drag. It is then clamped to `[minVerticalAngle, maxVerticalAngle]`: it equals the unclamped value when that is in range, `minVerticalAngle` when that is below, and `maxVerticalAngle` when that is above. The bounds are kept |
| Camera.Direction | Assets/Project/Scripts/Camera/CameraController.cs:96-104 | the spherical direction from angles in degrees, with z negated so that angle 0 is behind the target. Its unit length is `DirectionIsUnit` |
| Camera.OrbitTarget | Assets/Project/Scripts/Camera/CameraController.cs:107 | the goal position is offset from the look-at point by exactly `distance` times the direction |
| Camera.Orbited | Assets/Project/Scripts/Camera/CameraController.cs:70-121 | the angles become `OrbitedAngle`/`OrbitedVerticalAngle` of the stored drag. While orbiting the camera snaps to the sphere point at the new angles; otherwise the angles stay and the position is lerped from the old one by `smoothSpeed * deltaTime` towards the sphere point. The distance and the stored inputs are kept. The camera always faces the look-at point afterwards, and the bounds are kept |
| Camera.AfterLateUpdate | Assets/Project/Scripts/Camera/CameraController.cs:59-121 | with no target nothing changes. Otherwise the distance is zoomed first and the angles are orbited. While orbiting the camera is exactly on the sphere of the new distance; otherwise it is lerped from its old position by `smoothSpeed * deltaTime` towards the sphere point at the old angles. It always looks at the target, the stored inputs are untouched, and the bounds are preserved |
| Camera.Step | Assets/Project/Scripts/Camera/CameraController.cs:136-156 | `OnZoom` stores the scroll and `OnOrbit` the button state. `OnLook` stores the drag only while orbiting and otherwise keeps the old one. No event breaks the bounds |
| Camera.RunStaysInBounds | Assets/Project/Scripts/Camera/CameraController.cs:83-88 | once distance and vertical angle are within their bounds, they stay within them over any sequence of callbacks and frames |
| Camera.DefaultsStayInBounds | Assets/Project/Scripts/Camera/CameraController.cs:11-40 | the inspector defaults have non-empty ranges, and from Start with them every run of callbacks and frames stays within the distance and vertical-angle bounds |
| Camera.FramesWithoutTargetChangeNothing | Assets/Project/Scripts/Camera/CameraController.cs:61 | any number of frames without a target leave the whole state unchanged |
| Camera.FrameZoomsIn | Assets/Project/Scripts/Camera/CameraController.cs:126-130 | one frame with a positive zoom step lowers the distance by that step, held at the minimum |
| Camera.RepeatedZoomIn | Assets/Project/Scripts/Camera/CameraController.cs:126-130 | a held scroll of positive step `c` gives, after `n` frames, distance `max(minDistance, distance - n * c)` |
| Camera.ZoomInHoldsAtMinimum | Assets/Project/Scripts/Camera/CameraController.cs:129 | scrolling in beyond the minimum holds the distance at `minDistance` |
| Camera.FrameOrbits | Assets/Project/Scripts/Camera/CameraController.cs:76-80 | one orbiting frame turns the horizontal angle by one step and keeps the orbit flag and the drag |
| Camera.RepeatedOrbit | Assets/Project/Scripts/Camera/CameraController.cs:76-80 | `n` orbiting frames with a stored drag turn the horizontal angle by `n` steps. The angle is never wrapped or bounded |
| Camera.InversionFlipsSign | Assets/Project/Scripts/Camera/CameraController.cs:78-86 | flipping both inversion settings negates both angle changes |
| Camera.DirectionIsUnit | Assets/Project/Scripts/Camera/CameraController.cs:100-104 | given the Pythagorean identity, the spherical direction has unit length |
| Camera.OrbitingFrameKeepsDistance | Assets/Project/Scripts/Camera/CameraController.cs:107-113 | after an orbiting frame the camera is exactly `distance` from the target, so zooming moves it along a line through the target |
| Camera.BehindTargetAtRest | Assets/Project/Scripts/Camera/CameraController.cs:100-107 | with both angles 0 and distance 10, the orbiting camera sits 10 units behind the target on the z axis |
| Camera.CameraController.Start | Assets/Project/Scripts/Camera/CameraController.cs:35-57 | the vertical angle starts at the setting and the horizontal angle at 0. Orbiting is off and no input is stored |
| Camera.CameraController.LateUpdate | Assets/Project/Scripts/Camera/CameraController.cs:59-68 | the fields afterwards are `Step` of a frame applied to the fields before |
| Camera.CameraController.HandleOrbit | Assets/Project/Scripts/Camera/CameraController.cs:70-121 | the fields afterwards are the orbited state: new angles, the sphere position (snapped or lerped), and the look-at rotation |
| Camera.CameraController.HandleZoom | Assets/Project/Scripts/Camera/CameraController.cs:123-131 | only the distance changes, to `ZoomedDistance` |
| Camera.CameraController.OnZoom | Assets/Project/Scripts/Camera/CameraController.cs:136-139 | only the stored scroll changes |
| Camera.CameraController.OnOrbit | Assets/Project/Scripts/Camera/CameraController.cs:142-147 | only the orbit flag changes |
| Camera.CameraController.OnLook | Assets/Project/Scripts/Camera/CameraController.cs:150-156 | the drag is stored only while orbiting |
| Player.NextVerticalVelocity | Assets/Project/Scripts/Player/PlayerController.cs:31 | grounded gives exactly -2. Airborne adds `gravity * deltaTime` |
| Player.Moved | Assets/Project/Scripts/Player/PlayerController.cs:75 | Move appends the displacement to the log and shifts the position by exactly it. Nothing else changes |
| Player.Spawned | Assets/Project/Scripts/Player/PlayerController.cs:44-54 | with a prefab one effect is added at the point; without one a warning is counted instead. Nothing else changes |
| Player.FlatOffset | Assets/Project/Scripts/Player/PlayerController.cs:58-59 | the offset to the target is horizontal |
| Player.Arrived | Assets/Project/Scripts/Player/PlayerController.cs:62 | the arrival test: horizontal distance to the target below 0.1. Its meaning as a squared-distance test is `ArrivalIsSquaredDistance` |
| Player.Turned | Assets/Project/Scripts/Player/PlayerController.cs:80-84 | the turn of both movement paths: Slerp from the current rotation towards `LookRotation(direction)` by `deltaTime * 10` |
| Player.Displacement | Assets/Project/Scripts/Player/PlayerController.cs:71-73 | the vertical part of a frame's displacement is `verticalVelocity * deltaTime` |
| Player.AfterMoveToTarget | Assets/Project/Scripts/Player/PlayerController.cs:56-86 | on arrival only seeking stops. Otherwise exactly one displacement along the normalised horizontal offset is applied and logged. Input, target, velocity and effects are untouched |
| Player.KeyboardDirection | Assets/Project/Scripts/Player/PlayerController.cs:92-104 | the keyboard direction is horizontal |
| Player.AfterMoveWithKeyboard | Assets/Project/Scripts/Player/PlayerController.cs:88-120 | keyboard movement always applies exactly one displacement along the camera-relative direction. When that direction is not the zero vector, the rotation becomes the Slerp towards it by `deltaTime * 10`; otherwise the rotation is kept. Nothing else changes |
| Player.AfterUpdate | Assets/Project/Scripts/Player/PlayerController.cs:28-42 | the velocity follows the gravity rule first. Then a seeking frame is `AfterMoveToTarget` of the gravity-updated state; otherwise a non-zero input gives `AfterMoveWithKeyboard` of it; otherwise nothing moves or turns. Input and target are kept and seeking can only stop. At most one displacement is appended to the log, its vertical part is this frame's velocity times `deltaTime`, and it is exactly the position change |
| Player.Step | Assets/Project/Scripts/Player/PlayerController.cs:125-147 | `OnMove` stores the input and cancels seeking. A pressed click with a ground hit sets the target, starts seeking and spawns the effect; any other click changes nothing. Callbacks never move the character |
| Player.ArrivalIsSquaredDistance | Assets/Project/Scripts/Player/PlayerController.cs:62-67 | the character counts as arrived exactly when the squared horizontal distance is below 0.01, and then only seeking stops |
| Player.TargetStep | Assets/Project/Scripts/Player/PlayerController.cs:69-85 | away from the target, the horizontal step points straight at it and has length `moveSpeed * deltaTime`. The character always turns |
| Player.TargetStepOvershoots | Assets/Project/Scripts/Player/PlayerController.cs:70-75 | the new offset points away from the old one exactly when the step is longer than the remaining distance |
| Player.KeyboardOnCameraAxes | Assets/Project/Scripts/Player/PlayerController.cs:92-104 | for any camera whose flattened axes are longer than kEpsilon, both are renormalised to unit length and the direction is their input-weighted sum. For perpendicular axes its squared length is that of the input |
| Player.KeyboardLookingStraightDown | Assets/Project/Scripts/Player/PlayerController.cs:96-104 | with the camera looking straight down, only the sideways input component moves the character |
| Player.TargetBeforeKeyboard | Assets/Project/Scripts/Player/PlayerController.cs:34-41 | a pending target takes precedence over keyboard input |
| Player.MoveInputCancelsTarget | Assets/Project/Scripts/Player/PlayerController.cs:125-129 | any move input, zero included, ends seeking. The next frame is exactly the keyboard move of the new input for a non-zero input, and moves nothing for a zero one |
| Player.ClickSeeksHitPoint | Assets/Project/Scripts/Player/PlayerController.cs:131-147 | after a click that hits the ground, the next frame seeks the hit point whatever the keyboard input |
| Player.MissedClickChangesNothing | Assets/Project/Scripts/Player/PlayerController.cs:133-139 | a release, or a press that misses the ground, changes nothing |
| Player.RunExtendsMoves | Assets/Project/Scripts/Player/PlayerController.cs:34-41 | over any run of events, the displacement log only grows, by at most one entry per event |
| Player.IdleFramesStayPut | Assets/Project/Scripts/Player/PlayerController.cs:34-41 | with no target and zero input, any number of frames neither move nor turn the character |
| Player.ArrivedThenStill | Assets/Project/Scripts/Player/PlayerController.cs:62-67 | from arrival with no input, the arrival frame and the next one leave the character where it is |
| Player.FallingAccumulates | Assets/Project/Scripts/Player/PlayerController.cs:31 | `n` airborne frames change the vertical velocity by `n * gravity * deltaTime`, with no terminal velocity |
| Player.GroundedHolds | Assets/Project/Scripts/Player/PlayerController.cs:31 | one or more grounded frames leave the vertical velocity at exactly -2, not accumulating |
| Player.PlayerController.Start | Assets/Project/Scripts/Player/PlayerController.cs:22-26 | the controller starts with no input, no target and zero vertical velocity |
| Player.PlayerController.Update | Assets/Project/Scripts/Player/PlayerController.cs:28-42 | the fields afterwards are `Step` of a frame applied to the fields before |
| Player.PlayerController.SpawnMoveVFX | Assets/Project/Scripts/Player/PlayerController.cs:44-54 | the fields afterwards are `Spawned` of the fields before |
| Player.PlayerController.MoveToTarget | Assets/Project/Scripts/Player/PlayerController.cs:56-86 | the fields afterwards are `AfterMoveToTarget` of the fields before |
| Player.PlayerController.MoveWithKeyboard | Assets/Project/Scripts/Player/PlayerController.cs:88-120 | the fields afterwards are `AfterMoveWithKeyboard` of the fields before |
| Player.PlayerController.Move | Assets/Project/Scripts/Player/PlayerController.cs:75 | the fields afterwards are `Moved` of the fields before |
| Player.PlayerController.OnMove | Assets/Project/Scripts/Player/PlayerController.cs:125-129 | the input is stored and seeking is cancelled |
| Player.PlayerController.OnMouseClick | Assets/Project/Scripts/Player/PlayerController.cs:131-147 | a pressed click with a hit sets the target, starts seeking and spawns the effect |

## Left out

- Floating point: all quantities are exact reals. Single-precision rounding, infinities and NaN are not modelled.
- Sine, cosine, square root, `Vector3.Lerp`, `Quaternion.Slerp` and `Quaternion.LookRotation` are abstract engine routines, because their code is not part of this model. Proofs assume only these facts about them: the Pythagorean identity, that the square root is a non-negative root, and, in `Camera.BehindTargetAtRest` alone, that `sin(0) = 0` and `cos(0) = 1`.
- `CharacterController.Move` has no collisions or slopes. The displacement is added to the position and logged. `isGrounded` is a frame input rather than an outcome of the previous move.
- Start's target lookup (`FindGameObjectWithTag`), the warning it logs, and `GetComponent`/`Camera.main`: these are scene plumbing. The target is passed to each camera frame as the position of its transform, or `None` when there is none.
- The mouse-click raycast (`Mouse.current`, `ScreenPointToRay`, `Physics.Raycast` with the ground layer mask) is replaced by its optional hit point, given to `OnMouseClick`.
- `Time.deltaTime` and the main camera's forward and right vectors become parameters of each frame.
- The `InputValue` wrappers are reduced to the values they carry.
- The frame order between the two controllers (`Update` before `LateUpdate` in the same frame) is not modelled. The two are independent classes, and the camera takes the target's position as an argument.
- `Instantiate` of the VFX prefab and `Debug.LogWarning` are recorded as a list of effect positions and a warning count.
- Player.PlayerController.Move: the real `CharacterController.Move` can stop short of the requested displacement; the model assumes it never does.
