/** The orbit camera of CameraController: zoom with a clamped distance, orbit
    with a clamped vertical angle, and a camera placed on a sphere around the
    followed target, snapped there while orbiting and smoothed otherwise. */
module Camera {
  import opened Vectors
  import opened UnityMath
  import opened Options
  import opened Sequences

  /** The inspector settings; the controller only reads them. */
  datatype Settings = Settings(
    minDistance: real,
    maxDistance: real,
    zoomSpeed: real,
    smoothSpeed: real,
    verticalAngle: real,
    orbitSpeed: real,
    invertOrbitHorizontal: bool,
    invertOrbitVertical: bool,
    minVerticalAngle: real,
    maxVerticalAngle: real)
  {
    /** Settings under which both clamps have a non-empty range. */
    predicate WellFormed() {
      minDistance <= maxDistance && minVerticalAngle <= maxVerticalAngle
    }
  }

  /** The field initialisers of CameraController. */
  const DEFAULTS: Settings := Settings(3.0, 20.0, 0.01, 5.0, 45.0, 0.1, false, false, 10.0, 80.0)
  const DEFAULT_DISTANCE: real := 10.0

  /** Everything the controller changes: its fields and the camera's transform. */
  datatype CameraState = CameraState(
    distance: real,
    currentAngle: real,
    currentVerticalAngle: real,
    isOrbiting: bool,
    scrollInput: real,
    mouseDelta: Vec2,
    position: Vec3,
    rotation: Quaternion)

  /** The distance and vertical-angle bounds. */
  predicate InBounds(s: CameraState, cfg: Settings) {
    cfg.minDistance <= s.distance <= cfg.maxDistance &&
    cfg.minVerticalAngle <= s.currentVerticalAngle <= cfg.maxVerticalAngle
  }

  /** The state after Start: the vertical angle is copied from the setting,
      unclamped; the rest holds the field initialisers and the scene's pose. */
  function Started(cfg: Settings, distance: real, position: Vec3, rotation: Quaternion): CameraState {
    CameraState(distance, 0.0, cfg.verticalAngle, false, 0.0, ZERO2, position, rotation)
  }

  /** The distance change one frame of scroll asks for, before clamping. */
  function ZoomStep(scroll: real, cfg: Settings): real {
    scroll * cfg.zoomSpeed
  }

  /** HandleZoom's effect on the distance. */
  function ZoomedDistance(distance: real, scroll: real, cfg: Settings): (r: real)
    ensures scroll == 0.0 ==> r == distance
    ensures scroll != 0.0 && cfg.minDistance <= cfg.maxDistance ==> cfg.minDistance <= r <= cfg.maxDistance
    ensures scroll != 0.0 && cfg.minDistance <= distance - ZoomStep(scroll, cfg) <= cfg.maxDistance ==>
              r == distance - ZoomStep(scroll, cfg)
    ensures scroll != 0.0 && distance - ZoomStep(scroll, cfg) < cfg.minDistance ==> r == cfg.minDistance
    ensures (scroll != 0.0 && cfg.minDistance <= distance - ZoomStep(scroll, cfg) &&
             cfg.maxDistance < distance - ZoomStep(scroll, cfg)) ==> r == cfg.maxDistance
    ensures cfg.minDistance <= distance <= cfg.maxDistance ==> cfg.minDistance <= r <= cfg.maxDistance
  {
    if scroll != 0.0 then Clamp(distance - ZoomStep(scroll, cfg), cfg.minDistance, cfg.maxDistance)
    else distance
  }

  /** The sign the horizontal drag is multiplied by. */
  function HorizontalSign(cfg: Settings): real {
    if cfg.invertOrbitHorizontal then -1.0 else 1.0
  }

  /** The sign the vertical drag is multiplied by: dragging up lowers the angle unless inverted. */
  function VerticalSign(cfg: Settings): real {
    if cfg.invertOrbitVertical then 1.0 else -1.0
  }

  /** The horizontal angle change one frame of drag asks for. */
  function HorizontalStep(delta: Vec2, cfg: Settings): real {
    delta.x * cfg.orbitSpeed * HorizontalSign(cfg)
  }

  /** The vertical angle change one frame of drag asks for, before clamping. */
  function VerticalStep(delta: Vec2, cfg: Settings): real {
    delta.y * cfg.orbitSpeed * VerticalSign(cfg)
  }

  /** HandleOrbit's effect on the horizontal angle, which has no bound. */
  function OrbitedAngle(angle: real, isOrbiting: bool, delta: Vec2, cfg: Settings): (r: real)
    ensures !isOrbiting || delta.x == 0.0 ==> r == angle
    ensures isOrbiting ==> r - angle == HorizontalStep(delta, cfg)
  {
    if isOrbiting && delta.x != 0.0 then angle + HorizontalStep(delta, cfg)
    else angle
  }

  /** HandleOrbit's effect on the vertical angle. */
  function OrbitedVerticalAngle(angle: real, isOrbiting: bool, delta: Vec2, cfg: Settings): (r: real)
    ensures !isOrbiting || delta.y == 0.0 ==> r == angle
    ensures isOrbiting && delta.y != 0.0 && cfg.minVerticalAngle <= cfg.maxVerticalAngle ==>
              cfg.minVerticalAngle <= r <= cfg.maxVerticalAngle
    ensures isOrbiting && cfg.minVerticalAngle <= angle + VerticalStep(delta, cfg) <= cfg.maxVerticalAngle ==>
              r == angle + VerticalStep(delta, cfg)
    ensures isOrbiting && delta.y != 0.0 && angle + VerticalStep(delta, cfg) < cfg.minVerticalAngle ==>
              r == cfg.minVerticalAngle
    ensures (isOrbiting && delta.y != 0.0 && cfg.minVerticalAngle <= angle + VerticalStep(delta, cfg) &&
             cfg.maxVerticalAngle < angle + VerticalStep(delta, cfg)) ==> r == cfg.maxVerticalAngle
    ensures cfg.minVerticalAngle <= angle <= cfg.maxVerticalAngle ==>
              cfg.minVerticalAngle <= r <= cfg.maxVerticalAngle
  {
    if isOrbiting && delta.y != 0.0 then
      Clamp(angle + VerticalStep(delta, cfg), cfg.minVerticalAngle, cfg.maxVerticalAngle)
    else angle
  }

  /** The unit direction from the target to the camera, from angles in degrees;
      the z component is negated so that angle 0 puts the camera behind the target. */
  function Direction(angle: real, verticalAngle: real, math: Library): Vec3 {
    var horizontalRad := angle * DEG2RAD;
    var verticalRad := verticalAngle * DEG2RAD;
    Vec3(math.sin(horizontalRad) * math.cos(verticalRad),
         math.sin(verticalRad),
         -math.cos(horizontalRad) * math.cos(verticalRad))
  }

  /** Where the camera should be: `distance` along Direction from the look-at point. */
  function OrbitTarget(lookAt: Vec3, angle: real, verticalAngle: real, distance: real, math: Library): (r: Vec3)
    ensures Sub(r, lookAt) == Scale(Direction(angle, verticalAngle, math), distance)
  {
    Add(lookAt, Scale(Direction(angle, verticalAngle, math), distance))
  }

  /** The Lerp factor of the smoothed follow, `smoothSpeed * Time.deltaTime`;
      it is not corrected for the frame rate. */
  function FollowBlend(cfg: Settings, deltaTime: real): real {
    cfg.smoothSpeed * deltaTime
  }

  /** HandleOrbit on a state: new angles, then the new position (snapped while
      orbiting, interpolated otherwise), then a rotation facing the target. */
  function Orbited(s: CameraState, cfg: Settings, lookAt: Vec3, deltaTime: real, math: Library): (r: CameraState)
    ensures r.currentAngle == OrbitedAngle(s.currentAngle, s.isOrbiting, s.mouseDelta, cfg)
    ensures r.currentVerticalAngle == OrbitedVerticalAngle(s.currentVerticalAngle, s.isOrbiting, s.mouseDelta, cfg)
    ensures !s.isOrbiting ==>
      r.position == math.lerp(s.position, OrbitTarget(lookAt, s.currentAngle, s.currentVerticalAngle, s.distance, math),
                              FollowBlend(cfg, deltaTime))
    ensures r.distance == s.distance && r.isOrbiting == s.isOrbiting
    ensures r.scrollInput == s.scrollInput && r.mouseDelta == s.mouseDelta
    ensures s.isOrbiting ==> r.position == OrbitTarget(lookAt, r.currentAngle, r.currentVerticalAngle, s.distance, math)
    ensures !s.isOrbiting ==> r.currentAngle == s.currentAngle && r.currentVerticalAngle == s.currentVerticalAngle
    ensures r.rotation == math.lookRotation(Sub(lookAt, r.position))
    ensures InBounds(s, cfg) ==> InBounds(r, cfg)
  {
    var angle := OrbitedAngle(s.currentAngle, s.isOrbiting, s.mouseDelta, cfg);
    var verticalAngle := OrbitedVerticalAngle(s.currentVerticalAngle, s.isOrbiting, s.mouseDelta, cfg);
    var goal := OrbitTarget(lookAt, angle, verticalAngle, s.distance, math);
    var position := if s.isOrbiting then goal else math.lerp(s.position, goal, FollowBlend(cfg, deltaTime));
    s.(currentAngle := angle, currentVerticalAngle := verticalAngle, position := position,
       rotation := math.lookRotation(Sub(lookAt, position)))
  }

  /** LateUpdate: nothing without a target; otherwise zoom, then orbit with the
      new distance. `target` is the target transform's position, None for no target. */
  function AfterLateUpdate(s: CameraState, cfg: Settings, target: Option<Vec3>, deltaTime: real, math: Library): (r: CameraState)
    ensures target.None? ==> r == s
    ensures r.isOrbiting == s.isOrbiting && r.scrollInput == s.scrollInput && r.mouseDelta == s.mouseDelta
    ensures target.Some? ==> r.distance == ZoomedDistance(s.distance, s.scrollInput, cfg)
    ensures target.Some? ==>
              r.currentAngle == OrbitedAngle(s.currentAngle, s.isOrbiting, s.mouseDelta, cfg) &&
              r.currentVerticalAngle == OrbitedVerticalAngle(s.currentVerticalAngle, s.isOrbiting, s.mouseDelta, cfg)
    ensures target.Some? && s.isOrbiting ==>
              r.position == OrbitTarget(target.value, r.currentAngle, r.currentVerticalAngle, r.distance, math)
    ensures target.Some? && !s.isOrbiting ==>
              r.currentAngle == s.currentAngle && r.currentVerticalAngle == s.currentVerticalAngle &&
              r.position == math.lerp(s.position,
                                      OrbitTarget(target.value, s.currentAngle, s.currentVerticalAngle, r.distance, math),
                                      FollowBlend(cfg, deltaTime))
    ensures target.Some? ==> r.rotation == math.lookRotation(Sub(target.value, r.position))
    ensures InBounds(s, cfg) ==> InBounds(r, cfg)
  {
    match target
    case None => s
    case Some(lookAt) =>
      Orbited(s.(distance := ZoomedDistance(s.distance, s.scrollInput, cfg)), cfg, lookAt, deltaTime, math)
  }

  /** The input callbacks and the per-frame step, in the order the host delivers them. */
  datatype CameraEvent =
    | ZoomInput(value: real)
    | OrbitInput(isPressed: bool)
    | LookInput(delta: Vec2)
    | Frame(target: Option<Vec3>, deltaTime: real)

  /** One event. The callbacks only store input: OnLook keeps the old delta unless orbiting. */
  function Step(s: CameraState, cfg: Settings, math: Library, e: CameraEvent): (r: CameraState)
    ensures e.ZoomInput? ==> r == s.(scrollInput := e.value)
    ensures e.OrbitInput? ==> r == s.(isOrbiting := e.isPressed)
    ensures e.LookInput? ==> r == s.(mouseDelta := if s.isOrbiting then e.delta else s.mouseDelta)
    ensures InBounds(s, cfg) ==> InBounds(r, cfg)
  {
    match e
    case ZoomInput(value) => s.(scrollInput := value)
    case OrbitInput(isPressed) => s.(isOrbiting := isPressed)
    case LookInput(delta) => if s.isOrbiting then s.(mouseDelta := delta) else s
    case Frame(target, deltaTime) => AfterLateUpdate(s, cfg, target, deltaTime, math)
  }

  /** A run of events from left to right. */
  function Run(s: CameraState, cfg: Settings, math: Library, events: seq<CameraEvent>): CameraState
    decreases |events|
  {
    if events == [] then s else Run(Step(s, cfg, math, events[0]), cfg, math, events[1..])
  }

  /** The distance and vertical-angle bounds, once they hold, hold after any
      sequence of callbacks and frames. */
  lemma {:induction false} RunStaysInBounds(s: CameraState, cfg: Settings, math: Library, events: seq<CameraEvent>)
    requires InBounds(s, cfg)
    ensures InBounds(Run(s, cfg, math, events), cfg)
    decreases |events|
  {
    if events != [] {
      RunStaysInBounds(Step(s, cfg, math, events[0]), cfg, math, events[1..]);
    }
  }

  /** Frames without a target change nothing at all, however many there are. */
  lemma {:induction false} FramesWithoutTargetChangeNothing(s: CameraState, cfg: Settings, math: Library, events: seq<CameraEvent>)
    requires forall i :: 0 <= i < |events| ==> events[i].Frame? && events[i].target.None?
    ensures Run(s, cfg, math, events) == s
    decreases |events|
  {
    if events != [] {
      FramesWithoutTargetChangeNothing(s, cfg, math, events[1..]);
    }
  }

  /** A frame's first event aside, a run of repeated events is the run of the rest. */
  lemma RunRepeat(s: CameraState, cfg: Settings, math: Library, e: CameraEvent, n: nat)
    requires 0 < n
    ensures Run(s, cfg, math, Repeat(e, n)) == Run(Step(s, cfg, math, e), cfg, math, Repeat(e, n - 1))
  {
    assert Repeat(e, n)[0] == e;
    assert Repeat(e, n)[1..] == Repeat(e, n - 1);
  }

  /** A descent by `c` held at `m`, followed by a descent by `k * c` held at `m`,
      is one descent by `(k + 1) * c` held at `m`; `kc` stands for `k * c`. */
  lemma HeldDescent(d: real, c: real, m: real, kc: real, d1: real, d2: real)
    requires 0.0 < c && 0.0 <= kc
    requires d1 == if d - c < m then m else d - c
    requires d2 == if d1 - kc < m then m else d1 - kc
    ensures d2 == if d - (kc + c) < m then m else d - (kc + c)
  {
  }

  /** One frame with a target and a positive zoom step `c`, from a distance in
      range: the distance goes down by `c`, held at the minimum. */
  lemma FrameZoomsIn(s: CameraState, cfg: Settings, math: Library, lookAt: Vec3, deltaTime: real)
    requires cfg.minDistance <= s.distance <= cfg.maxDistance
    requires 0.0 < ZoomStep(s.scrollInput, cfg)
    ensures var r := Step(s, cfg, math, Frame(Some(lookAt), deltaTime));
            var d := s.distance - ZoomStep(s.scrollInput, cfg);
            r.scrollInput == s.scrollInput &&
            r.distance == if d < cfg.minDistance then cfg.minDistance else d
  {
  }

  /** Frames with a stored positive zoom step `c` move the distance down by `c`
      each, then hold it at the minimum: after `n` frames it is
      `max(minDistance, distance - n * c)`. */
  lemma {:induction false} RepeatedZoomIn(s: CameraState, cfg: Settings, math: Library, lookAt: Vec3, deltaTime: real, n: nat)
    requires cfg.minDistance <= s.distance <= cfg.maxDistance
    requires 0.0 < ZoomStep(s.scrollInput, cfg)
    ensures var d := s.distance - Times(n, ZoomStep(s.scrollInput, cfg));
            Run(s, cfg, math, Repeat(Frame(Some(lookAt), deltaTime), n)).distance ==
              if d < cfg.minDistance then cfg.minDistance else d
    decreases n
  {
    var e := Frame(Some(lookAt), deltaTime);
    if n == 0 {
      assert Repeat(e, 0) == [];
    } else {
      var s1 := Step(s, cfg, math, e);
      FrameZoomsIn(s, cfg, math, lookAt, deltaTime);
      RepeatedZoomIn(s1, cfg, math, lookAt, deltaTime, n - 1);
      RunRepeat(s, cfg, math, e, n);
      var c := ZoomStep(s.scrollInput, cfg);
      NextMultiple(n, c);
      HeldDescent(s.distance, c, cfg.minDistance, Times(n - 1, c), s1.distance,
                  Run(s1, cfg, math, Repeat(e, n - 1)).distance);
    }
  }

  /** Enough positive zoom frames reach the minimum distance and stay there. */
  lemma ZoomInHoldsAtMinimum(s: CameraState, cfg: Settings, math: Library, lookAt: Vec3, deltaTime: real, n: nat)
    requires cfg.minDistance <= s.distance <= cfg.maxDistance
    requires 0.0 < ZoomStep(s.scrollInput, cfg)
    requires s.distance - cfg.minDistance <= Times(n, ZoomStep(s.scrollInput, cfg))
    ensures Run(s, cfg, math, Repeat(Frame(Some(lookAt), deltaTime), n)).distance == cfg.minDistance
  {
    RepeatedZoomIn(s, cfg, math, lookAt, deltaTime, n);
  }

  /** One frame with a target while orbiting turns by one horizontal step and
      keeps the orbit flag and the stored drag. */
  lemma FrameOrbits(s: CameraState, cfg: Settings, math: Library, lookAt: Vec3, deltaTime: real)
    requires s.isOrbiting
    ensures var r := Step(s, cfg, math, Frame(Some(lookAt), deltaTime));
            r.isOrbiting && r.mouseDelta == s.mouseDelta &&
            r.currentAngle == s.currentAngle + HorizontalStep(s.mouseDelta, cfg)
  {
  }

  /** Frames while orbiting with a stored horizontal drag turn the camera by the
      same step each, with no bound on the angle. */
  lemma {:induction false} RepeatedOrbit(s: CameraState, cfg: Settings, math: Library, lookAt: Vec3, deltaTime: real, n: nat)
    requires s.isOrbiting
    ensures Run(s, cfg, math, Repeat(Frame(Some(lookAt), deltaTime), n)).currentAngle ==
              s.currentAngle + Times(n, HorizontalStep(s.mouseDelta, cfg))
    decreases n
  {
    var e := Frame(Some(lookAt), deltaTime);
    if n == 0 {
      assert Repeat(e, 0) == [];
    } else {
      var s1 := Step(s, cfg, math, e);
      FrameOrbits(s, cfg, math, lookAt, deltaTime);
      RepeatedOrbit(s1, cfg, math, lookAt, deltaTime, n - 1);
      RunRepeat(s, cfg, math, e, n);
      NextMultiple(n, HorizontalStep(s.mouseDelta, cfg));
    }
  }

  /** The inversion settings flip the sign of each angle change and nothing else. */
  lemma InversionFlipsSign(angle: real, verticalAngle: real, delta: Vec2, cfg: Settings)
    requires cfg.minVerticalAngle <= verticalAngle + delta.y * cfg.orbitSpeed <= cfg.maxVerticalAngle
    requires cfg.minVerticalAngle <= verticalAngle - delta.y * cfg.orbitSpeed <= cfg.maxVerticalAngle
    ensures var flipped := cfg.(invertOrbitHorizontal := !cfg.invertOrbitHorizontal,
                                invertOrbitVertical := !cfg.invertOrbitVertical);
            OrbitedAngle(angle, true, delta, flipped) - angle == -(OrbitedAngle(angle, true, delta, cfg) - angle) &&
            OrbitedVerticalAngle(verticalAngle, true, delta, flipped) - verticalAngle ==
              -(OrbitedVerticalAngle(verticalAngle, true, delta, cfg) - verticalAngle)
  {
  }

  /** Given the Pythagorean identity for the engine's sine and cosine, the
      direction has unit length. */
  lemma DirectionIsUnit(angle: real, verticalAngle: real, math: Library)
    requires TrigLaw(math)
    ensures SqrMagnitude(Direction(angle, verticalAngle, math)) == 1.0
  {
    var sh, ch := math.sin(angle * DEG2RAD), math.cos(angle * DEG2RAD);
    var sv, cv := math.sin(verticalAngle * DEG2RAD), math.cos(verticalAngle * DEG2RAD);
    assert sh * sh + ch * ch == 1.0;
    assert sv * sv + cv * cv == 1.0;
    var sh2, ch2, cv2 := sh * sh, ch * ch, cv * cv;
    assert (sh * cv) * (sh * cv) == sh2 * cv2;
    assert (-ch * cv) * (-ch * cv) == ch2 * cv2;
    assert sh2 * cv2 + ch2 * cv2 == (sh2 + ch2) * cv2;
  }

  /** While orbiting, a frame puts the camera exactly `distance` away from the
      target, so zooming moves it along a straight line through the target. */
  lemma OrbitingFrameKeepsDistance(s: CameraState, cfg: Settings, math: Library, lookAt: Vec3, deltaTime: real)
    requires TrigLaw(math) && s.isOrbiting
    ensures var r := AfterLateUpdate(s, cfg, Some(lookAt), deltaTime, math);
            SqrMagnitude(Sub(r.position, lookAt)) == r.distance * r.distance
  {
    var r := AfterLateUpdate(s, cfg, Some(lookAt), deltaTime, math);
    var dir := Direction(r.currentAngle, r.currentVerticalAngle, math);
    DirectionIsUnit(r.currentAngle, r.currentVerticalAngle, math);
    assert Sub(r.position, lookAt) == Scale(dir, r.distance);
    ScaledSqrMagnitude(dir, r.distance);
  }

  /** With both angles 0 and distance 10, orbiting places the camera 10 units
      behind the target along z. */
  lemma BehindTargetAtRest(s: CameraState, cfg: Settings, math: Library, lookAt: Vec3, deltaTime: real)
    requires math.sin(0.0) == 0.0 && math.cos(0.0) == 1.0
    requires s.isOrbiting && s.mouseDelta == ZERO2 && s.scrollInput == 0.0
    requires s.currentAngle == 0.0 && s.currentVerticalAngle == 0.0 && s.distance == 10.0
    ensures AfterLateUpdate(s, cfg, Some(lookAt), deltaTime, math).position == Add(lookAt, Vec3(0.0, 0.0, -10.0))
  {
    assert Direction(0.0, 0.0, math) == Vec3(0.0, 0.0, -1.0);
  }

  /** The inspector defaults have non-empty ranges, and Start with them is in
      bounds, so every run of callbacks and frames from there stays in bounds. */
  lemma DefaultsStayInBounds(math: Library, position: Vec3, rotation: Quaternion, events: seq<CameraEvent>)
    ensures DEFAULTS.WellFormed()
    ensures InBounds(Run(Started(DEFAULTS, DEFAULT_DISTANCE, position, rotation), DEFAULTS, math, events), DEFAULTS)
  {
    RunStaysInBounds(Started(DEFAULTS, DEFAULT_DISTANCE, position, rotation), DEFAULTS, math, events);
  }

  /** The controller over its fields; `math` stands for the engine's maths and
      `settings` for the inspector values. */
  class CameraController {
    const settings: Settings
    const math: Library
    var distance: real
    var currentAngle: real
    var currentVerticalAngle: real
    var isOrbiting: bool
    var scrollInput: real
    var mouseDelta: Vec2
    /** The camera transform. */
    var position: Vec3
    var rotation: Quaternion

    ghost function State(): CameraState
      reads this
    {
      CameraState(distance, currentAngle, currentVerticalAngle, isOrbiting, scrollInput, mouseDelta, position, rotation)
    }

    /** Field initialisers followed by Start; `position` and `rotation` are the
        pose the scene gives the camera. */
    constructor Start(settings: Settings, math: Library, distance: real, position: Vec3, rotation: Quaternion)
      ensures this.settings == settings && this.math == math
      ensures State() == Started(settings, distance, position, rotation)
    {
      this.settings := settings;
      this.math := math;
      this.distance := distance;
      currentAngle := 0.0;
      isOrbiting := false;
      scrollInput := 0.0;
      mouseDelta := ZERO2;
      this.position := position;
      this.rotation := rotation;
      currentVerticalAngle := settings.verticalAngle;
    }

    method LateUpdate(target: Option<Vec3>, deltaTime: real)
      modifies this
      ensures State() == Step(old(State()), settings, math, Frame(target, deltaTime))
    {
      if target.None? {
        return;
      }
      HandleZoom();
      HandleOrbit(target.value, deltaTime);
    }

    method HandleOrbit(lookAt: Vec3, deltaTime: real)
      modifies this
      ensures State() == Orbited(old(State()), settings, lookAt, deltaTime, math)
    {
      if isOrbiting {
        if mouseDelta.x != 0.0 {
          currentAngle := currentAngle + HorizontalStep(mouseDelta, settings);
        }
        if mouseDelta.y != 0.0 {
          currentVerticalAngle := currentVerticalAngle + VerticalStep(mouseDelta, settings);
          currentVerticalAngle := Clamp(currentVerticalAngle, settings.minVerticalAngle, settings.maxVerticalAngle);
        }
      }
      var lookAtPoint := lookAt;
      var direction := Direction(currentAngle, currentVerticalAngle, math);
      var targetPosition := Add(lookAtPoint, Scale(direction, distance));
      if isOrbiting {
        position := targetPosition;
      } else {
        position := math.lerp(position, targetPosition, FollowBlend(settings, deltaTime));
      }
      rotation := math.lookRotation(Sub(lookAtPoint, position));
    }

    method HandleZoom()
      modifies this
      ensures State() == old(State()).(distance := ZoomedDistance(old(distance), scrollInput, settings))
    {
      if scrollInput != 0.0 {
        distance := distance - ZoomStep(scrollInput, settings);
        distance := Clamp(distance, settings.minDistance, settings.maxDistance);
      }
    }

    method OnZoom(value: real)
      modifies this
      ensures State() == Step(old(State()), settings, math, ZoomInput(value))
    {
      scrollInput := value;
    }

    method OnOrbit(isPressed: bool)
      modifies this
      ensures State() == Step(old(State()), settings, math, OrbitInput(isPressed))
    {
      isOrbiting := isPressed;
    }

    method OnLook(value: Vec2)
      modifies this
      ensures State() == Step(old(State()), settings, math, LookInput(value))
    {
      if isOrbiting {
        mouseDelta := value;
      }
    }
  }
}
