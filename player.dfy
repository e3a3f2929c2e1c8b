/** The player character: gravity, click-to-move towards a ground point, and
    keyboard movement relative to the camera's facing. */
module Player {
  import opened Vectors
  import opened UnityMath
  import opened Options
  import opened Sequences

  /** The inspector settings: moveSpeed, gravity, and whether a move VFX prefab is assigned. */
  datatype Settings = Settings(moveSpeed: real, gravity: real, hasMoveVFX: bool)

  /** Vertical velocity while grounded: a small downward push that keeps the character on the ground. */
  const GROUNDED_VELOCITY: real := -2.0
  /** Horizontal distance below which the clicked target counts as reached. */
  const ARRIVAL_DISTANCE: real := 0.1
  /** Length of the move direction above which the character turns towards the target. */
  const TURN_MAGNITUDE: real := 0.5
  /** Factor on the frame time for the turning interpolation. */
  const TURN_RATE: real := 10.0

  /** Everything the controller keeps between frames, with a log of the displacements
      handed to CharacterController.Move and of the spawned VFX positions. */
  datatype PlayerState = PlayerState(
    moveInput: Vec2,
    isMovingToTarget: bool,
    targetPosition: Vec3,
    verticalVelocity: real,
    position: Vec3,
    rotation: Quaternion,
    moves: seq<Vec3>,
    effects: seq<Vec3>,
    warnings: nat)

  /** The state right after Start: nothing pressed, no target, at rest. */
  function Started(position: Vec3, rotation: Quaternion): PlayerState {
    PlayerState(ZERO2, false, ZERO3, 0.0, position, rotation, [], [], 0)
  }

  /** `gravity * Time.deltaTime`: the change of vertical velocity in one airborne frame. */
  function FallStep(cfg: Settings, dt: real): real {
    cfg.gravity * dt
  }

  /** `verticalVelocity * Time.deltaTime`: the vertical part of a frame's displacement. */
  function Drop(verticalVelocity: real, dt: real): real {
    verticalVelocity * dt
  }

  /** `moveSpeed * Time.deltaTime`: the horizontal distance of one frame's step along a unit direction. */
  function Stride(cfg: Settings, dt: real): real {
    cfg.moveSpeed * dt
  }

  /** `Time.deltaTime * 10`: the interpolation factor of a turn. */
  function TurnBlend(dt: real): real {
    dt * TURN_RATE
  }

  /** The vertical velocity after the gravity rule at the start of Update. */
  function NextVerticalVelocity(verticalVelocity: real, isGrounded: bool, cfg: Settings, dt: real): (r: real)
    ensures isGrounded ==> r == GROUNDED_VELOCITY
    ensures !isGrounded ==> r - verticalVelocity == FallStep(cfg, dt)
  {
    if isGrounded then GROUNDED_VELOCITY else verticalVelocity + FallStep(cfg, dt)
  }

  /** CharacterController.Move without collisions: the displacement is logged and applied. */
  function Moved(s: PlayerState, d: Vec3): (r: PlayerState)
    ensures r.moves == s.moves + [d]
    ensures Sub(r.position, s.position) == d
    ensures r.(position := s.position, moves := s.moves) == s
  {
    s.(position := Add(s.position, d), moves := s.moves + [d])
  }

  /** SpawnMoveVFX: an effect at `p` when a prefab is assigned, otherwise a logged warning. */
  function Spawned(s: PlayerState, cfg: Settings, p: Vec3): (r: PlayerState)
    ensures cfg.hasMoveVFX ==> r.effects == s.effects + [p] && r.warnings == s.warnings
    ensures !cfg.hasMoveVFX ==> r.effects == s.effects && r.warnings == s.warnings + 1
    ensures r.(effects := s.effects, warnings := s.warnings) == s
  {
    if cfg.hasMoveVFX then s.(effects := s.effects + [p]) else s.(warnings := s.warnings + 1)
  }

  /** The horizontal offset from the character to its target. */
  function FlatOffset(s: PlayerState): (r: Vec3)
    ensures r.y == 0.0
  {
    WithY(Sub(s.targetPosition, s.position), 0.0)
  }

  /** A frame's displacement along `direction`: the horizontal step scaled by speed
      and frame time, with the vertical part taken from the vertical velocity. */
  function Displacement(direction: Vec3, s: PlayerState, cfg: Settings, dt: real): (r: Vec3)
    ensures r.y == Drop(s.verticalVelocity, dt)
  {
    WithY(Scale(Scale(direction, cfg.moveSpeed), dt), Drop(s.verticalVelocity, dt))
  }

  /** The character turned part of the way towards facing `direction`. */
  function Turned(s: PlayerState, direction: Vec3, dt: real, math: Library): Quaternion {
    math.slerp(s.rotation, math.lookRotation(direction), TurnBlend(dt))
  }

  /** True when the horizontal offset to the target is shorter than the arrival distance. */
  predicate Arrived(s: PlayerState, math: Library) {
    Magnitude(FlatOffset(s), math) < ARRIVAL_DISTANCE
  }

  /** MoveToTarget: stop on arrival; otherwise step along the normalised horizontal
      offset and turn towards it when that direction is longer than 0.5. */
  function AfterMoveToTarget(s: PlayerState, cfg: Settings, dt: real, math: Library): (r: PlayerState)
    ensures Arrived(s, math) ==> r == s.(isMovingToTarget := false)
    ensures !Arrived(s, math) ==>
      r.isMovingToTarget == s.isMovingToTarget &&
      r.moves == s.moves + [Displacement(Normalized(FlatOffset(s), math), s, cfg, dt)] &&
      Sub(r.position, s.position) == Displacement(Normalized(FlatOffset(s), math), s, cfg, dt)
    ensures r.moveInput == s.moveInput && r.targetPosition == s.targetPosition
    ensures r.verticalVelocity == s.verticalVelocity
    ensures r.effects == s.effects && r.warnings == s.warnings
  {
    var direction := FlatOffset(s);
    if Arrived(s, math) then
      s.(isMovingToTarget := false)
    else
      var unit := Normalized(direction, math);
      var moved := Moved(s, Displacement(unit, s, cfg, dt));
      if Magnitude(unit, math) > TURN_MAGNITUDE then
        moved.(rotation := Turned(s, unit, dt, math))
      else
        moved
  }

  /** The camera-relative move direction: the camera's forward and right vectors
      flattened, normalised and weighted by the input's y and x. */
  function KeyboardDirection(moveInput: Vec2, cameraForward: Vec3, cameraRight: Vec3, math: Library): (r: Vec3)
    ensures r.y == 0.0
  {
    var forward := Normalized(WithY(cameraForward, 0.0), math);
    var right := Normalized(WithY(cameraRight, 0.0), math);
    Add(Scale(forward, moveInput.y), Scale(right, moveInput.x))
  }

  /** MoveWithKeyboard: always moves (possibly by a zero horizontal step) and turns
      towards the move direction unless that direction equals the zero vector. */
  function AfterMoveWithKeyboard(s: PlayerState, cfg: Settings, dt: real, cameraForward: Vec3, cameraRight: Vec3, math: Library): (r: PlayerState)
    ensures r.moves == s.moves + [Displacement(KeyboardDirection(s.moveInput, cameraForward, cameraRight, math), s, cfg, dt)]
    ensures Sub(r.position, s.position) == r.moves[|s.moves|]
    ensures r.rotation != s.rotation ==> !ApproxZero3(KeyboardDirection(s.moveInput, cameraForward, cameraRight, math))
    ensures !ApproxZero3(KeyboardDirection(s.moveInput, cameraForward, cameraRight, math)) ==>
      r.rotation == Turned(s, KeyboardDirection(s.moveInput, cameraForward, cameraRight, math), dt, math)
    ensures r.(position := s.position, moves := s.moves, rotation := s.rotation) == s
  {
    var moveDirection := KeyboardDirection(s.moveInput, cameraForward, cameraRight, math);
    var moved := Moved(s, Displacement(moveDirection, s, cfg, dt));
    if !ApproxZero3(moveDirection) then
      moved.(rotation := Turned(s, moveDirection, dt, math))
    else
      moved
  }

  /** Update: the gravity rule, then click-to-move if a target is pending, else
      keyboard movement if the input differs from the zero vector, else nothing. */
  function AfterUpdate(s: PlayerState, cfg: Settings, isGrounded: bool, dt: real, cameraForward: Vec3, cameraRight: Vec3, math: Library): (r: PlayerState)
    ensures r.verticalVelocity == NextVerticalVelocity(s.verticalVelocity, isGrounded, cfg, dt)
    ensures r.moveInput == s.moveInput && r.targetPosition == s.targetPosition
    ensures r.effects == s.effects && r.warnings == s.warnings
    ensures r.isMovingToTarget ==> s.isMovingToTarget
    ensures s.isMovingToTarget ==>
      r == AfterMoveToTarget(s.(verticalVelocity := NextVerticalVelocity(s.verticalVelocity, isGrounded, cfg, dt)), cfg, dt, math)
    ensures !s.isMovingToTarget && !ApproxZero2(s.moveInput) ==>
      r == AfterMoveWithKeyboard(s.(verticalVelocity := NextVerticalVelocity(s.verticalVelocity, isGrounded, cfg, dt)),
                                 cfg, dt, cameraForward, cameraRight, math)
    ensures !s.isMovingToTarget && ApproxZero2(s.moveInput) ==>
      r.position == s.position && r.moves == s.moves && r.rotation == s.rotation
    ensures |r.moves| == |s.moves| || |r.moves| == |s.moves| + 1
    ensures r.moves[..|s.moves|] == s.moves
    ensures |r.moves| == |s.moves| + 1 ==>
      r.moves[|s.moves|].y == Drop(r.verticalVelocity, dt) &&
      Sub(r.position, s.position) == r.moves[|s.moves|]
    ensures |r.moves| == |s.moves| ==> r.position == s.position
  {
    var g := s.(verticalVelocity := NextVerticalVelocity(s.verticalVelocity, isGrounded, cfg, dt));
    if g.isMovingToTarget then
      AfterMoveToTarget(g, cfg, dt, math)
    else if !ApproxZero2(g.moveInput) then
      AfterMoveWithKeyboard(g, cfg, dt, cameraForward, cameraRight, math)
    else
      g
  }

  /** What reaches the controller: the two input callbacks and a frame, with the
      physics query, the frame time and the camera's axes as inputs. */
  datatype PlayerEvent =
    | MoveInput(value: Vec2)
    | MouseClick(isPressed: bool, hit: Option<Vec3>)
    | Frame(isGrounded: bool, deltaTime: real, cameraForward: Vec3, cameraRight: Vec3)

  /** The effect of one event. */
  function Step(s: PlayerState, cfg: Settings, math: Library, e: PlayerEvent): (r: PlayerState)
    ensures e.MoveInput? ==> r == s.(moveInput := e.value, isMovingToTarget := false)
    ensures e.MouseClick? && e.isPressed && e.hit.Some? ==>
      r.isMovingToTarget && r.targetPosition == e.hit.value &&
      r == Spawned(s.(targetPosition := e.hit.value, isMovingToTarget := true), cfg, e.hit.value)
    ensures e.MouseClick? && !(e.isPressed && e.hit.Some?) ==> r == s
    ensures !e.Frame? ==> r.moves == s.moves && r.position == s.position && r.verticalVelocity == s.verticalVelocity
  {
    match e
    case MoveInput(value) =>
      s.(moveInput := value, isMovingToTarget := false)
    case MouseClick(isPressed, hit) =>
      if isPressed && hit.Some? then
        Spawned(s.(targetPosition := hit.value, isMovingToTarget := true), cfg, hit.value)
      else
        s
    case Frame(isGrounded, dt, forward, right) =>
      AfterUpdate(s, cfg, isGrounded, dt, forward, right, math)
  }

  /** The events applied in order. */
  function Run(s: PlayerState, cfg: Settings, math: Library, events: seq<PlayerEvent>): PlayerState
    decreases |events|
  {
    if events == [] then s else Run(Step(s, cfg, math, events[0]), cfg, math, events[1..])
  }

  // ---------------------------------------------------------------------------
  // Properties
  // ---------------------------------------------------------------------------

  /** The target counts as reached exactly when the squared horizontal offset is
      below 0.01; then nothing moves and only seeking stops. */
  lemma ArrivalIsSquaredDistance(s: PlayerState, cfg: Settings, dt: real, math: Library)
    requires SqrtLaw(math)
    ensures Arrived(s, math) <==> SqrMagnitude(FlatOffset(s)) < 0.01
    ensures SqrMagnitude(FlatOffset(s)) < 0.01 ==>
      AfterMoveToTarget(s, cfg, dt, math) == s.(isMovingToTarget := false)
  {
    MagnitudeBelow(math, FlatOffset(s), ARRIVAL_DISTANCE);
  }

  /** Away from the target, a step goes straight towards it, horizontally
      `moveSpeed * deltaTime` long, and the character always turns: the turning
      test reads the direction after normalisation, which has length one. */
  lemma TargetStep(s: PlayerState, cfg: Settings, dt: real, math: Library)
    requires SqrtLaw(math) && !Arrived(s, math)
    ensures var d := AfterMoveToTarget(s, cfg, dt, math).moves[|s.moves|];
      WithY(d, 0.0) == Scale(Div(FlatOffset(s), Magnitude(FlatOffset(s), math)), Stride(cfg, dt)) &&
      SqrMagnitude(WithY(d, 0.0)) == Stride(cfg, dt) * Stride(cfg, dt)
    ensures AfterMoveToTarget(s, cfg, dt, math).rotation ==
      Turned(s, Normalized(FlatOffset(s), math), dt, math)
  {
    var f := FlatOffset(s);
    var m := Magnitude(f, math);
    assert m >= ARRIVAL_DISTANCE;
    NormalizedIsUnit(math, f);
    var u := Normalized(f, math);
    var k := Stride(cfg, dt);
    var d := Displacement(u, s, cfg, dt);
    assert WithY(d, 0.0) == Scale(u, k) by {
      assert (u.x * cfg.moveSpeed) * dt == u.x * k;
      assert (u.z * cfg.moveSpeed) * dt == u.z * k;
    }
    ScaledSqrMagnitude(u, k);
  }

  /** The new horizontal offset points away from the old one exactly when the step
      is longer than the remaining distance: the step towards the target is not
      shortened near the end, so the character passes it and comes back. */
  lemma TargetStepOvershoots(s: PlayerState, cfg: Settings, dt: real, math: Library)
    requires SqrtLaw(math) && !Arrived(s, math)
    ensures Dot(FlatOffset(AfterMoveToTarget(s, cfg, dt, math)), FlatOffset(s)) < 0.0 <==>
      Magnitude(FlatOffset(s), math) < Stride(cfg, dt)
  {
    var f := FlatOffset(s);
    var m := Magnitude(f, math);
    var q := SqrMagnitude(f);
    SqrtAt(math, q);
    assert m >= ARRIVAL_DISTANCE;
    TargetStep(s, cfg, dt, math);
    var k := Stride(cfg, dt);
    var r := AfterMoveToTarget(s, cfg, dt, math);
    var d := r.moves[|s.moves|];
    var h := WithY(d, 0.0);
    var c := k / m;
    assert h == Scale(f, c) by {
      assert h == Scale(Div(f, m), k);
      assert (f.x / m) * k == f.x * c;
      assert (f.z / m) * k == f.z * c;
    }
    assert FlatOffset(r) == Sub(f, h);
    var e := 1.0 - c;
    assert Sub(f, h) == Scale(f, e);
    ScaledDot(f, e);
    assert 0.0 < q by { assert m * m == q; }
    assert e * q < 0.0 <==> e < 0.0;
    assert e < 0.0 <==> m < k by {
      assert c * m == k;
    }
  }

  /** For any camera whose flattened forward and right vectors are longer than
      kEpsilon (every camera that does not look straight up or down), both are
      renormalised to unit length and the keyboard direction is their
      input-weighted sum. When they are perpendicular, its squared length is that
      of the input, so a diagonal input moves faster than an axis-aligned one. */
  lemma KeyboardOnCameraAxes(moveInput: Vec2, cameraForward: Vec3, cameraRight: Vec3, math: Library)
    requires SqrtLaw(math)
    requires Magnitude(WithY(cameraForward, 0.0), math) > EPSILON
    requires Magnitude(WithY(cameraRight, 0.0), math) > EPSILON
    ensures var f, r := WithY(cameraForward, 0.0), WithY(cameraRight, 0.0);
      SqrMagnitude(Normalized(f, math)) == 1.0 && SqrMagnitude(Normalized(r, math)) == 1.0 &&
      KeyboardDirection(moveInput, cameraForward, cameraRight, math) ==
        Add(Scale(Div(f, Magnitude(f, math)), moveInput.y), Scale(Div(r, Magnitude(r, math)), moveInput.x))
    ensures Dot(WithY(cameraForward, 0.0), WithY(cameraRight, 0.0)) == 0.0 ==>
      SqrMagnitude(KeyboardDirection(moveInput, cameraForward, cameraRight, math)) == SqrMagnitude2(moveInput)
  {
    var f, r := WithY(cameraForward, 0.0), WithY(cameraRight, 0.0);
    NormalizedIsUnit(math, f);
    NormalizedIsUnit(math, r);
    var nf, nr := Normalized(f, math), Normalized(r, math);
    if Dot(f, r) == 0.0 {
      var mf, mr := Magnitude(f, math), Magnitude(r, math);
      assert nf == Scale(f, 1.0 / mf) && nr == Scale(r, 1.0 / mr);
      ScaledDotScaled(f, r, 1.0 / mf, 1.0 / mr);
      var a, b := moveInput.y, moveInput.x;
      SqrMagnitudeOfSum(nf, nr, a, b);
      assert SqrMagnitude2(moveInput) == b * b + a * a;
    }
  }

  /** With the camera looking straight down, the flattened forward vector is
      (approximately) zero and normalises to zero: only sideways input moves the character. */
  lemma KeyboardLookingStraightDown(moveInput: Vec2, cameraForward: Vec3, cameraRight: Vec3, math: Library)
    requires Magnitude(WithY(cameraForward, 0.0), math) <= EPSILON
    ensures KeyboardDirection(moveInput, cameraForward, cameraRight, math) ==
      Scale(Normalized(WithY(cameraRight, 0.0), math), moveInput.x)
  {
  }

  /** A pending target takes precedence over keyboard input. */
  lemma TargetBeforeKeyboard(s: PlayerState, cfg: Settings, math: Library, isGrounded: bool, dt: real, cameraForward: Vec3, cameraRight: Vec3)
    requires s.isMovingToTarget
    ensures Step(s, cfg, math, Frame(isGrounded, dt, cameraForward, cameraRight)) ==
      AfterMoveToTarget(s.(verticalVelocity := NextVerticalVelocity(s.verticalVelocity, isGrounded, cfg, dt)), cfg, dt, math)
  {
  }

  /** Any move input, even the zero vector on release, cancels click-to-move: the
      next frame moves by the keyboard, or not at all when the input is zero. */
  lemma MoveInputCancelsTarget(s: PlayerState, cfg: Settings, math: Library, v: Vec2, isGrounded: bool, dt: real, cameraForward: Vec3, cameraRight: Vec3)
    ensures var r := Run(s, cfg, math, [MoveInput(v), Frame(isGrounded, dt, cameraForward, cameraRight)]);
      !r.isMovingToTarget &&
      r.targetPosition == s.targetPosition &&
      (ApproxZero2(v) ==> r.position == s.position && r.moves == s.moves) &&
      (!ApproxZero2(v) ==>
        r == AfterMoveWithKeyboard(
               s.(moveInput := v, isMovingToTarget := false,
                  verticalVelocity := NextVerticalVelocity(s.verticalVelocity, isGrounded, cfg, dt)),
               cfg, dt, cameraForward, cameraRight, math))
  {
    var f := Frame(isGrounded, dt, cameraForward, cameraRight);
    var t := Step(s, cfg, math, MoveInput(v));
    assert [MoveInput(v), f][1..] == [f];
    assert [f][1..] == [];
    assert Run(t, cfg, math, [f]) == Run(Step(t, cfg, math, f), cfg, math, []);
    assert Run(s, cfg, math, [MoveInput(v), f]) == Run(t, cfg, math, [f]);
  }

  /** A click that hits the ground makes the next frame seek the hit point, whatever
      the keyboard input. */
  lemma ClickSeeksHitPoint(s: PlayerState, cfg: Settings, math: Library, p: Vec3, isGrounded: bool, dt: real, cameraForward: Vec3, cameraRight: Vec3)
    ensures var c := Step(s, cfg, math, MouseClick(true, Some(p)));
      c.targetPosition == p &&
      Step(c, cfg, math, Frame(isGrounded, dt, cameraForward, cameraRight)) ==
        AfterMoveToTarget(c.(verticalVelocity := NextVerticalVelocity(s.verticalVelocity, isGrounded, cfg, dt)), cfg, dt, math)
  {
  }

  /** Input without a press, or a press that misses the ground, changes nothing. */
  lemma MissedClickChangesNothing(s: PlayerState, cfg: Settings, math: Library, isPressed: bool, hit: Option<Vec3>)
    requires !isPressed || hit.None?
    ensures Step(s, cfg, math, MouseClick(isPressed, hit)) == s
  {
  }

  /** Frames only append to the log of displacements, at most one per frame. */
  lemma {:induction false} RunExtendsMoves(s: PlayerState, cfg: Settings, math: Library, events: seq<PlayerEvent>)
    ensures |s.moves| <= |Run(s, cfg, math, events).moves| <= |s.moves| + |events|
    ensures Run(s, cfg, math, events).moves[..|s.moves|] == s.moves
    decreases |events|
  {
    if events != [] {
      var t := Step(s, cfg, math, events[0]);
      RunExtendsMoves(t, cfg, math, events[1..]);
      var r := Run(t, cfg, math, events[1..]);
      assert r.moves[..|s.moves|] == r.moves[..|t.moves|][..|s.moves|];
    }
  }

  /** With no target and zero input, frames never move or turn the character. */
  lemma {:induction false} IdleFramesStayPut(s: PlayerState, cfg: Settings, math: Library, events: seq<PlayerEvent>)
    requires !s.isMovingToTarget && ApproxZero2(s.moveInput)
    requires forall i :: 0 <= i < |events| ==> events[i].Frame?
    ensures Run(s, cfg, math, events).position == s.position
    ensures Run(s, cfg, math, events).moves == s.moves
    ensures Run(s, cfg, math, events).rotation == s.rotation
    decreases |events|
  {
    if events != [] {
      var t := Step(s, cfg, math, events[0]);
      assert events[0].Frame?;
      IdleFramesStayPut(t, cfg, math, events[1..]);
    }
  }

  /** Once the target is reached, a frame without input leaves the character where it
      stopped: the arrival frame and every frame after it. */
  lemma ArrivedThenStill(s: PlayerState, cfg: Settings, math: Library, isGrounded: bool, dt: real, cameraForward: Vec3, cameraRight: Vec3)
    requires s.isMovingToTarget && ApproxZero2(s.moveInput) && Arrived(s, math)
    ensures var e := Frame(isGrounded, dt, cameraForward, cameraRight);
      var r := Run(s, cfg, math, [e, e]);
      !r.isMovingToTarget && r.position == s.position && r.moves == s.moves
  {
    var e := Frame(isGrounded, dt, cameraForward, cameraRight);
    var t := Step(s, cfg, math, e);
    assert FlatOffset(s.(verticalVelocity := t.verticalVelocity)) == FlatOffset(s);
    assert t.position == s.position && t.moves == s.moves && !t.isMovingToTarget;
    assert [e, e][1..] == [e];
    assert [e][1..] == [];
    assert Run(t, cfg, math, [e]) == Run(Step(t, cfg, math, e), cfg, math, []);
    assert Run(s, cfg, math, [e, e]) == Run(t, cfg, math, [e]);
  }

  lemma RunRepeat(s: PlayerState, cfg: Settings, math: Library, e: PlayerEvent, n: nat)
    requires 0 < n
    ensures Run(s, cfg, math, Repeat(e, n)) == Run(Step(s, cfg, math, e), cfg, math, Repeat(e, n - 1))
  {
    assert Repeat(e, n)[1..] == Repeat(e, n - 1);
  }

  /** Airborne frames accumulate gravity: after `n` of them the vertical velocity has
      changed by `n * gravity * deltaTime`; there is no terminal velocity. */
  lemma {:induction false} FallingAccumulates(s: PlayerState, cfg: Settings, math: Library, dt: real, cameraForward: Vec3, cameraRight: Vec3, n: nat)
    ensures Run(s, cfg, math, Repeat(Frame(false, dt, cameraForward, cameraRight), n)).verticalVelocity ==
      s.verticalVelocity + Times(n, FallStep(cfg, dt))
    decreases n
  {
    var e := Frame(false, dt, cameraForward, cameraRight);
    if n == 0 {
      assert Repeat(e, 0) == [];
    } else {
      var t := Step(s, cfg, math, e);
      RunRepeat(s, cfg, math, e, n);
      FallingAccumulates(t, cfg, math, dt, cameraForward, cameraRight, n - 1);
      NextMultiple(n, FallStep(cfg, dt));
    }
  }

  /** Grounded frames reset the vertical velocity instead of accumulating it. */
  lemma {:induction false} GroundedHolds(s: PlayerState, cfg: Settings, math: Library, dt: real, cameraForward: Vec3, cameraRight: Vec3, n: nat)
    requires 0 < n
    ensures Run(s, cfg, math, Repeat(Frame(true, dt, cameraForward, cameraRight), n)).verticalVelocity == GROUNDED_VELOCITY
    decreases n
  {
    var e := Frame(true, dt, cameraForward, cameraRight);
    var t := Step(s, cfg, math, e);
    RunRepeat(s, cfg, math, e, n);
    if n == 1 {
      assert Repeat(e, 0) == [];
    } else {
      GroundedHolds(t, cfg, math, dt, cameraForward, cameraRight, n - 1);
    }
  }

  // ---------------------------------------------------------------------------
  // The controller
  // ---------------------------------------------------------------------------

  /** PlayerController: the character's transform and motion state, updated in place. */
  class PlayerController {
    const settings: Settings
    const math: Library
    var moveInput: Vec2
    var isMovingToTarget: bool
    var targetPosition: Vec3
    var verticalVelocity: real
    var position: Vec3
    var rotation: Quaternion
    var moves: seq<Vec3>
    var effects: seq<Vec3>
    var warnings: nat

    ghost function State(): PlayerState
      reads this
    {
      PlayerState(moveInput, isMovingToTarget, targetPosition, verticalVelocity, position, rotation, moves, effects, warnings)
    }

    /** Start, with the character placed at `position` facing `rotation`. */
    constructor Start(settings: Settings, math: Library, position: Vec3, rotation: Quaternion)
      ensures this.settings == settings && this.math == math
      ensures State() == Started(position, rotation)
    {
      this.settings := settings;
      this.math := math;
      moveInput := ZERO2;
      isMovingToTarget := false;
      targetPosition := ZERO3;
      verticalVelocity := 0.0;
      this.position := position;
      this.rotation := rotation;
      moves := [];
      effects := [];
      warnings := 0;
    }

    /** One frame, given the physics query, the frame time and the main camera's axes. */
    method Update(isGrounded: bool, deltaTime: real, cameraForward: Vec3, cameraRight: Vec3)
      modifies this
      ensures State() == Step(old(State()), settings, math, Frame(isGrounded, deltaTime, cameraForward, cameraRight))
    {
      verticalVelocity := if isGrounded then GROUNDED_VELOCITY else verticalVelocity + FallStep(settings, deltaTime);
      if isMovingToTarget {
        MoveToTarget(deltaTime);
      } else if !ApproxZero2(moveInput) {
        MoveWithKeyboard(deltaTime, cameraForward, cameraRight);
      }
    }

    method SpawnMoveVFX(p: Vec3)
      modifies this
      ensures State() == Spawned(old(State()), settings, p)
    {
      if settings.hasMoveVFX {
        effects := effects + [p];
      } else {
        warnings := warnings + 1;
      }
    }

    method MoveToTarget(deltaTime: real)
      modifies this
      ensures State() == AfterMoveToTarget(old(State()), settings, deltaTime, math)
    {
      var direction := Sub(targetPosition, position);
      direction := WithY(direction, 0.0);
      if Magnitude(direction, math) < ARRIVAL_DISTANCE {
        isMovingToTarget := false;
        return;
      }
      direction := Normalized(direction, math);
      var moveVector := Scale(Scale(direction, settings.moveSpeed), deltaTime);
      moveVector := WithY(moveVector, Drop(verticalVelocity, deltaTime));
      Move(moveVector);
      if Magnitude(direction, math) > TURN_MAGNITUDE {
        rotation := math.slerp(rotation, math.lookRotation(direction), TurnBlend(deltaTime));
      }
    }

    method MoveWithKeyboard(deltaTime: real, cameraForward: Vec3, cameraRight: Vec3)
      modifies this
      ensures State() == AfterMoveWithKeyboard(old(State()), settings, deltaTime, cameraForward, cameraRight, math)
    {
      var forward := cameraForward;
      var right := cameraRight;
      forward := WithY(forward, 0.0);
      right := WithY(right, 0.0);
      forward := Normalized(forward, math);
      right := Normalized(right, math);
      var moveDirection := Add(Scale(forward, moveInput.y), Scale(right, moveInput.x));
      var moveVector := Scale(Scale(moveDirection, settings.moveSpeed), deltaTime);
      moveVector := WithY(moveVector, Drop(verticalVelocity, deltaTime));
      Move(moveVector);
      if !ApproxZero3(moveDirection) {
        rotation := math.slerp(rotation, math.lookRotation(moveDirection), TurnBlend(deltaTime));
      }
    }

    /** CharacterController.Move, without collisions. */
    method Move(motion: Vec3)
      modifies this
      ensures State() == Moved(old(State()), motion)
    {
      position := Add(position, motion);
      moves := moves + [motion];
    }

    method OnMove(value: Vec2)
      modifies this
      ensures State() == Step(old(State()), settings, math, MoveInput(value))
    {
      moveInput := value;
      isMovingToTarget := false;
    }

    /** The click callback, with the raycast's ground hit (if any) as `hit`. */
    method OnMouseClick(isPressed: bool, hit: Option<Vec3>)
      modifies this
      ensures State() == Step(old(State()), settings, math, MouseClick(isPressed, hit))
    {
      if isPressed {
        if hit.Some? {
          targetPosition := hit.value;
          isMovingToTarget := true;
          SpawnMoveVFX(hit.value);
        }
      }
    }
  }
}
