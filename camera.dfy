/** The first-person camera (Camera.h, Camera.cpp): orientation from pitch and
    yaw, velocity accumulated from key presses, and the view and projection
    matrices. */
module Cameras {
  import opened Glm
  import opened Constants

  const WORLD_UP: Vec3 := Vec3(0.0, 1.0, 0.0)
  const DEFAULT_VIEW_DIRECTION: Vec3 := Vec3(0.0, 0.0, -1.0)
  const DEFAULT_CAMERA_POSITION: Vec3 := ZERO
  /** Pitch is kept within this many degrees of the horizon, so the view
      direction never becomes colinear with the world up. */
  const PITCH_LIMIT: real := 89.0
  /** The camera starts facing the negative z axis. */
  const INITIAL_YAW: real := -90.0

  datatype MoveDirection = Forward | Backward | Left | Right | Up | Down

  /** The view, right and up vectors of the camera. */
  datatype Frame = Frame(view: Vec3, right: Vec3, up: Vec3)

  /** Camera::CalculateCameraVectors, from pitch and yaw in degrees. */
  function CameraVectors(pitch: real, yaw: real): (f: Frame)
    ensures f.view.y == Sin(Radians(pitch))
    ensures f.right == Normalize(Cross(f.view, WORLD_UP))
    ensures f.up == Normalize(Cross(f.right, f.view))
  {
    var view := Vec3(Cos(Radians(yaw)) * Cos(Radians(pitch)), Sin(Radians(pitch)),
                     Sin(Radians(yaw)) * Cos(Radians(pitch)));
    var right := Normalize(Cross(view, WORLD_UP));
    Frame(view, right, Normalize(Cross(right, view)))
  }

  /** The right vector is horizontal: strafing never changes the height, and it
      vanishes only when the view points straight up or down. */
  lemma RightIsHorizontal(pitch: real, yaw: real)
    ensures CameraVectors(pitch, yaw).right.y == 0.0
    ensures var v := CameraVectors(pitch, yaw).view;
      CameraVectors(pitch, yaw).right != ZERO <==> (v.x != 0.0 || v.z != 0.0)
  {
    var v := CameraVectors(pitch, yaw).view;
    var c := Cross(v, WORLD_UP);
    assert c == Vec3(-v.z, 0.0, v.x);
    NormalizeKeepsLength(c);
  }

  /** The aspect ratio (float)width / height, with a height of 0 (a minimised
      window) read as 1. */
  function AspectRatio(width: int, height: int): (r: real)
    ensures r * (if height == 0 then 1 else height) as real == width as real
  {
    var h := if height == 0 then 1 else height;
    width as real / h as real
  }

  /** Camera::CreateProjectionMatrix. */
  function Projection(width: int, height: int): Mat4 {
    Perspective(Radians(FIELD_OF_VIEW), AspectRatio(width, height), NEAR_PLANE, FAR_PLANE)
  }

  /** The change Camera::CalculateVelocity makes to the velocity. */
  function Contribution(d: MoveDirection, f: Frame): Vec3 {
    match d
    case Forward => f.view
    case Backward => Neg(f.view)
    case Left => Neg(f.right)
    case Right => f.right
    case Up => f.up
    case Down => Neg(f.up)
  }

  /** The velocity after applying `moves`, one CalculateVelocity call each, in order. */
  function Accumulated(vel: Vec3, moves: seq<MoveDirection>, f: Frame): Vec3
    decreases |moves|
  {
    if |moves| == 0 then vel else Accumulated(Add(vel, Contribution(moves[0], f)), moves[1..], f)
  }

  /** The sum of the contributions of `moves`. */
  function Total(moves: seq<MoveDirection>, f: Frame): Vec3
    decreases |moves|
  {
    if |moves| == 0 then ZERO else Add(Total(moves[..|moves| - 1], f), Contribution(moves[|moves| - 1], f))
  }

  lemma {:induction false} TotalFront(m: MoveDirection, rest: seq<MoveDirection>, f: Frame)
    ensures Total([m] + rest, f) == Add(Contribution(m, f), Total(rest, f))
    decreases |rest|
  {
    if |rest| > 0 {
      assert ([m] + rest)[..|[m] + rest| - 1] == [m] + rest[..|rest| - 1];
      TotalFront(m, rest[..|rest| - 1], f);
    }
  }

  /** Key presses add up: the velocity after a series of presses is the starting
      velocity plus the sum of their contributions. */
  lemma {:induction false} AccumulatedIsTotal(vel: Vec3, moves: seq<MoveDirection>, f: Frame)
    ensures Accumulated(vel, moves, f) == Add(vel, Total(moves, f))
    decreases |moves|
  {
    if |moves| > 0 {
      AccumulatedIsTotal(Add(vel, Contribution(moves[0], f)), moves[1..], f);
      assert moves == [moves[0]] + moves[1..];
      TotalFront(moves[0], moves[1..], f);
    }
  }

  /** Net number of presses of `plus` over presses of `minus`. */
  function Net(moves: seq<MoveDirection>, plus: MoveDirection, minus: MoveDirection): real {
    (multiset(moves)[plus] as int - multiset(moves)[minus] as int) as real
  }

  /** A velocity of `forward` views, `rightward` rights and `upward` ups. */
  function Combination(forward: real, rightward: real, upward: real, f: Frame): Vec3 {
    Add(Add(Scale(f.view, forward), Scale(f.right, rightward)), Scale(f.up, upward))
  }

  /** Adding one more press of a key to a combination. */
  lemma CombinationStep(a: real, b: real, c: real, d: MoveDirection, f: Frame)
    ensures Add(Combination(a, b, c, f), Contribution(d, f)) == match d
      case Forward => Combination(a + 1.0, b, c, f)
      case Backward => Combination(a - 1.0, b, c, f)
      case Right => Combination(a, b + 1.0, c, f)
      case Left => Combination(a, b - 1.0, c, f)
      case Up => Combination(a, b, c + 1.0, f)
      case Down => Combination(a, b, c - 1.0, f)
  {
    match d
    case Forward => ScaleStep(f.view, a);
    case Backward => ScaleStep(f.view, a);
    case Right => ScaleStep(f.right, b);
    case Left => ScaleStep(f.right, b);
    case Up => ScaleStep(f.up, c);
    case Down => ScaleStep(f.up, c);
  }

  lemma ScaleStep(v: Vec3, k: real)
    ensures Scale(v, k + 1.0) == Add(Scale(v, k), v)
    ensures Scale(v, k - 1.0) == Add(Scale(v, k), Neg(v))
  {
  }

  lemma NetStep(init: seq<MoveDirection>, last: MoveDirection, plus: MoveDirection, minus: MoveDirection)
    requires plus != minus
    ensures Net(init + [last], plus, minus) ==
      Net(init, plus, minus) + (if last == plus then 1.0 else 0.0) - (if last == minus then 1.0 else 0.0)
  {
    assert multiset(init + [last]) == multiset(init) + multiset{last};
  }

  /** The sum of the contributions depends only on how often each key was
      pressed: opposite keys cancel and the order of the presses does not matter. */
  lemma {:induction false} TotalByCounts(moves: seq<MoveDirection>, f: Frame)
    ensures Total(moves, f) ==
      Combination(Net(moves, Forward, Backward), Net(moves, Right, Left), Net(moves, Up, Down), f)
    decreases |moves|
  {
    if |moves| == 0 {
      assert Scale(f.view, 0.0) == ZERO && Scale(f.right, 0.0) == ZERO && Scale(f.up, 0.0) == ZERO;
    } else {
      var init := moves[..|moves| - 1];
      var last := moves[|moves| - 1];
      assert moves == init + [last];
      TotalByCounts(init, f);
      CountsStep(init, last, f);
    }
  }

  /** One more press moves the combination by the press's contribution. */
  lemma CountsStep(init: seq<MoveDirection>, last: MoveDirection, f: Frame)
    ensures Add(Combination(Net(init, Forward, Backward), Net(init, Right, Left), Net(init, Up, Down), f),
                Contribution(last, f)) ==
      Combination(Net(init + [last], Forward, Backward), Net(init + [last], Right, Left), Net(init + [last], Up, Down), f)
  {
    var a, b, c := Net(init, Forward, Backward), Net(init, Right, Left), Net(init, Up, Down);
    NetStep(init, last, Forward, Backward);
    NetStep(init, last, Right, Left);
    NetStep(init, last, Up, Down);
    CombinationStep(a, b, c, last, f);
  }

  /** Two series of presses with the same keys in any order give the same velocity. */
  lemma PressOrderIrrelevant(vel: Vec3, a: seq<MoveDirection>, b: seq<MoveDirection>, f: Frame)
    requires multiset(a) == multiset(b)
    ensures Accumulated(vel, a, f) == Accumulated(vel, b, f)
  {
    AccumulatedIsTotal(vel, a, f);
    AccumulatedIsTotal(vel, b, f);
    TotalByCounts(a, f);
    TotalByCounts(b, f);
  }

  /** An angle after a mouse offset, scaled by the sensitivity, is added to it. */
  function Turned(angle: real, offset: real, sensitivity: real): real {
    angle + offset * sensitivity
  }

  /** A mouse move that reports no offset (the first move after the cursor is
      captured) turns the camera neither in pitch nor in yaw: UpdateOrientation's
      clamp keeps a pitch already within the limit. */
  lemma StillMouseKeepsOrientation(pitch: real, yaw: real, sensitivity: real)
    requires -PITCH_LIMIT <= pitch <= PITCH_LIMIT
    ensures Clamp(Turned(pitch, -0.0, sensitivity), -PITCH_LIMIT, PITCH_LIMIT) == pitch
    ensures Turned(yaw, 0.0, sensitivity) == yaw
  {
  }

  class Camera {
    var viewMatrix: Mat4
    var projectionMatrix: Mat4
    var position: Vec3
    var vel: Vec3
    var viewDirection: Vec3
    var right: Vec3
    var up: Vec3
    const mouseSensitivity: real
    var pitch: real
    var yaw: real

    /** The pitch stays within the limit and the vectors follow pitch and yaw. */
    predicate Valid()
      reads this
    {
      -PITCH_LIMIT <= pitch <= PITCH_LIMIT && CurrentFrame() == CameraVectors(pitch, yaw)
    }

    function CurrentFrame(): Frame
      reads this
    {
      Frame(viewDirection, right, up)
    }

    /** Camera(windowWidth, windowHeight, position): level, facing -z, at rest. */
    constructor (windowWidth: int, windowHeight: int, position: Vec3)
      ensures Valid()
      ensures this.position == position && vel == ZERO
      ensures pitch == 0.0 && yaw == INITIAL_YAW && mouseSensitivity == DEFAULT_MOUSE_SENSITIVITY
      ensures projectionMatrix == Projection(windowWidth, windowHeight)
    {
      this.position := position;
      vel := ZERO;
      viewDirection, up, right := DEFAULT_VIEW_DIRECTION, WORLD_UP, ZERO;
      mouseSensitivity := DEFAULT_MOUSE_SENSITIVITY;
      pitch := 0.0;
      yaw := INITIAL_YAW;
      new;
      CreateProjectionMatrix(windowWidth, windowHeight);
      assert this.position == position && vel == ZERO && pitch == 0.0 && yaw == INITIAL_YAW;
      StillMouseKeepsOrientation(0.0, INITIAL_YAW, mouseSensitivity);
      UpdateOrientation(0.0, 0.0);
    }

    /** Camera::CalculateCameraVectors. */
    method CalculateCameraVectors()
      modifies this
      ensures CurrentFrame() == CameraVectors(pitch, yaw)
      ensures pitch == old(pitch) && yaw == old(yaw) && position == old(position) && vel == old(vel)
      ensures projectionMatrix == old(projectionMatrix) && viewMatrix == old(viewMatrix)
    {
      var f := CameraVectors(pitch, yaw);
      viewDirection := f.view;
      right := f.right;
      up := f.up;
    }

    method CreateProjectionMatrix(width: int, height: int)
      modifies this
      ensures projectionMatrix == Projection(width, height)
      ensures pitch == old(pitch) && yaw == old(yaw) && position == old(position) && vel == old(vel)
      ensures CurrentFrame() == old(CurrentFrame()) && viewMatrix == old(viewMatrix)
    {
      var h := height;
      if h == 0 {
        h := 1;
      }
      var aspectRatio := width as real / h as real;
      projectionMatrix := Perspective(Radians(FIELD_OF_VIEW), aspectRatio, NEAR_PLANE, FAR_PLANE);
    }

    /** Camera::UpdateOrientation: a mouse offset turns the camera; screen y is
        flipped, and the pitch is clamped to the limit. */
    method UpdateOrientation(newX: real, newY: real)
      modifies this
      ensures Valid()
      ensures pitch == Clamp(Turned(old(pitch), -newY, mouseSensitivity), -PITCH_LIMIT, PITCH_LIMIT)
      ensures yaw == Turned(old(yaw), newX, mouseSensitivity)
      ensures position == old(position) && vel == old(vel)
      ensures projectionMatrix == old(projectionMatrix) && viewMatrix == old(viewMatrix)
    {
      pitch := pitch + -newY * mouseSensitivity;
      yaw := yaw + newX * mouseSensitivity;
      pitch := Clamp(pitch, -PITCH_LIMIT, PITCH_LIMIT);
      CalculateCameraVectors();
    }

    /** Camera::CalculateVelocity: the key's direction is added to the velocity
        (dt is not used). */
    method CalculateVelocity(moveDir: MoveDirection, dt: real)
      modifies this
      ensures vel == Add(old(vel), Contribution(moveDir, CurrentFrame()))
      ensures CurrentFrame() == old(CurrentFrame()) && pitch == old(pitch) && yaw == old(yaw)
      ensures position == old(position)
      ensures projectionMatrix == old(projectionMatrix) && viewMatrix == old(viewMatrix)
    {
      match moveDir
      case Forward => vel := Add(vel, viewDirection);
      case Backward => vel := Sub(vel, viewDirection);
      case Left => vel := Add(vel, Neg(right));
      case Right => vel := Add(vel, right);
      case Up => vel := Add(vel, up);
      case Down => vel := Add(vel, Neg(up));
    }

    /** Camera::UpdatePosition: a non-zero velocity moves the camera dt units
        along its direction; the velocity is then reset. */
    method UpdatePosition(dt: real)
      modifies this
      ensures vel == ZERO
      ensures position == if old(vel) != ZERO then Add(old(position), Scale(Normalize(old(vel)), dt)) else old(position)
      ensures CurrentFrame() == old(CurrentFrame()) && pitch == old(pitch) && yaw == old(yaw)
      ensures projectionMatrix == old(projectionMatrix) && viewMatrix == old(viewMatrix)
    {
      if HasPositiveLength(vel) {
        vel := Normalize(vel);
        position := Add(position, Scale(vel, dt));
      }
      vel := ZERO;
    }

    /** The view matrix Camera::GetViewMatrix computes. */
    function View(): Mat4
      reads this
    {
      LookAt(position, Add(position, viewDirection), up)
    }

    /** Camera::GetViewMatrix: recomputes the cached view matrix and returns it. */
    method GetViewMatrix() returns (m: Mat4)
      modifies this
      ensures m == viewMatrix == LookAt(position, Add(position, viewDirection), up)
      ensures position == old(position) && vel == old(vel) && CurrentFrame() == old(CurrentFrame())
      ensures pitch == old(pitch) && yaw == old(yaw) && projectionMatrix == old(projectionMatrix)
    {
      viewMatrix := LookAt(position, Add(position, viewDirection), up);
      m := viewMatrix;
    }
  }
}
