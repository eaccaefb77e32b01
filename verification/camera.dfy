/**
  The free-look camera of src/camera.rs: a position, Euler angles (yaw and
  pitch, in degrees), a derived basis (front, right, up), and the options
  movement speed, mouse sensitivity and zoom. Every operation is a pure
  function from the old camera to the new one.

  The operations take the basis recomputation of `update_camera_vectors` as
  a parameter, a function of (yaw, pitch, world up), and `get_view_matrix`
  takes the look-at transform as one. `Formula` spells out camera.rs's
  basis computation over uninterpreted floating-point primitives (cosine and
  sine of an angle in degrees, and the reciprocal of a vector's length used
  by `normalize`). Everything else is exact arithmetic over `real`.
*/
module Camera {
  import opened Options
  import opened Vectors

  datatype CameraMovement = Forward | Backward | Left | Right

  // Default values of camera.rs
  const DefaultYaw: real := -90.0
  const DefaultPitch: real := 0.0
  const DefaultSpeed: real := 2.5
  const DefaultSensitivity: real := 0.1
  const DefaultZoom: real := 45.0
  const DefaultPosition: Vec3 := Vec3(0.0, 0.0, 5.0)
  const DefaultWorldUp: Vec3 := Vec3(0.0, 1.0, 0.0)

  /** The pitch clamp of `process_mouse_movement` is [-PitchLimit, PitchLimit]. */
  const PitchLimit: real := 89.0
  /** The zoom clamp of `process_mouse_scroll` is [MinZoom, MaxZoom]. */
  const MinZoom: real := 1.0
  const MaxZoom: real := 45.0

  datatype Camera = Camera(
    position: Vec3,
    front: Vec3,
    up: Vec3,
    right: Vec3,
    worldUp: Vec3,
    yaw: real,
    pitch: real,
    movementSpeed: real,
    mouseSensitivity: real,
    zoom: real)

  /**
    The uninterpreted numerics of `update_camera_vectors`:
    `cosDeg(a) = cos(to_radians(a))`, `sinDeg(a) = sin(to_radians(a))`, and
    `invLength(v) = 1 / |v|`, so that `normalize(v) = v * invLength(v)`.
  */
  datatype Numerics = Numerics(cosDeg: real -> real, sinDeg: real -> real, invLength: Vec3 -> real)

  /** The basis `update_camera_vectors` derives from yaw, pitch and world up. */
  datatype Basis = Basis(front: Vec3, right: Vec3, up: Vec3)

  /**
    The basis as a function of (yaw, pitch, world up). The camera operations
    take it as a parameter; `Formula` is the one camera.rs computes.
  */
  type BasisFn = (real, real, Vec3) -> Basis

  /** Reference clamp of `x` into [lo, hi]. */
  function Clamp(x: real, lo: real, hi: real): real
    requires lo <= hi
  {
    if x < lo then lo else if x > hi then hi else x
  }

  function Normalize(v: Vec3, num: Numerics): Vec3 {
    Scale(v, num.invLength(v))
  }

  /**
    The computation of `update_camera_vectors`, as a function of its three
    inputs. Whatever the trigonometry and the normalisation factors are, the
    three vectors are pairwise orthogonal and right is orthogonal to world up:
    each is a scaled cross product of the ones before it.
  */
  function CameraVectors(yaw: real, pitch: real, worldUp: Vec3, num: Numerics): (b: Basis)
    ensures Dot(b.right, b.front) == 0.0 && Dot(b.up, b.front) == 0.0 && Dot(b.up, b.right) == 0.0
    ensures Dot(b.right, worldUp) == 0.0
  {
    var direction := Vec3(num.cosDeg(yaw) * num.cosDeg(pitch),
                          num.sinDeg(pitch),
                          num.sinDeg(yaw) * num.cosDeg(pitch));
    var front := Normalize(direction, num);
    var right := Normalize(Cross(front, worldUp), num);
    var up := Normalize(Cross(right, front), num);
    ScaledCrossesOrthogonal(front, worldUp, num);
    Basis(front, right, up)
  }

  /** `update_camera_vectors`'s formula, for a given choice of floating-point primitives. */
  function Formula(num: Numerics): BasisFn {
    (yaw: real, pitch: real, worldUp: Vec3) => CameraVectors(yaw, pitch, worldUp, num)
  }

  /** right := normalize(front × worldUp) and up := normalize(right × front) are orthogonal to what they cross. */
  lemma ScaledCrossesOrthogonal(front: Vec3, worldUp: Vec3, num: Numerics)
    ensures var rc := Cross(front, worldUp);
      var right := Normalize(rc, num);
      var uc := Cross(right, front);
      var up := Normalize(uc, num);
      Dot(right, front) == 0.0 && Dot(up, front) == 0.0 && Dot(up, right) == 0.0 && Dot(right, worldUp) == 0.0
  {
    var rc := Cross(front, worldUp);
    var right := Normalize(rc, num);
    var uc := Cross(right, front);
    CrossOrthogonal(front, worldUp);
    CrossOrthogonal(right, front);
    DotScale(rc, num.invLength(rc), front);
    DotScale(rc, num.invLength(rc), worldUp);
    DotScale(uc, num.invLength(uc), front);
    DotScale(uc, num.invLength(uc), right);
  }

  /** The camera's basis is the one its angles and world up determine. */
  ghost predicate Synced(c: Camera, basis: BasisFn) {
    Basis(c.front, c.right, c.up) == basis(c.yaw, c.pitch, c.worldUp)
  }

  /** What every camera reachable with the default pitch constraint satisfies. */
  ghost predicate Valid(c: Camera, basis: BasisFn) {
    && Synced(c, basis)
    && -PitchLimit <= c.pitch <= PitchLimit
    && MinZoom <= c.zoom <= MaxZoom
  }

  /** `update_camera_vectors`: recomputes front, right and up, and nothing else. */
  function UpdateCameraVectors(c: Camera, basis: BasisFn): (r: Camera)
    ensures Synced(r, basis)
    ensures r.(front := c.front, right := c.right, up := c.up) == c
  {
    var b := basis(c.yaw, c.pitch, c.worldUp);
    c.(front := b.front, right := b.right, up := b.up)
  }

  /**
    `Camera::new`. The `yaw` and `pitch` arguments are accepted but not used:
    the angles always start at the defaults.
  */
  function New(position: Option<Vec3>, up: Option<Vec3>, yaw: Option<real>, pitch: Option<real>,
               basis: BasisFn): (c: Camera)
    ensures c.position == (if position.Some? then position.value else Vec3(0.0, 0.0, 5.0))
    ensures c.worldUp == (if up.Some? then up.value else Vec3(0.0, 1.0, 0.0))
    ensures c.yaw == -90.0 && c.pitch == 0.0
    ensures c.movementSpeed == 2.5 && c.mouseSensitivity == 0.1 && c.zoom == 45.0
    ensures Valid(c, basis)
  {
    var camera := Camera(
      position := position.GetOr(DefaultPosition),
      front := Vec3(0.0, 0.0, -1.0),
      up := Zero,
      right := Zero,
      worldUp := up.GetOr(DefaultWorldUp),
      yaw := DefaultYaw,
      pitch := DefaultPitch,
      movementSpeed := DefaultSpeed,
      mouseSensitivity := DefaultSensitivity,
      zoom := DefaultZoom);
    UpdateCameraVectors(camera, basis)
  }

  /** The constructor's angle arguments have no effect. */
  lemma NewIgnoresAngles(position: Option<Vec3>, up: Option<Vec3>, yaw1: Option<real>, pitch1: Option<real>,
                         yaw2: Option<real>, pitch2: Option<real>, basis: BasisFn)
    ensures New(position, up, yaw1, pitch1, basis) == New(position, up, yaw2, pitch2, basis)
  {
  }

  /**
    With exact trigonometry at the default angles (cos -90 = 0, sin -90 = -1,
    cos 0 = 1, sin 0 = 0) and a normalisation that leaves the unit vector
    (0,0,-1) alone, the default camera looks down -Z.
  */
  lemma DefaultCameraLooksDownNegativeZ(num: Numerics)
    requires num.cosDeg(-90.0) == 0.0 && num.sinDeg(-90.0) == -1.0
    requires num.cosDeg(0.0) == 1.0 && num.sinDeg(0.0) == 0.0
    requires num.invLength(Vec3(0.0, 0.0, -1.0)) == 1.0
    ensures New(None, None, None, None, Formula(num)).front == Vec3(0.0, 0.0, -1.0)
  {
    var direction := Vec3(num.cosDeg(-90.0) * num.cosDeg(0.0), num.sinDeg(0.0), num.sinDeg(-90.0) * num.cosDeg(0.0));
    assert direction == Vec3(0.0, 0.0, -1.0);
    assert CameraVectors(-90.0, 0.0, DefaultWorldUp, num).front == Vec3(0.0, 0.0, -1.0);
  }

  /** A camera kept in sync with camera.rs's formula has a pairwise orthogonal basis. */
  lemma SyncedBasisOrthogonal(c: Camera, num: Numerics)
    requires Synced(c, Formula(num))
    ensures Dot(c.right, c.front) == 0.0 && Dot(c.up, c.front) == 0.0 && Dot(c.up, c.right) == 0.0
  {
    assert Basis(c.front, c.right, c.up) == CameraVectors(c.yaw, c.pitch, c.worldUp, num);
  }

  /** `get_view_matrix`: the look-at transform from the position towards `position + front`. */
  function ViewMatrix<M>(c: Camera, lookAt: (Vec3, Vec3, Vec3) -> M): M {
    lookAt(c.position, Add(c.position, c.front), c.up)
  }

  /** The view depends on the pose alone: position, front and up; angles and options do not enter it. */
  lemma ViewMatrixDependsOnPose<M>(c1: Camera, c2: Camera, lookAt: (Vec3, Vec3, Vec3) -> M)
    requires c1.position == c2.position && c1.front == c2.front && c1.up == c2.up
    ensures ViewMatrix(c1, lookAt) == ViewMatrix(c2, lookAt)
  {
  }

  /** The axis a movement follows and the sign it follows it with. */
  function Axis(c: Camera, direction: CameraMovement): Vec3 {
    match direction
    case Forward => c.front
    case Backward => c.front
    case Left => c.right
    case Right => c.right
  }

  function Sign(direction: CameraMovement): real {
    match direction
    case Forward => 1.0
    case Backward => -1.0
    case Left => -1.0
    case Right => 1.0
  }

  /**
    `process_keyboard`: moves `movement_speed * delta_time` along `front`
    (FORWARD, BACKWARD) or `right` (RIGHT, LEFT). Only the position changes.
  */
  function ProcessKeyboard(c: Camera, direction: CameraMovement, deltaTime: real): (r: Camera)
    ensures r.(position := c.position) == c
    ensures r.position == Add(c.position, Scale(Axis(c, direction), Sign(direction) * (c.movementSpeed * deltaTime)))
  {
    var velocity := c.movementSpeed * deltaTime;
    match direction
    case Forward => c.(position := Add(c.position, Scale(c.front, velocity)))
    case Backward =>
      SubScaleIsAddNeg(c.position, c.front, velocity);
      c.(position := Sub(c.position, Scale(c.front, velocity)))
    case Left =>
      SubScaleIsAddNeg(c.position, c.right, velocity);
      c.(position := Sub(c.position, Scale(c.right, velocity)))
    case Right => c.(position := Add(c.position, Scale(c.right, velocity)))
  }

  /** Opposite movements of equal duration cancel. */
  function Opposite(direction: CameraMovement): CameraMovement {
    match direction
    case Forward => Backward
    case Backward => Forward
    case Left => Right
    case Right => Left
  }

  lemma OppositeMovementsCancel(c: Camera, direction: CameraMovement, deltaTime: real)
    ensures ProcessKeyboard(ProcessKeyboard(c, direction, deltaTime), Opposite(direction), deltaTime) == c
  {
    var c1 := ProcessKeyboard(c, direction, deltaTime);
    var v := c.movementSpeed * deltaTime;
    AddScaleAdd(c.position, Axis(c, direction), Sign(direction) * v, Sign(Opposite(direction)) * v);
    assert Sign(direction) * v + Sign(Opposite(direction)) * v == 0.0;
    ScaleZero(c.position, Axis(c, direction));
  }

  /** A frame of zero duration does not move the camera. */
  lemma ZeroDeltaTimeKeepsCamera(c: Camera, direction: CameraMovement)
    ensures ProcessKeyboard(c, direction, 0.0) == c
  {
    ScaleZero(c.position, Axis(c, direction));
  }

  /** The pitch after the two sequential guards of `process_mouse_movement`. */
  function ConstrainPitch(pitch: real): real {
    var p := if pitch > PitchLimit then PitchLimit else pitch;
    if p < -PitchLimit then -PitchLimit else p
  }

  /**
    `process_mouse_movement`: scales both offsets by the mouse sensitivity,
    adds them to yaw and pitch, clamps pitch to [-89, 89] unless
    `constrain_pitch` is `Some(false)`, and recomputes the basis.
  */
  function ProcessMouseMovement(c: Camera, xOffset: real, yOffset: real, constrainPitch: Option<bool>,
                                basis: BasisFn): (r: Camera)
    ensures r.yaw == c.yaw + xOffset * c.mouseSensitivity
    ensures constrainPitch != Some(false) ==>
      r.pitch == Clamp(c.pitch + yOffset * c.mouseSensitivity, -89.0, 89.0)
    ensures constrainPitch == Some(false) ==> r.pitch == c.pitch + yOffset * c.mouseSensitivity
    ensures r.position == c.position && r.worldUp == c.worldUp && r.zoom == c.zoom
    ensures r.movementSpeed == c.movementSpeed && r.mouseSensitivity == c.mouseSensitivity
    ensures Synced(r, basis)
  {
    var x := xOffset * c.mouseSensitivity;
    var y := yOffset * c.mouseSensitivity;
    var moved := c.(yaw := c.yaw + x, pitch := c.pitch + y);
    var constrained := if constrainPitch.GetOr(true) then moved.(pitch := ConstrainPitch(moved.pitch)) else moved;
    UpdateCameraVectors(constrained, basis)
  }

  /**
    `process_mouse_scroll`: subtracts the offset from the zoom and clamps the
    zoom to [1, 45]. No other field changes.
  */
  function ProcessMouseScroll(c: Camera, yOffset: real): (r: Camera)
    ensures r == c.(zoom := Clamp(c.zoom - yOffset, 1.0, 45.0))
    ensures 1.0 <= r.zoom <= 45.0
  {
    var z := c.zoom - yOffset;
    var z1 := if z < MinZoom then MinZoom else z;
    var z2 := if z1 > MaxZoom then MaxZoom else z1;
    c.(zoom := z2)
  }

  /** Scrolling changes the projection only, never the view. */
  lemma ScrollKeepsView<M>(c: Camera, yOffset: real, lookAt: (Vec3, Vec3, Vec3) -> M)
    ensures ViewMatrix(ProcessMouseScroll(c, yOffset), lookAt) == ViewMatrix(c, lookAt)
  {
  }

  /** Every operation, used with the default pitch constraint, keeps a camera `Valid`. */
  lemma OperationsPreserveValid(c: Camera, basis: BasisFn, direction: CameraMovement, deltaTime: real,
                                xOffset: real, yOffset: real, scroll: real)
    requires Valid(c, basis)
    ensures Valid(ProcessKeyboard(c, direction, deltaTime), basis)
    ensures Valid(ProcessMouseMovement(c, xOffset, yOffset, None, basis), basis)
    ensures Valid(ProcessMouseMovement(c, xOffset, yOffset, Some(true), basis), basis)
    ensures Valid(ProcessMouseScroll(c, scroll), basis)
  {
  }

  /**
    A mouse movement whose scaled vertical offset reaches past a limit pins
    pitch at exactly that limit. In particular a camera at pitch 89 stays at
    89 under every further upward movement, and likewise at -89 downwards.
  */
  lemma PitchSaturates(c: Camera, xOffset: real, yOffset: real, basis: BasisFn)
    ensures yOffset * c.mouseSensitivity >= 89.0 - c.pitch ==>
      ProcessMouseMovement(c, xOffset, yOffset, None, basis).pitch == 89.0
    ensures yOffset * c.mouseSensitivity <= -89.0 - c.pitch ==>
      ProcessMouseMovement(c, xOffset, yOffset, None, basis).pitch == -89.0
  {
    var r := ProcessMouseMovement(c, xOffset, yOffset, None, basis);
    assert r.pitch == Clamp(c.pitch + yOffset * c.mouseSensitivity, -89.0, 89.0);
  }

  /** Scrolling by 1000 from any valid zoom gives exactly 1; by -1000, exactly 45. */
  lemma ZoomSaturates(c: Camera)
    requires 1.0 <= c.zoom <= 45.0
    ensures ProcessMouseScroll(c, 1000.0).zoom == 1.0
    ensures ProcessMouseScroll(c, -1000.0).zoom == 45.0
  {
  }

  /** With the default sensitivity, a horizontal offset of 10 turns yaw by exactly 1 degree. */
  lemma SensitivityScenario(c: Camera, basis: BasisFn)
    requires c.mouseSensitivity == 0.1 && -89.0 <= c.pitch <= 89.0
    ensures ProcessMouseMovement(c, 10.0, 0.0, Some(true), basis).yaw == c.yaw + 1.0
    ensures ProcessMouseMovement(c, 10.0, 0.0, Some(true), basis).pitch == c.pitch
  {
  }

  /** From the default camera, one second of FORWARD moves 2.5 units along `front`. */
  lemma DefaultForwardScenario(basis: BasisFn)
    ensures var c := New(None, None, None, None, basis);
      ProcessKeyboard(c, Forward, 1.0).position == Add(Vec3(0.0, 0.0, 5.0), Scale(c.front, 2.5))
  {
  }
}
