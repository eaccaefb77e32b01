/**
  The input glue of src/utils.rs: the per-frame key poll that turns held
  movement keys into camera movements, and the window-event handler that
  turns cursor positions into mouse offsets (seeding on the first event) and
  forwards scroll offsets.

  The state utils.rs keeps in three mutable locals of the render loop
  (`first_mouse`, `last_x`, `last_y`) is the value `MouseState`.
*/
module Input {
  import opened Options
  import opened Camera

  /** The keys `process_input` polls. */
  datatype Key = Escape | W | S | A | D

  /** The position of a movement's key in the poll order W, S, A, D. */
  function Rank(direction: CameraMovement): nat {
    match direction
    case Forward => 0
    case Backward => 1
    case Left => 2
    case Right => 3
  }

  /** The movements of the held keys, in polling order. */
  function Movements(held: set<Key>): (ms: seq<CameraMovement>)
    ensures |ms| <= 4
    ensures Forward in ms <==> W in held
    ensures Backward in ms <==> S in held
    ensures Left in ms <==> A in held
    ensures Right in ms <==> D in held
    ensures forall i, j :: 0 <= i < j < |ms| ==> Rank(ms[i]) < Rank(ms[j])
  {
    (if W in held then [Forward] else []) + (if S in held then [Backward] else [])
    + (if A in held then [Left] else []) + (if D in held then [Right] else [])
  }

  /** `process_keyboard` applied for each movement in turn, with one delta time. */
  function MoveAll(c: Camera, ms: seq<CameraMovement>, deltaTime: real): (r: Camera)
    ensures r.(position := c.position) == c
    decreases |ms|
  {
    if ms == [] then c else MoveAll(ProcessKeyboard(c, ms[0], deltaTime), ms[1..], deltaTime)
  }

  /** One poll of `process_input`: call `process_keyboard` for the key if it is held. */
  function Poll(c: Camera, key: Key, direction: CameraMovement, held: set<Key>, deltaTime: real): Camera {
    if key in held then ProcessKeyboard(c, direction, deltaTime) else c
  }

  /**
    `process_input`, apart from closing the window on Escape: W, S, A and D
    move the camera FORWARD, BACKWARD, LEFT and RIGHT, polled in that order,
    each with the frame's delta time. Only the position changes.
  */
  function ProcessInput(held: set<Key>, c: Camera, deltaTime: real): (r: Camera)
    ensures r == MoveAll(c, Movements(held), deltaTime)
    ensures r.(position := c.position) == c
  {
    var c1 := Poll(c, W, Forward, held, deltaTime);
    var c2 := Poll(c1, S, Backward, held, deltaTime);
    var c3 := Poll(c2, A, Left, held, deltaTime);
    var c4 := Poll(c3, D, Right, held, deltaTime);
    MoveAllAppend(c, if W in held then [Forward] else [], if S in held then [Backward] else [], deltaTime);
    MoveAllAppend(c, (if W in held then [Forward] else []) + (if S in held then [Backward] else []),
                  if A in held then [Left] else [], deltaTime);
    MoveAllAppend(c, (if W in held then [Forward] else []) + (if S in held then [Backward] else [])
                     + (if A in held then [Left] else []),
                  if D in held then [Right] else [], deltaTime);
    c4
  }

  lemma {:induction false} MoveAllAppend(c: Camera, ms: seq<CameraMovement>, ns: seq<CameraMovement>, deltaTime: real)
    ensures MoveAll(c, ms + ns, deltaTime) == MoveAll(MoveAll(c, ms, deltaTime), ns, deltaTime)
    decreases |ms|
  {
    if ms == [] {
      assert ms + ns == ns;
    } else {
      assert (ms + ns)[1..] == ms[1..] + ns;
      MoveAllAppend(ProcessKeyboard(c, ms[0], deltaTime), ms[1..], ns, deltaTime);
    }
  }

  /** Holding W and S together cancels: the frame moves as if neither were held. */
  lemma ForwardAndBackwardCancel(held: set<Key>, c: Camera, deltaTime: real)
    requires W in held && S in held
    ensures ProcessInput(held, c, deltaTime) == ProcessInput(held - {W, S}, c, deltaTime)
  {
    var rest := (if A in held then [Left] else []) + (if D in held then [Right] else []);
    assert Movements(held) == [Forward, Backward] + rest;
    var others := held - {W, S};
    assert W !in others && S !in others;
    assert (A in others) == (A in held) && (D in others) == (D in held);
    assert Movements(others) == [] + [] + rest;
    MoveAllAppend(c, [Forward, Backward], rest, deltaTime);
    MoveTwo(c, Forward, Backward, deltaTime);
    OppositeMovementsCancel(c, Forward, deltaTime);
  }

  /** Two movements in a row are two `process_keyboard` calls. */
  lemma MoveTwo(c: Camera, first: CameraMovement, second: CameraMovement, deltaTime: real)
    ensures MoveAll(c, [first, second], deltaTime)
         == ProcessKeyboard(ProcessKeyboard(c, first, deltaTime), second, deltaTime)
  {
    var c1 := ProcessKeyboard(c, first, deltaTime);
    assert [first, second][1..] == [second];
    assert [second][1..] == [];
    assert MoveAll(c1, [second], deltaTime) == MoveAll(ProcessKeyboard(c1, second, deltaTime), [], deltaTime);
  }

  /** Escape moves nothing: a frame with only Escape held leaves the camera as it was. */
  lemma EscapeDoesNotMove(c: Camera, deltaTime: real)
    ensures ProcessInput({Escape}, c, deltaTime) == c
  {
  }

  /** The three locals `first_mouse`, `last_x`, `last_y` of the render loop. */
  datatype MouseState = MouseState(firstMouse: bool, lastX: real, lastY: real)

  /** The window events `process_mouse` distinguishes; every other kind is `OtherEvent`. */
  datatype WindowEvent = CursorPos(x: real, y: real) | Scroll(dx: real, dy: real) | OtherEvent

  /** The tracker state after a cursor event and the offsets handed to the camera. */
  datatype CursorUpdate = CursorUpdate(mouse: MouseState, xOffset: real, yOffset: real)

  /**
    The cursor branch of `process_mouse`: seed the last position on the first
    event, take the offsets from the last position (y inverted, since screen
    y grows downwards), then remember the new position.
  */
  function TrackCursor(st: MouseState, x: real, y: real): (u: CursorUpdate)
    ensures u.mouse == MouseState(false, x, y)
    ensures st.firstMouse ==> u.xOffset == 0.0 && u.yOffset == 0.0
    ensures !st.firstMouse ==> u.xOffset == x - st.lastX && u.yOffset == st.lastY - y
  {
    var seeded := if st.firstMouse then MouseState(false, x, y) else st;
    var xOffset := x - seeded.lastX;
    var yOffset := seeded.lastY - y;
    CursorUpdate(seeded.(lastX := x, lastY := y), xOffset, yOffset)
  }

  datatype Handled = Handled(camera: Camera, mouse: MouseState)

  /**
    `process_mouse`: a cursor event moves the camera by the tracked offsets
    (with the default pitch constraint), a scroll event forwards its vertical
    offset to the zoom, and any other event is ignored.
  */
  function ProcessMouse(event: WindowEvent, c: Camera, st: MouseState, basis: BasisFn): (r: Handled)
    ensures event.CursorPos? ==> r.mouse == MouseState(false, event.x, event.y)
    ensures event.CursorPos? && st.firstMouse ==>
      r.camera == ProcessMouseMovement(c, 0.0, 0.0, None, basis) && r.camera.yaw == c.yaw
    ensures event.CursorPos? && !st.firstMouse ==>
      r.camera == ProcessMouseMovement(c, event.x - st.lastX, st.lastY - event.y, None, basis)
    ensures event.Scroll? ==> r == Handled(ProcessMouseScroll(c, event.dy), st)
    ensures event.OtherEvent? ==> r == Handled(c, st)
    ensures !st.firstMouse ==> !r.mouse.firstMouse
  {
    match event
    case CursorPos(x, y) =>
      var u := TrackCursor(st, x, y);
      Handled(ProcessMouseMovement(c, u.xOffset, u.yOffset, None, basis), u.mouse)
    case Scroll(_, dy) => Handled(ProcessMouseScroll(c, dy), st)
    case OtherEvent => Handled(c, st)
  }

  /** The events of successive frames, handled in order. */
  function ProcessEvents(events: seq<WindowEvent>, c: Camera, st: MouseState, basis: BasisFn): Handled
    decreases |events|
  {
    if events == [] then Handled(c, st)
    else
      var h := ProcessMouse(events[0], c, st, basis);
      ProcessEvents(events[1..], h.camera, h.mouse, basis)
  }

  /** Once cleared, `first_mouse` stays cleared whatever events follow. */
  lemma {:induction false} FirstMouseStaysCleared(events: seq<WindowEvent>, c: Camera, st: MouseState, basis: BasisFn)
    requires !st.firstMouse
    ensures !ProcessEvents(events, c, st, basis).mouse.firstMouse
    decreases |events|
  {
    if events != [] {
      var h := ProcessMouse(events[0], c, st, basis);
      FirstMouseStaysCleared(events[1..], h.camera, h.mouse, basis);
    }
  }

  ghost predicate AllCursor(events: seq<WindowEvent>) {
    forall i :: 0 <= i < |events| ==> events[i].CursorPos?
  }

  /** The offsets the tracker hands out over a run of cursor events. */
  function TrackAll(st: MouseState, events: seq<WindowEvent>): (us: seq<CursorUpdate>)
    requires AllCursor(events)
    ensures |us| == |events|
    decreases |events|
  {
    if events == [] then []
    else
      var u := TrackCursor(st, events[0].x, events[0].y);
      [u] + TrackAll(u.mouse, events[1..])
  }

  function SumX(us: seq<CursorUpdate>): real
    decreases |us|
  {
    if us == [] then 0.0 else us[0].xOffset + SumX(us[1..])
  }

  function SumY(us: seq<CursorUpdate>): real
    decreases |us|
  {
    if us == [] then 0.0 else us[0].yOffset + SumY(us[1..])
  }

  /** Where the offsets of a run are measured from: the first event when seeding, else the last position. */
  function OriginX(st: MouseState, events: seq<WindowEvent>): real
    requires |events| > 0 && events[0].CursorPos?
  {
    if st.firstMouse then events[0].x else st.lastX
  }

  function OriginY(st: MouseState, events: seq<WindowEvent>): real
    requires |events| > 0 && events[0].CursorPos?
  {
    if st.firstMouse then events[0].y else st.lastY
  }

  /**
    The offsets of a run of cursor events telescope: their x sum is the last
    x minus the origin x, and their y sum is the origin y minus the last y.
  */
  lemma {:induction false} OffsetsTelescope(st: MouseState, events: seq<WindowEvent>)
    requires |events| > 0 && AllCursor(events)
    ensures SumX(TrackAll(st, events)) == events[|events| - 1].x - OriginX(st, events)
    ensures SumY(TrackAll(st, events)) == OriginY(st, events) - events[|events| - 1].y
    decreases |events|
  {
    var u := TrackCursor(st, events[0].x, events[0].y);
    var us := TrackAll(st, events);
    assert us[1..] == TrackAll(u.mouse, events[1..]);
    if |events| > 1 {
      OffsetsTelescope(u.mouse, events[1..]);
    } else {
      assert us[1..] == [];
    }
  }

  /** No window event changes the mouse sensitivity. */
  lemma {:induction false} ProcessEventsKeepSensitivity(events: seq<WindowEvent>, c: Camera, st: MouseState, basis: BasisFn)
    ensures ProcessEvents(events, c, st, basis).camera.mouseSensitivity == c.mouseSensitivity
    decreases |events|
  {
    if events != [] {
      var h := ProcessMouse(events[0], c, st, basis);
      ProcessEventsKeepSensitivity(events[1..], h.camera, h.mouse, basis);
    }
  }

  /** The total turn a run of offsets gives at a sensitivity: each offset scaled, then summed. */
  function TurnSum(us: seq<CursorUpdate>, sensitivity: real): real
    decreases |us|
  {
    if us == [] then 0.0 else us[0].xOffset * sensitivity + TurnSum(us[1..], sensitivity)
  }

  /** Scaling each offset and then summing is scaling the sum. */
  lemma {:induction false} TurnSumScales(us: seq<CursorUpdate>, s: real)
    ensures TurnSum(us, s) == s * SumX(us)
    decreases |us|
  {
    if us != [] {
      TurnSumScales(us[1..], s);
      TurnsAdd(us[0].xOffset, SumX(us[1..]), s, TurnSum(us[1..], s));
    }
  }

  /** Handling a run of cursor events turns the yaw by each offset times the sensitivity, in turn. */
  lemma {:induction false} ProcessEventsYaw(events: seq<WindowEvent>, c: Camera, st: MouseState, basis: BasisFn)
    requires AllCursor(events)
    ensures ProcessEvents(events, c, st, basis).camera.yaw == c.yaw + TurnSum(TrackAll(st, events), c.mouseSensitivity)
    decreases |events|
  {
    if events == [] {
      assert TrackAll(st, events) == [];
    } else {
      var rest := events[1..];
      var h := ProcessMouse(events[0], c, st, basis);
      var u := TrackCursor(st, events[0].x, events[0].y);
      CursorTurns(events[0], c, st, basis);
      var us := TrackAll(st, events);
      assert us[0] == u && us[1..] == TrackAll(u.mouse, rest);
      var turn := u.xOffset * c.mouseSensitivity;
      assert TurnSum(us, c.mouseSensitivity) == turn + TurnSum(us[1..], c.mouseSensitivity);
      ProcessEventsYaw(rest, h.camera, h.mouse, basis);
      assert ProcessEvents(events, c, st, basis) == ProcessEvents(rest, h.camera, h.mouse, basis);
    }
  }

  /** A cursor event turns the yaw by the tracker's offset times the sensitivity. */
  lemma CursorTurns(event: WindowEvent, c: Camera, st: MouseState, basis: BasisFn)
    requires event.CursorPos?
    ensures ProcessMouse(event, c, st, basis).camera.yaw == c.yaw + TrackCursor(st, event.x, event.y).xOffset * c.mouseSensitivity
    ensures ProcessMouse(event, c, st, basis).camera.mouseSensitivity == c.mouseSensitivity
    ensures ProcessMouse(event, c, st, basis).mouse == TrackCursor(st, event.x, event.y).mouse
  {
  }

  /** Scaling distributes over a sum: the arithmetic step of `TurnSumScales`. */
  lemma TurnsAdd(d: real, t: real, s: real, scaled: real)
    requires scaled == s * t
    ensures d * s + scaled == s * (d + t)
  {
  }

  /**
    Over a run of cursor events the camera's yaw turns by the sensitivity
    times the total horizontal travel of the cursor since the origin.
  */
  lemma {:induction false} YawFollowsCursor(events: seq<WindowEvent>, c: Camera, st: MouseState, basis: BasisFn)
    requires |events| > 0 && AllCursor(events)
    ensures ProcessEvents(events, c, st, basis).camera.yaw
         == c.yaw + c.mouseSensitivity * (events[|events| - 1].x - OriginX(st, events))
    ensures ProcessEvents(events, c, st, basis).camera.mouseSensitivity == c.mouseSensitivity
  {
    ProcessEventsYaw(events, c, st, basis);
    TurnSumScales(TrackAll(st, events), c.mouseSensitivity);
    ProcessEventsKeepSensitivity(events, c, st, basis);
    OffsetsTelescope(st, events);
  }
}
