/** The orbit camera (src/camera.c): a target point, a distance from it and two
    angles, driven by mouse drags and the scroll wheel. */
module Camera {
  import opened MathUtils

  /** M_PI */
  const Pi: real := 3.14159265358979323846

  /** Elevation is kept this far away from both poles. */
  const PoleMargin: real := 0.01

  /** camera_t, as a value. */
  datatype CameraState = CameraState(
    target: Vec3,
    radius: real, minRadius: real, maxRadius: real,
    azimuth: real, elevation: real,
    orbitSpeed: real, panSpeed: real, zoomSpeed: real,
    draggingOrbit: bool, draggingPan: bool, moving: bool,
    lastCursorX: real, lastCursorY: real)

  predicate ElevationInRange(e: real)
  {
    PoleMargin <= e <= Pi - PoleMargin
  }

  /** initial_camera_state: looking at the origin from 17e10 away, nothing dragged. */
  function InitialCameraState(): (c: CameraState)
    ensures c.minRadius <= c.radius <= c.maxRadius
    ensures ElevationInRange(c.elevation)
    ensures c.target == Zero && !c.draggingOrbit && !c.draggingPan && !c.moving
  {
    CameraState(Zero, 17.0e10, 1e10, 25.0e10, 0.0, Pi / 2.4, 0.01, 0.005, 25e9,
                false, false, false, 0.0, 0.0)
  }

  /** camera_update_moving_state */
  function WithMovingState(c: CameraState): (r: CameraState)
    ensures r.moving == (r.draggingOrbit || r.draggingPan)
    ensures r == c.(moving := r.moving)
  {
    c.(moving := c.draggingOrbit || c.draggingPan)
  }

  /** camera_get_position: the point on the sphere of the camera's radius around
      the target, at the camera's azimuth and (clamped) elevation. */
  function PositionOf(lm: Libm, c: CameraState): Vec3
  {
    var e := Clamp(c.elevation, PoleMargin, Pi - PoleMargin);
    Add(c.target, Vec3(c.radius * lm.sin(e) * lm.cos(c.azimuth),
                       c.radius * lm.cos(e),
                       c.radius * lm.sin(e) * lm.sin(c.azimuth)))
  }

  /** The unit vector from the camera position towards the target. */
  function ViewDirection(lm: Libm, c: CameraState): Vec3
  {
    Normalize(lm, Subtract(c.target, PositionOf(lm, c)))
  }

  /** The orbit branch of camera_process_mouse_move, for a cursor movement (dx, dy). */
  function Orbited(c: CameraState, dx: real, dy: real): (r: CameraState)
    ensures r == c.(azimuth := r.azimuth, elevation := r.elevation)
    ensures r.azimuth - c.azimuth == dx * c.orbitSpeed
    ensures ElevationInRange(r.elevation)
    ensures ElevationInRange(c.elevation - dy * c.orbitSpeed) ==> r.elevation == c.elevation - dy * c.orbitSpeed
  {
    c.(azimuth := c.azimuth + dx * c.orbitSpeed,
       elevation := Clamp(c.elevation - dy * c.orbitSpeed, PoleMargin, Pi - PoleMargin))
  }

  /** The camera's right axis: across the view, horizontal. */
  function RightAxis(lm: Libm, fwd: Vec3): Vec3
  {
    Normalize(lm, Cross(fwd, Vec3(0.0, 1.0, 0.0)))
  }

  /** The camera's up axis: perpendicular to the right axis and the view. */
  function UpAxis(lm: Libm, right: Vec3, fwd: Vec3): Vec3
  {
    Normalize(lm, Cross(right, fwd))
  }

  /** Both pan axes are perpendicular to the view direction. */
  lemma AxesAcrossView(lm: Libm, fwd: Vec3)
    ensures Dot(RightAxis(lm, fwd), fwd) == 0.0
    ensures Dot(UpAxis(lm, RightAxis(lm, fwd), fwd), fwd) == 0.0
  {
    NormalizeKeepsOrthogonal(lm, Cross(fwd, Vec3(0.0, 1.0, 0.0)), fwd);
    NormalizeKeepsOrthogonal(lm, Cross(RightAxis(lm, fwd), fwd), fwd);
  }

  /** How far a cursor movement d slides the target along one pan axis: the pan
      speed, scaled by the distance to the target in units of 1e11 (pan_scale). */
  function PanStep(c: CameraState, d: real): real
  {
    d * c.panSpeed * (c.radius / 1e11)
  }

  /** The pan branch of camera_process_mouse_move: the target slides along the
      camera's right and up axes, scaled by the distance to it. */
  function Panned(lm: Libm, c: CameraState, dx: real, dy: real): (r: CameraState)
    ensures r == c.(target := r.target)
  {
    var fwd := ViewDirection(lm, c);
    var right := RightAxis(lm, fwd);
    c.(target := Add(Add(c.target, Scale(right, PanStep(c, -dx))), Scale(UpAxis(lm, right, fwd), PanStep(c, dy))))
  }

  /** camera_process_mouse_move: orbit while the left button is held, then pan
      while the middle button is held, then remember the cursor. */
  function MouseMoved(lm: Libm, c: CameraState, x: real, y: real): (r: CameraState)
    ensures r.lastCursorX == x && r.lastCursorY == y
    ensures r.moving == (r.draggingOrbit || r.draggingPan)
    ensures r.draggingOrbit == c.draggingOrbit && r.draggingPan == c.draggingPan
    ensures r.radius == c.radius && r.minRadius == c.minRadius && r.maxRadius == c.maxRadius
    ensures r.orbitSpeed == c.orbitSpeed && r.panSpeed == c.panSpeed && r.zoomSpeed == c.zoomSpeed
    ensures c.draggingOrbit ==> r.azimuth == c.azimuth + (x - c.lastCursorX) * c.orbitSpeed
    ensures c.draggingOrbit ==> ElevationInRange(r.elevation)
    ensures !c.draggingOrbit ==> r.azimuth == c.azimuth && r.elevation == c.elevation
    ensures !c.draggingPan ==> r.target == c.target
  {
    var dx := x - c.lastCursorX;
    var dy := y - c.lastCursorY;
    WithMovingState(Dragged(lm, c, dx, dy).(lastCursorX := x, lastCursorY := y))
  }

  /** The two drag branches of camera_process_mouse_move for a cursor movement
      (dx, dy): orbit while the left button is held, then pan while the middle
      button is held. */
  function Dragged(lm: Libm, c: CameraState, dx: real, dy: real): (r: CameraState)
    ensures r.draggingOrbit == c.draggingOrbit && r.draggingPan == c.draggingPan
  {
    var orbited := if c.draggingOrbit then Orbited(c, dx, dy) else c;
    if c.draggingPan then Panned(lm, orbited, dx, dy) else orbited
  }

  /** camera_process_scroll: zoom by yOffset steps, kept within the radius limits. */
  function Scrolled(c: CameraState, yOffset: real): (r: CameraState)
    ensures c.minRadius <= c.maxRadius ==> c.minRadius <= r.radius <= c.maxRadius
    ensures r == c.(radius := r.radius, moving := c.draggingOrbit || c.draggingPan)
    ensures c.minRadius <= c.radius - yOffset * c.zoomSpeed <= c.maxRadius ==> r.radius == c.radius - yOffset * c.zoomSpeed
    ensures c.radius - yOffset * c.zoomSpeed < c.minRadius ==> r.radius == c.minRadius
    ensures c.minRadius <= c.maxRadius < c.radius - yOffset * c.zoomSpeed ==> r.radius == c.maxRadius
  {
    WithMovingState(c.(radius := Clamp(c.radius - yOffset * c.zoomSpeed, c.minRadius, c.maxRadius)))
  }

  // ---------------------------------------------------------------------------
  // Properties
  // ---------------------------------------------------------------------------

  /** With a sound libm the camera sits exactly `radius` away from its target. */
  lemma PositionOnSphere(lm: Libm, c: CameraState)
    requires Sound(lm)
    ensures LengthSq(Subtract(PositionOf(lm, c), c.target)) == c.radius * c.radius
  {
    var e := Clamp(c.elevation, PoleMargin, Pi - PoleMargin);
    var se, ce, sa, ca := lm.sin(e), lm.cos(e), lm.sin(c.azimuth), lm.cos(c.azimuth);
    var o := Vec3(c.radius * se * ca, c.radius * ce, c.radius * se * sa);
    AddThenSubtract(c.target, o);
    assert Subtract(PositionOf(lm, c), c.target) == o;
    SphericalOffset(c.radius, se, ce, sa, ca);
  }

  /** The spherical-coordinate offset has length `radius` once sin² + cos² = 1
      holds for both angles. */
  lemma SphericalOffset(radius: real, se: real, ce: real, sa: real, ca: real)
    requires se * se + ce * ce == 1.0 && sa * sa + ca * ca == 1.0
    ensures LengthSq(Vec3(radius * se * ca, radius * ce, radius * se * sa)) == radius * radius
  {
    calc {
      LengthSq(Vec3(radius * se * ca, radius * ce, radius * se * sa));
      == radius * se * ca * (radius * se * ca) + radius * ce * (radius * ce) + radius * se * sa * (radius * se * sa);
      == radius * radius * (se * se * (sa * sa + ca * ca) + ce * ce);
      == radius * radius * (se * se + ce * ce);
      == radius * radius;
    }
  }

  lemma DotAdd(a: Vec3, b: Vec3, w: Vec3)
    ensures Dot(Add(a, b), w) == Dot(a, w) + Dot(b, w)
  {
  }

  /** Normalizing a vector orthogonal to w keeps it orthogonal to w. */
  lemma NormalizeKeepsOrthogonal(lm: Libm, v: Vec3, w: Vec3)
    requires Dot(v, w) == 0.0
    ensures Dot(Normalize(lm, v), w) == 0.0
  {
    if 0.0 < Length(lm, v) {
      ScaleKeepsOrthogonal(v, w, 1.0 / Length(lm, v));
    }
  }

  /** Moving a point by multiples of two vectors orthogonal to w moves it orthogonally to w. */
  lemma OffsetsKeepOrthogonal(t: Vec3, a: Vec3, b: Vec3, w: Vec3, s: real, u: real)
    requires Dot(a, w) == 0.0 && Dot(b, w) == 0.0
    ensures Dot(Subtract(Add(Add(t, Scale(a, s)), Scale(b, u)), t), w) == 0.0
  {
    ScaleKeepsOrthogonal(a, w, s);
    ScaleKeepsOrthogonal(b, w, u);
    assert Subtract(Add(Add(t, Scale(a, s)), Scale(b, u)), t) == Add(Scale(a, s), Scale(b, u));
    DotAdd(Scale(a, s), Scale(b, u), w);
  }

  /** Panning moves the target across the view, never along the view direction. */
  lemma PanStaysInViewPlane(lm: Libm, c: CameraState, dx: real, dy: real)
    ensures Dot(Subtract(Panned(lm, c, dx, dy).target, c.target), ViewDirection(lm, c)) == 0.0
  {
    var fwd := ViewDirection(lm, c);
    var right := RightAxis(lm, fwd);
    var up := UpAxis(lm, right, fwd);
    AxesAcrossView(lm, fwd);
    OffsetsKeepOrthogonal(c.target, right, up, fwd, PanStep(c, -dx), PanStep(c, dy));
  }

  /** A pan without cursor movement leaves the target where it is. */
  lemma PanWithoutMovement(lm: Libm, c: CameraState)
    ensures Panned(lm, c, 0.0, 0.0) == c
  {
    assert PanStep(c, -0.0) == 0.0 && PanStep(c, 0.0) == 0.0;
  }

  /** Two orbit drags in a row turn the camera as far as one drag over the
      combined distance: azimuth changes add up. */
  lemma OrbitDragsAccumulate(lm: Libm, c: CameraState, x1: real, y1: real, x2: real, y2: real)
    requires c.draggingOrbit
    ensures MouseMoved(lm, MouseMoved(lm, c, x1, y1), x2, y2).azimuth
         == c.azimuth + (x2 - c.lastCursorX) * c.orbitSpeed
  {
    var c1 := MouseMoved(lm, c, x1, y1);
    assert c1.draggingOrbit && c1.lastCursorX == x1 && c1.orbitSpeed == c.orbitSpeed;
    Telescope(c.azimuth, c.orbitSpeed, c.lastCursorX, x1, x2);
  }

  lemma Telescope(a: real, s: real, p: real, q: real, r: real)
    ensures a + (q - p) * s + (r - q) * s == a + (r - p) * s
  {
  }

  /** Scrolling back by the same amount restores the radius, as long as
      neither scroll ran into a limit. */
  lemma ScrollUndo(c: CameraState, yOffset: real)
    requires c.minRadius <= c.radius - yOffset * c.zoomSpeed <= c.maxRadius
    requires c.minRadius <= c.radius <= c.maxRadius
    ensures Scrolled(Scrolled(c, yOffset), -yOffset).radius == c.radius
  {
    assert -yOffset * c.zoomSpeed == -(yOffset * c.zoomSpeed);
  }

  /** Repeated scrolling can never leave the radius limits, however far one scrolls. */
  lemma {:induction false} ScrollsStayInRange(c: CameraState, offsets: seq<real>)
    requires c.minRadius <= c.maxRadius
    requires c.minRadius <= c.radius <= c.maxRadius
    ensures var r := ScrollAll(c, offsets); c.minRadius <= r.radius <= c.maxRadius && r.minRadius == c.minRadius && r.maxRadius == c.maxRadius
    decreases |offsets|
  {
    if offsets != [] {
      ScrollsStayInRange(Scrolled(c, offsets[0]), offsets[1..]);
    }
  }

  /** The camera after a series of scroll events. */
  function ScrollAll(c: CameraState, offsets: seq<real>): CameraState
    decreases |offsets|
  {
    if offsets == [] then c else ScrollAll(Scrolled(c, offsets[0]), offsets[1..])
  }

  // ---------------------------------------------------------------------------
  // The camera object
  // ---------------------------------------------------------------------------

  /** camera_t, updated in place through the camera_* functions. */
  class OrbitCamera {
    var target: Vec3
    var radius: real
    var minRadius: real
    var maxRadius: real
    var azimuth: real
    var elevation: real
    var orbitSpeed: real
    var panSpeed: real
    var zoomSpeed: real
    var draggingOrbit: bool
    var draggingPan: bool
    var moving: bool
    var lastCursorX: real
    var lastCursorY: real

    function State(): CameraState
      reads this
    {
      CameraState(target, radius, minRadius, maxRadius, azimuth, elevation, orbitSpeed, panSpeed,
                  zoomSpeed, draggingOrbit, draggingPan, moving, lastCursorX, lastCursorY)
    }

    /** The global `camera`, zero-initialised before main resets it. */
    constructor ()
      ensures State() == CameraState(Zero, 0.0, 0.0, 0.0, 0.0, 0.0, 0.0, 0.0, 0.0, false, false, false, 0.0, 0.0)
    {
      target := Zero;
      radius, minRadius, maxRadius := 0.0, 0.0, 0.0;
      azimuth, elevation := 0.0, 0.0;
      orbitSpeed, panSpeed, zoomSpeed := 0.0, 0.0, 0.0;
      draggingOrbit, draggingPan, moving := false, false, false;
      lastCursorX, lastCursorY := 0.0, 0.0;
    }

    /** camera_update_moving_state */
    method UpdateMovingState()
      modifies this
      ensures State() == WithMovingState(old(State()))
      ensures moving == (draggingOrbit || draggingPan)
    {
      moving := draggingOrbit || draggingPan;
    }

    /** camera_process_mouse_move */
    method ProcessMouseMove(lm: Libm, x: real, y: real)
      modifies this
      ensures State() == MouseMoved(lm, old(State()), x, y)
    {
      var dx := x - lastCursorX;
      var dy := y - lastCursorY;
      Drag(lm, dx, dy);
      lastCursorX := x;
      lastCursorY := y;
      UpdateMovingState();
    }

    /** The drag branches of camera_process_mouse_move (lines 49-70). */
    method Drag(lm: Libm, dx: real, dy: real)
      modifies this
      ensures State() == Dragged(lm, old(State()), dx, dy)
    {
      if draggingOrbit {
        Orbit(dx, dy);
      }
      if draggingPan {
        Pan(lm, dx, dy);
      }
    }

    /** The orbit branch of camera_process_mouse_move (lines 49-54). */
    method Orbit(dx: real, dy: real)
      modifies this
      ensures State() == Orbited(old(State()), dx, dy)
    {
      azimuth := azimuth + dx * orbitSpeed;
      elevation := elevation - dy * orbitSpeed;
      elevation := Clamp(elevation, PoleMargin, Pi - PoleMargin);
    }

    /** The pan branch of camera_process_mouse_move (lines 56-70), step by step
        as the source computes it; `Panned` is the value it must produce. */
    method Pan(lm: Libm, dx: real, dy: real)
      modifies this
      ensures State() == Panned(lm, old(State()), dx, dy)
    {
      var cam := State();
      var pos := PositionOf(lm, cam);
      var fwd := Normalize(lm, Subtract(cam.target, pos));
      var right := RightAxis(lm, fwd);
      var up := UpAxis(lm, right, fwd);
      var panOffsetX := Scale(right, PanStep(cam, -dx));
      var panOffsetY := Scale(up, PanStep(cam, dy));
      target := Add(target, panOffsetX);
      target := Add(target, panOffsetY);
    }

    /** camera_process_scroll */
    method ProcessScroll(yOffset: real)
      modifies this
      ensures State() == Scrolled(old(State()), yOffset)
    {
      radius := radius - yOffset * zoomSpeed;
      radius := Clamp(radius, minRadius, maxRadius);
      UpdateMovingState();
    }

    /** Overwrites every field with the matching field of `s`, as a C struct assignment does. */
    method Load(s: CameraState)
      modifies this
      ensures State() == s
    {
      target, radius, minRadius, maxRadius := s.target, s.radius, s.minRadius, s.maxRadius;
      azimuth, elevation := s.azimuth, s.elevation;
      orbitSpeed, panSpeed, zoomSpeed := s.orbitSpeed, s.panSpeed, s.zoomSpeed;
      draggingOrbit, draggingPan, moving := s.draggingOrbit, s.draggingPan, s.moving;
      lastCursorX, lastCursorY := s.lastCursorX, s.lastCursorY;
    }

    /** camera_reset: copies initial_camera_state into the camera. */
    method Reset()
      modifies this
      ensures State() == InitialCameraState()
    {
      Load(InitialCameraState());
    }
  }
}
