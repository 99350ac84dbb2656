/** The GLFW input callbacks (src/callbacks.c): keys toggle the simulation and
    the grid or reset the camera, mouse buttons start and end drags, cursor
    motion and the wheel move the camera, and a resize updates the sizes. */
module Callbacks {
  import opened MathUtils
  import opened Camera
  import opened Physics
  import opened Grid
  import opened Renderer

  // GLFW's values for the keys, buttons and actions the handlers test.
  const KeyEscape := 256
  const KeyR := 82
  const KeyP := 80
  const KeyG := 71
  const Release := 0
  const Press := 1
  const MouseButtonLeft := 0
  const MouseButtonMiddle := 2

  /** The state the key handler can change: the camera, the pause flag, the
      grid's visibility and the window's close flag. */
  datatype Controls = Controls(camera: CameraState, paused: bool, gridVisible: bool, closeRequested: bool)

  /** callback_key: only presses act; Esc asks the window to close, R resets the
      camera, P and G flip their flags, and every other key is ignored. */
  function KeyEffect(c: Controls, key: int, action: int): (r: Controls)
    ensures r.paused == (c.paused != (action == Press && key == KeyP))
    ensures r.gridVisible == (c.gridVisible != (action == Press && key == KeyG))
    ensures r.closeRequested == (c.closeRequested || (action == Press && key == KeyEscape))
    ensures r.camera == (if action == Press && key == KeyR then InitialCameraState() else c.camera)
  {
    if action != Press then c
    else if key == KeyEscape then c.(closeRequested := true)
    else if key == KeyR then c.(camera := InitialCameraState())
    else if key == KeyP then c.(paused := !c.paused)
    else if key == KeyG then c.(gridVisible := !c.gridVisible)
    else c
  }

  /** Pressing P twice, or G twice, restores every flag. */
  lemma TogglesUndo(c: Controls)
    ensures KeyEffect(KeyEffect(c, KeyP, Press), KeyP, Press) == c
    ensures KeyEffect(KeyEffect(c, KeyG, Press), KeyG, Press) == c
  {
  }

  /** callback_mouse_button: the left button starts and ends an orbit drag, the
      middle button a pan drag; a press also records the cursor position
      (glfwGetCursorPos, here cursorX and cursorY). */
  function MouseButtonEffect(c: CameraState, button: int, action: int, cursorX: real, cursorY: real): (r: CameraState)
    ensures r.moving == (r.draggingOrbit || r.draggingPan)
    ensures r.draggingOrbit == (if button == MouseButtonLeft && action == Press then true
                                else if button == MouseButtonLeft && action == Release then false
                                else c.draggingOrbit)
    ensures r.draggingPan == (if button == MouseButtonMiddle && action == Press then true
                              else if button == MouseButtonMiddle && action == Release then false
                              else c.draggingPan)
    ensures (button == MouseButtonLeft || button == MouseButtonMiddle) && action == Press
            ==> r.lastCursorX == cursorX && r.lastCursorY == cursorY
    ensures !((button == MouseButtonLeft || button == MouseButtonMiddle) && action == Press)
            ==> r.lastCursorX == c.lastCursorX && r.lastCursorY == c.lastCursorY
    ensures r == c.(draggingOrbit := r.draggingOrbit, draggingPan := r.draggingPan, moving := r.moving,
                    lastCursorX := r.lastCursorX, lastCursorY := r.lastCursorY)
  {
    var orbit :=
      if button != MouseButtonLeft then c
      else if action == Press then c.(draggingOrbit := true, lastCursorX := cursorX, lastCursorY := cursorY)
      else if action == Release then c.(draggingOrbit := false)
      else c;
    var pan :=
      if button != MouseButtonMiddle then orbit
      else if action == Press then orbit.(draggingPan := true, lastCursorX := cursorX, lastCursorY := cursorY)
      else if action == Release then orbit.(draggingPan := false)
      else orbit;
    WithMovingState(pan)
  }

  /** A press and a release of the same button leave the drag flags as they
      were before, except that this button's drag has ended. */
  lemma PressThenRelease(c: CameraState, button: int, x: real, y: real, x2: real, y2: real)
    requires button == MouseButtonLeft || button == MouseButtonMiddle
    ensures var r := MouseButtonEffect(MouseButtonEffect(c, button, Press, x, y), button, Release, x2, y2);
      && r.draggingOrbit == (button != MouseButtonLeft && c.draggingOrbit)
      && r.draggingPan == (button != MouseButtonMiddle && c.draggingPan)
      && r.lastCursorX == x && r.lastCursorY == y
  {
  }

  /** A drag ends only when its own button is released: with the left button
      held, presses and releases of any other button keep the orbit going. */
  lemma OtherButtonsKeepOrbit(c: CameraState, button: int, action: int, x: real, y: real)
    requires button != MouseButtonLeft
    ensures MouseButtonEffect(c, button, action, x, y).draggingOrbit == c.draggingOrbit
  {
  }

  function ControlsOf(engine: Engine, camera: OrbitCamera, sim: Simulation, grid: SpacetimeGrid): Controls
    reads engine, camera, sim, grid
  {
    Controls(camera.State(), sim.paused, grid.visible, engine.closeRequested)
  }

  /** callback_key */
  method KeyCallback(engine: Engine, camera: OrbitCamera, sim: Simulation, grid: SpacetimeGrid,
                     key: int, scancode: int, action: int, mods: int)
    modifies engine`closeRequested, camera, sim`paused, grid`visible
    ensures ControlsOf(engine, camera, sim, grid) == KeyEffect(old(ControlsOf(engine, camera, sim, grid)), key, action)
  {
    if action == Press {
      if key == KeyEscape {
        engine.closeRequested := true;
      } else if key == KeyR {
        camera.Reset();
      } else if key == KeyP {
        sim.paused := !sim.paused;
      } else if key == KeyG {
        grid.visible := !grid.visible;
      }
    }
  }

  /** callback_mouse_button, with the cursor position glfwGetCursorPos would report. */
  method MouseButtonCallback(camera: OrbitCamera, button: int, action: int, mods: int, cursorX: real, cursorY: real)
    modifies camera
    ensures camera.State() == MouseButtonEffect(old(camera.State()), button, action, cursorX, cursorY)
  {
    if button == MouseButtonLeft {
      if action == Press {
        camera.draggingOrbit := true;
        camera.lastCursorX, camera.lastCursorY := cursorX, cursorY;
      } else if action == Release {
        camera.draggingOrbit := false;
      }
    }
    if button == MouseButtonMiddle {
      if action == Press {
        camera.draggingPan := true;
        camera.lastCursorX, camera.lastCursorY := cursorX, cursorY;
      } else if action == Release {
        camera.draggingPan := false;
      }
    }
    camera.UpdateMovingState();
  }

  /** callback_cursor_position */
  method CursorPositionCallback(camera: OrbitCamera, lm: Libm, xpos: real, ypos: real)
    modifies camera
    ensures camera.State() == MouseMoved(lm, old(camera.State()), xpos, ypos)
  {
    camera.ProcessMouseMove(lm, xpos, ypos);
  }

  /** callback_scroll: the horizontal offset is ignored. */
  method ScrollCallback(camera: OrbitCamera, xoffset: real, yoffset: real)
    modifies camera
    ensures camera.State() == Scrolled(old(camera.State()), yoffset)
  {
    camera.ProcessScroll(yoffset);
  }

  /** callback_framebuffer_size: the window and the render texture both take the new size. */
  method FramebufferSizeCallback(engine: Engine, width: int, height: int)
    modifies engine`windowWidth, engine`windowHeight, engine`renderTextureWidth, engine`renderTextureHeight
    ensures engine.windowWidth == width && engine.windowHeight == height
    ensures engine.renderTextureWidth == width && engine.renderTextureHeight == height
  {
    engine.windowWidth := width;
    engine.windowHeight := height;
    engine.renderTextureWidth := width;
    engine.renderTextureHeight := height;
  }
}
