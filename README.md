# Black-hole simulation core in Dafny

A model of the simulation core of a small OpenGL black-hole viewer. Three
bodies move under Newtonian gravity: two stars and a supermassive black
hole. A 50 x 50 "spacetime" grid is deformed under the bodies, following
Flamm's paraboloid. It is drawn as line segments and regenerated by a
background thread into two buffers, one being read while the other is
written. An orbit camera is driven by GLFW mouse, scroll and key callbacks.

Modules, one per source file:

- `MathUtils` (`src/math_utils.c`): vectors, clamping, and 4x4 column-major
  matrices (identity, perspective, look-at, multiply).
- `Physics` (`src/physics.c`): the body table, and one simulation step
  (velocity kick over every ordered pair, then position drift). It has a
  function-level specification and a `Simulation` class that updates the
  body array in place.
- `Camera` (`src/camera.c`): the camera state as a value, each handler as a
  function, and an `OrbitCamera` class whose methods update its fields.
- `Grid` (`src/grid.c`): index and vertex generation into `GridBuffer`
  arrays, the double-buffer swap, the thread start/stop bookkeeping, the
  mesh upload and the draw decision (`SpacetimeGrid` class).
- `Callbacks` (`src/callbacks.c`): the GLFW key, mouse-button, cursor,
  scroll and resize handlers.
- `Renderer` (`include/renderer.h`): the fields of the renderer engine that
  the modelled code reads or writes, plus `closeRequested`. That flag is not a
  field of `renderer_engine_t`; it stands for GLFW's should-close flag of the
  engine's window.

Floating-point numbers are modelled as `real`. `sqrt`, `sin`, `cos` and
`tan` are a `Libm` parameter. Lemmas that need their mathematical
properties require `Sound(lm)`: `sqrt` is the non-negative square root, and
`sin² + cos² = 1`. Everything else holds for any `Libm`.

## Model

| member | source | states |
|---|---|---|
| MathUtils.Clamp | src/math_utils.c:9-14 | a value below lo gives lo; otherwise a value above hi gives hi; a value in range is returned unchanged; when lo <= hi the result lies in [lo, hi] |
| MathUtils.ClampIdempotent | src/math_utils.c:9-14 | clamping twice to the same range is clamping once |
| MathUtils.Length | src/math_utils.c:16-19 | with a sound sqrt the length is non-negative and its square is the squared length |
| MathUtils.LengthSq | src/math_utils.c:16-19 | the squared length is never negative and is zero for the zero vector |
| MathUtils.Add | src/math_utils.c:44-47 | the zero vector is a unit of addition on either side |
| MathUtils.Subtract | src/math_utils.c:39-42 | a - b is the vector that added to b gives a; it is zero exactly when a == b |
| MathUtils.AddThenSubtract | src/math_utils.c:39-47 | subtraction undoes addition: (a + b) - b == a |
| MathUtils.Scale | src/math_utils.c:49-52 | scaling by 1 is the identity; scaling by 0 or scaling the zero vector gives zero |
| MathUtils.ScaleLengthSq | src/math_utils.c:49-52 | scaling by s multiplies the squared length by s² |
| MathUtils.Cross | src/math_utils.c:31-37 | a × b is orthogonal to both a and b, and a × a is zero |
| MathUtils.CrossAntiCommutative | src/math_utils.c:31-37 | a × b == -(b × a) |
| MathUtils.Normalize | src/math_utils.c:21-29 | a vector of length 0 maps to zero; any other vector is divided by its length |
| MathUtils.NormalizeUnit | src/math_utils.c:16-29 | with a sound sqrt the normalised vector of a non-zero vector has length 1, and the zero vector stays zero |
| MathUtils.Identity | src/math_utils.c:54-59 | the matrix has 1 on the four diagonal slots and 0 in the other twelve |
| MathUtils.Multiply | src/math_utils.c:94-110 | the loops produce the matrix product: every entry (c, r) is the sum over k of a[k*4+r] * b[c*4+k] |
| MathUtils.EntrySum | src/math_utils.c:100-106 | the inner k loop computes exactly the (c, r) entry of the product |
| MathUtils.ProductAt | src/math_utils.c:94-110 | entry c*4+r of the product is the dot product of row r of a and column c of b |
| MathUtils.ProductIdentity | src/math_utils.c:54-59 | the identity matrix is a left and a right unit of Multiply |
| MathUtils.Perspective | src/math_utils.c:61-71 | only slots 0, 5, 10, 11 and 14 are non-zero; slot 11 is -1; the x scale times the aspect ratio is the y scale; points on the near and far planes map to clip depth -w and +w |
| MathUtils.PerspectiveDepth | src/math_utils.c:67-70 | the depth terms send z = -near to -near and z = -far to far |
| MathUtils.ViewMatrixMovesEye | src/math_utils.c:73-92 | the view matrix maps the eye to the origin |
| MathUtils.ViewMatrixShape | src/math_utils.c:73-92 | for orthogonal s, u, f the rotation rows are mutually orthogonal, the third row is -f, and the bottom row is (0, 0, 0, 1) |
| MathUtils.ViewBasisOrthogonal | src/math_utils.c:75-77 | s = normalize(f × up) and u = s × f are orthogonal to f and to each other, whatever sqrt returns |
| MathUtils.LookAt | src/math_utils.c:73-92 | the eye maps to the origin; the rotation rows are mutually orthogonal; the third row is -normalize(center - eye); the bottom row is (0, 0, 0, 1) |
| Physics.MassCancels | src/physics.c:56-57 | force / mass_i is G * m_j / d², stated as acceleration * d² == G * m_j |
| Physics.PairDelta | src/physics.c:47-63 | a pair at or inside contact range (distance <= sum of radii) contributes no velocity change, and nothing changes when dt is 0 |
| Physics.PairDeltaIsGravity | src/physics.c:53-62 | out of contact range the velocity change is the unit vector from i towards j scaled by acceleration * dt |
| Physics.Deltas | src/physics.c:39-45 | one contribution per body, and a body exerts nothing on itself (j == i is skipped) |
| Physics.DeltasIgnoreVelocities | src/physics.c:47-57 | the pair contributions depend only on positions, radii and masses, not on velocities |
| Physics.Moved | src/physics.c:67-72 | the drift moves the position by velocity * dt and keeps mass, radius, colour and velocity |
| Physics.Kick | src/physics.c:39-65 | the velocity pass keeps the number of bodies and their well-formedness |
| Physics.Drift | src/physics.c:67-72 | the position pass keeps the number of bodies and their well-formedness |
| Physics.Step | src/physics.c:39-72 | one unpaused step (kick, then drift) keeps the number of bodies and their well-formedness |
| Physics.StepMovesBodies | src/physics.c:39-72 | after a step, each body's velocity is its old velocity plus the sum of its pair contributions, its position has moved by the new velocity * dt, and mass, radius and colour are unchanged |
| Physics.StepWithoutTime | src/physics.c:60-71 | a step with dt == 0 leaves every body unchanged |
| Physics.NoVelocityChangeWithoutTime | src/physics.c:60-62 | with dt == 0 a body's new velocity is its old velocity |
| Physics.SumVecPermutation | src/physics.c:39-65 | the sum of the velocity increments does not depend on the order in which they are added |
| Physics.PairOrderIrrelevant | src/physics.c:41-64 | visiting the pairs of body i in any order gives the same new velocity |
| Physics.EqualMassesPullOppositely | src/physics.c:47-62 | two bodies of equal mass receive opposite velocity changes from each other (Newton's third law) |
| Physics.MirroredVelocities | src/physics.c:39-65 | in a two-body system, two equal-mass bodies placed symmetrically about the origin with opposite velocities get opposite new velocities, whatever their radii |
| Physics.MirroredStep | src/physics.c:33-73 | in a two-body system, one step keeps such a symmetric pair symmetric |
| Physics.MirrorSymmetryPreserved | src/physics.c:33-73 | in a two-body system, any number of steps keeps such a symmetric pair symmetric |
| Physics.Simulation.constructor | src/physics.c:16-31 | the body array holds the initial table (two stars and the black hole) and the simulation is not paused |
| Physics.Simulation.UpdatePhysics | src/physics.c:33-73 | when paused the bodies are untouched; otherwise the array becomes Step of the old array |
| Physics.Simulation.ApplyGravity | src/physics.c:39-65 | the pair loops update velocities in place; since pair contributions read only positions, radii and masses, the result is the kick of the old array |
| Physics.Simulation.PullBody | src/physics.c:41-64 | only body i changes, and only its velocity, which becomes its old velocity plus the contributions of the current array |
| Physics.Simulation.MoveBodies | src/physics.c:67-72 | the array becomes the drift of the old array |
| Camera.InitialCameraState | src/camera.c:10-24 | the initial radius lies between the minimum and maximum radius; the elevation is off the poles; target zero; no drag and not moving |
| Camera.PositionOnSphere | src/camera.c:28-37 | with sound sin and cos, the position `PositionOf` computes (camera_get_position) lies at distance radius from the target |
| Camera.Orbited | src/camera.c:49-54 | an orbit drag adds dx * orbitSpeed to the azimuth, keeps the elevation inside the pole margins, moves it by -dy * orbitSpeed when that stays in range, and changes nothing else |
| Camera.OrbitDragsAccumulate | src/camera.c:44-54 | two orbit drags turn the azimuth by the same amount as one drag from the first cursor position to the last |
| Camera.AxesAcrossView | src/camera.c:58-62 | the pan right and up axes are orthogonal to the view direction |
| Camera.Panned | src/camera.c:56-70 | a pan moves only the target |
| Camera.PanStaysInViewPlane | src/camera.c:56-70 | the target moves only within the plane orthogonal to the view direction |
| Camera.PanWithoutMovement | src/camera.c:56-70 | a pan with zero cursor movement leaves the camera unchanged |
| Camera.Dragged | src/camera.c:49-70 | the orbit and pan branches leave both drag flags as they were |
| Camera.MouseMoved | src/camera.c:44-75 | the handler records the cursor position; it orbits only while orbit-dragging and pans only while pan-dragging; radius, limits and speeds are kept; moving == dragging |
| Camera.Scrolled | src/camera.c:77-82 | the radius moves by -yOffset * zoomSpeed when that stays within [minRadius, maxRadius]; an undershoot gives exactly minRadius and an overshoot exactly maxRadius; only radius and the moving flag change |
| Camera.ScrollUndo | src/camera.c:77-82 | scrolling back by the same offset restores the radius when the first scroll did not clamp |
| Camera.ScrollsStayInRange | src/camera.c:77-82 | any sequence of scrolls keeps the radius within the limits, which never change |
| Camera.OrbitCamera.constructor | src/camera.c:26 | the global camera starts zero-initialised |
| Camera.WithMovingState | src/camera.c:39-42 | afterwards moving holds exactly when draggingOrbit or draggingPan does, and no other field changes |
| Camera.OrbitCamera.UpdateMovingState | src/camera.c:39-42 | moving becomes draggingOrbit or draggingPan, and nothing else changes |
| Camera.OrbitCamera.ProcessMouseMove | src/camera.c:44-75 | the fields become MouseMoved of the old state |
| Camera.OrbitCamera.Drag | src/camera.c:49-70 | the fields become Dragged of the old state: Orbited while orbit-dragging, then Panned while pan-dragging |
| Camera.OrbitCamera.Orbit | src/camera.c:49-54 | the fields become Orbited of the old state |
| Camera.OrbitCamera.Pan | src/camera.c:56-70 | the fields become Panned of the old state |
| Camera.OrbitCamera.ProcessScroll | src/camera.c:77-82 | the fields become Scrolled of the old state |
| Camera.OrbitCamera.Reset | src/camera.c:84-87 | the fields become the initial camera state, copied whole from `InitialCameraState` as the source copies one struct |
| Grid.GridIndices | src/grid.c:119-140 | the index list has exactly 10000 entries, four per cell |
| Grid.GridVertices | src/grid.c:56-117 | the vertex list has exactly 2601 entries, one per lattice point |
| Grid.SlotRoundTrip | src/grid.c:70-113 | vertex (z, x) is stored at slot z * 51 + x, inside the buffer, and the slot decodes back to (z, x) |
| Grid.IndexAt | src/grid.c:119-140 | every index refers to an existing vertex |
| Grid.CellLayout | src/grid.c:124-137 | cell (z, x) owns indices 4k..4k+3: its corner, its right neighbour, its corner again, and the vertex below |
| Grid.SegmentsJoinNeighbours | src/grid.c:124-137 | every line segment joins two vertices adjacent in the lattice, starting from a vertex that is not on the last row or column |
| Grid.WorldCoordinateRange | src/grid.c:74-75 | grid coordinates span [-25e10, 25e10] and are symmetric about the centre |
| Grid.VertexAtSlot | src/grid.c:70-116 | the vertex at slot z * 51 + x has world x, world z and the accumulated height of lattice point (z, x) |
| Grid.LiftNonNegative | src/grid.c:88-111 | the lift `Lift` gives for one body (Flamm's paraboloid) is never negative, and is zero within its Schwarzschild radius |
| Grid.PlanetLiftScaled | src/grid.c:105-109 | every body other than the black hole (index 2) lifts 500 times as much |
| Grid.HeightAboveFloor | src/grid.c:76-112 | the height `HeightAfter` accumulates over any number of bodies never lies below the flat floor at -25e10 |
| Grid.ComputeGridIndices | src/grid.c:119-140 | the buffer holds exactly the 10000 indices of the line list, and the index count is 10000 |
| Grid.ComputeGridVertices | src/grid.c:56-117 | the buffer holds exactly the 2601 lattice vertices deformed by the snapshot, and the vertex count is 2601 |
| Grid.GridBuffer.constructor | src/grid.c:187-190 | fresh arrays of the maximum sizes, with both counts zero |
| Grid.Started | src/grid.c:210-221 | starting is a no-op while a thread exists; otherwise a successful create records the handle and the run flag, and a failed create leaves handle 0 and the flag down |
| Grid.Stopped | src/grid.c:223-231 | stopping is a no-op without a thread; otherwise the run flag drops and the handle returns to 0 |
| Grid.StartThenStop | src/grid.c:210-231 | starting and then stopping leaves no thread and the run flag down, whether creation succeeded or not |
| Grid.LifecycleIdempotent | src/grid.c:210-231 | starting a running thread again and stopping twice change nothing |
| Grid.SpacetimeGrid.constructor | src/grid.c:22-50 | read buffer 0, write buffer 1, no data ready, no thread, and the grid visible |
| Grid.SpacetimeGrid.InitBuffers | src/grid.c:180-197 | the read buffer holds the mesh of the current bodies, data is ready, the write buffer is empty, and the buffer roles are unchanged |
| Grid.SpacetimeGrid.GeneratorIteration | src/grid.c:152-172 | while the simulation is paused nothing changes; otherwise the buffers swap roles, data is ready, and the new read buffer holds the mesh of the current bodies |
| Grid.SpacetimeGrid.StartThread | src/grid.c:210-221 | the thread bookkeeping becomes Started of the old one |
| Grid.SpacetimeGrid.StopThread | src/grid.c:223-231 | the thread bookkeeping becomes Stopped of the old one |
| Grid.SpacetimeGrid.IsThreaded | src/grid.c:233-236 | true exactly when the thread handle is non-zero (`Threaded`) |
| Grid.SpacetimeGrid.UpdateMesh | src/grid.c:238-269 | when data is ready the engine's index count becomes the read buffer's (10000); otherwise it is unchanged |
| Grid.SpacetimeGrid.Render | src/grid.c:304-319 | a visible grid draws the engine's index count; a hidden one draws nothing |
| Grid.GenerateMesh | src/grid.c:272-301 | a new buffer holds the mesh of the current bodies, and the engine's index count becomes 10000 |
| Callbacks.KeyEffect | src/callbacks.c:59-82 | only presses act: P flips pause, G flips grid visibility, Esc sets the close flag, R resets the camera; every other key or action changes nothing |
| Callbacks.TogglesUndo | src/callbacks.c:59-82 | pressing P twice, or G twice, restores every flag |
| Callbacks.MouseButtonEffect | src/callbacks.c:20-47 | the left button sets or clears the orbit drag and the middle button the pan drag; a press records the cursor position; moving == dragging; nothing else changes |
| Callbacks.PressThenRelease | src/callbacks.c:20-47 | a press and release of one button end that drag, keep the other, and keep the position recorded at the press |
| Callbacks.OtherButtonsKeepOrbit | src/callbacks.c:20-47 | no event from a button other than the left one changes the orbit drag |
| Callbacks.KeyCallback | src/callbacks.c:59-82 | the engine, camera, simulation and grid flags change exactly as KeyEffect says |
| Callbacks.MouseButtonCallback | src/callbacks.c:20-47 | the camera changes exactly as MouseButtonEffect says |
| Callbacks.CursorPositionCallback | src/callbacks.c:49-52 | the camera changes exactly as MouseMoved says |
| Callbacks.ScrollCallback | src/callbacks.c:54-57 | the camera changes as Scrolled by the vertical offset; the horizontal offset is ignored |
| Callbacks.FramebufferSizeCallback | src/callbacks.c:84-96 | the window and render-texture sizes both become the new size |
| Renderer.Engine.constructor | include/renderer.h:17-29 | the zero-initialised global engine: all sizes and the index count 0, no close request |

## Left out

- IEEE single and double precision are not modelled. This covers rounding, the `(float)` and `(double)` casts, and `float` accumulation of the vertex height. Numbers are exact reals.
- `sqrtf`, `sinf`, `cosf` and `tanf` are a `Libm` parameter. The only facts assumed about them are those in `Sound`.
- Threads are not modelled: the mutex, the atomics, `nanosleep`, `pthread_create` and `pthread_join`. One pass of the generator loop is `SpacetimeGrid.GeneratorIteration`. The `pthread_create` result is a parameter.
- `physics_lock` and `physics_unlock`, and the physics thread, are not part of this model. The body snapshot is the `Simulation`'s array read directly.
- OpenGL and GLFW calls are not modelled: buffer uploads, VAO creation, shader uniforms, draw calls and the window. Render returns the number of indices it would draw.
- `grid_cleanup_buffers`, `malloc` and `free` are left out. Allocation happens in the `GridBuffer` constructor, and Dafny has no deallocation.
- `glfwGetCursorPos` is replaced by the cursor position, passed as parameters to `Callbacks.MouseButtonCallback`.
- The `printf` logging in `callback_key` is left out; it has no effect on state.
- The key, button and action codes are GLFW's published values. The GLFW header is not part of this model.
- `src/renderer.c`, `src/shaders.c` and `src/main.c` are not part of this model.
- `RAY_INTEGRATION_STEP` and `RAY_ESCAPE_RADIUS` in `src/physics.c` are not read anywhere in the program, so they are not modelled. The ray tracer's shader hard-codes the same values.
- `Grid.SpacetimeGrid.UpdateMesh` never clears the data-ready flag, as in the source, so every frame after the first upload uploads again.
- Physics.Simulation.UpdatePhysics and the other physics members require `AllWellFormed` (positive masses and non-negative radii), which the body table satisfies. A zero mass would divide by zero in the source.
- Physics.MassCancels is stated multiplicatively (`acceleration * d² == G * m_j`) rather than as a quotient.
- MathUtils.Perspective requires a non-zero `aspect * tan(fovy / 2)` and `zFar != zNear`. Where these are zero the source divides by zero and produces infinities.
- Grid.StartThenStop assumes that a successful `pthread_create` returns a non-zero handle, which the source's `grid_thread_handle != 0` tests rely on.
- Physics.MirrorSymmetryPreserved, Physics.MirroredStep and Physics.MirroredVelocities are stated for two-body systems. The program's table has three bodies, and its two stars are not placed symmetrically, so these lemmas describe the step function rather than the shipped scene.
- Grid.ComputeGridVertices requires a three-body snapshot, the size of the body table.
- Camera.OrbitCamera.constructor describes the zero-initialised global; the program resets the camera at start-up, which is `Camera.OrbitCamera.Reset`.
