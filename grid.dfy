/** The spacetime grid (src/grid.c): a (GridSize + 1) x (GridSize + 1) lattice of
    vertices, raised around each body along Flamm's paraboloid and drawn as line
    segments. A generator fills one of two buffers while the renderer reads the
    other; a swap publishes the new mesh. */
module Grid {
  import opened MathUtils
  import opened Physics
  import opened Renderer

  const GridSize := 50
  const GridSpacing: real := 1e10
  const PlanetCurvatureScale: real := 500.0
  /** The height of the flat surface before any body raises it. */
  const FloorHeight: real := -25e10

  /** Vertices per lattice row. */
  const RowLength := GridSize + 1
  /** The capacities grid_init_buffers allocates: (N + 1)^2 vertices, N^2 * 4 indices. */
  const MaxVertices := (GridSize + 1) * (GridSize + 1)
  const MaxIndices := GridSize * GridSize * 4

  // ---------------------------------------------------------------------------
  // Lattice indices (compute_grid_indices)
  // ---------------------------------------------------------------------------

  /** The vertex slot of column x in row z: rows one after another, x fastest. */
  function Slot(z: int, x: int): int
  {
    z * RowLength + x
  }

  /** Every slot of the lattice comes from exactly one (row, column) pair. */
  lemma SlotRoundTrip(z: int, x: int)
    requires 0 <= z <= GridSize && 0 <= x <= GridSize
    ensures 0 <= Slot(z, x) < MaxVertices
    ensures Slot(z, x) / RowLength == z && Slot(z, x) % RowLength == x
  {
  }

  /** The index at offset k of the index buffer: cell k / 4 (cells row by row,
      GridSize per row) emits its horizontal segment (i, i + 1) and then its
      vertical segment (i, i + N + 1), where i is the cell's corner slot. */
  function IndexAt(k: int): (v: int)
    requires 0 <= k < MaxIndices
    ensures 0 <= v < MaxVertices
  {
    var cell := k / 4;
    var i := Slot(cell / GridSize, cell % GridSize);
    if k % 4 == 1 then i + 1
    else if k % 4 == 3 then i + GridSize + 1
    else i
  }

  /** The whole index buffer as compute_grid_indices leaves it. */
  function GridIndices(): (s: seq<int>)
    ensures |s| == MaxIndices
  {
    seq(MaxIndices, k requires 0 <= k < MaxIndices => IndexAt(k))
  }

  /** Cell (z, x) occupies offsets 4 * (z * N + x) .. + 3 and writes
      [i, i + 1, i, i + N + 1] there. */
  lemma CellLayout(z: int, x: int)
    requires 0 <= z < GridSize && 0 <= x < GridSize
    ensures 0 <= 4 * (z * GridSize + x) && 4 * (z * GridSize + x) + 3 < MaxIndices
    ensures var o := 4 * (z * GridSize + x);
      && IndexAt(o) == Slot(z, x) && IndexAt(o + 1) == Slot(z, x) + 1
      && IndexAt(o + 2) == Slot(z, x) && IndexAt(o + 3) == Slot(z + 1, x)
  {
    var cell := z * GridSize + x;
    assert cell / GridSize == z && cell % GridSize == x;
    assert (4 * cell) / 4 == cell && (4 * cell) % 4 == 0;
    assert (4 * cell + 1) / 4 == cell && (4 * cell + 1) % 4 == 1;
    assert (4 * cell + 2) / 4 == cell && (4 * cell + 2) % 4 == 2;
    assert (4 * cell + 3) / 4 == cell && (4 * cell + 3) % 4 == 3;
  }

  /** Two lattice slots joined by one grid line: horizontal neighbours in the
      same row, or vertical neighbours in the same column. */
  predicate Adjacent(a: int, b: int)
  {
    && 0 <= a && b < MaxVertices
    && ((b == a + 1 && a % RowLength < GridSize) || b == a + RowLength)
  }

  /** Each pair of indices is a segment between adjacent lattice vertices, and
      it starts outside the last row and the last column: those lines are
      never emitted. */
  lemma SegmentsJoinNeighbours(k: int)
    requires 0 <= k < MaxIndices && k % 2 == 0
    ensures Adjacent(IndexAt(k), IndexAt(k + 1))
    ensures IndexAt(k) / RowLength < GridSize && IndexAt(k) % RowLength < GridSize
  {
    var cell := k / 4;
    var z, x := cell / GridSize, cell % GridSize;
    SlotRoundTrip(z, x);
    assert IndexAt(k) == Slot(z, x);
  }

  // ---------------------------------------------------------------------------
  // Lattice vertices (compute_grid_vertices)
  // ---------------------------------------------------------------------------

  /** World coordinate of lattice column (or row) n: centred on the origin,
      with N / 2 in integer division. */
  function WorldCoordinate(n: int): real
  {
    (n - GridSize / 2) as real * GridSpacing
  }

  /** The lattice is symmetric about the origin and spans [-25e10, 25e10]. */
  lemma WorldCoordinateRange(n: int)
    requires 0 <= n <= GridSize
    ensures -25e10 <= WorldCoordinate(n) <= 25e10
    ensures WorldCoordinate(GridSize - n) == -WorldCoordinate(n)
  {
  }

  /** 2GM/c^2 */
  function SchwarzschildRadius(mass: real): real
  {
    2.0 * GravitationalConstant * mass / (SpeedOfLight * SpeedOfLight)
  }

  /** How much body b, the i-th of the snapshot, raises the surface at
      (worldX, worldZ): nothing within its Schwarzschild radius, otherwise the
      height of Flamm's paraboloid, exaggerated for every body but the black
      hole (index 2). */
  function Lift(lm: Libm, b: Body, i: int, worldX: real, worldZ: real): real
  {
    var rs := SchwarzschildRadius(b.mass);
    var dx := worldX - b.positionAndRadius.x;
    var dz := worldZ - b.positionAndRadius.z;
    if dx * dx + dz * dz > rs * rs then
      var deltaY := lm.sqrt(8.0 * rs * (lm.sqrt(dx * dx + dz * dz) - rs));
      if i != 2 then deltaY * PlanetCurvatureScale else deltaY
    else 0.0
  }

  /** The surface height after the first n bodies have raised it. */
  function HeightAfter(lm: Libm, bodies: seq<Body>, n: int, worldX: real, worldZ: real): real
    requires 0 <= n <= |bodies|
  {
    if n == 0 then FloorHeight
    else HeightAfter(lm, bodies, n - 1, worldX, worldZ) + Lift(lm, bodies[n - 1], n - 1, worldX, worldZ)
  }

  /** The vertex at lattice row z, column x. */
  function GridVertex(lm: Libm, bodies: seq<Body>, z: int, x: int): Vec3
  {
    Vec3(WorldCoordinate(x), HeightAfter(lm, bodies, |bodies|, WorldCoordinate(x), WorldCoordinate(z)), WorldCoordinate(z))
  }

  /** The whole vertex buffer as compute_grid_vertices leaves it. */
  function GridVertices(lm: Libm, bodies: seq<Body>): (s: seq<Vec3>)
    ensures |s| == MaxVertices
  {
    seq(MaxVertices, k requires 0 <= k < MaxVertices => GridVertex(lm, bodies, k / RowLength, k % RowLength))
  }

  /** Slot z * (N + 1) + x of the vertex buffer holds the vertex of row z, column x. */
  lemma VertexAtSlot(lm: Libm, bodies: seq<Body>, z: int, x: int)
    requires 0 <= z <= GridSize && 0 <= x <= GridSize
    ensures 0 <= Slot(z, x) < MaxVertices
    ensures GridVertices(lm, bodies)[Slot(z, x)] == GridVertex(lm, bodies, z, x)
  {
    SlotRoundTrip(z, x);
  }

  lemma SquaresOrdered(a: real, b: real)
    requires 0.0 <= a <= b
    ensures a * a <= b * b
  {
  }

  /** With a sound sqrt, a body of non-negative mass never lowers the surface;
      within its Schwarzschild radius it leaves it as it is. */
  lemma LiftNonNegative(lm: Libm, b: Body, i: int, worldX: real, worldZ: real)
    requires Sound(lm) && 0.0 <= b.mass
    ensures 0.0 <= Lift(lm, b, i, worldX, worldZ)
    ensures var dx, dz, rs := worldX - b.positionAndRadius.x, worldZ - b.positionAndRadius.z, SchwarzschildRadius(b.mass);
      dx * dx + dz * dz <= rs * rs ==> Lift(lm, b, i, worldX, worldZ) == 0.0
  {
    var rs := SchwarzschildRadius(b.mass);
    var dx := worldX - b.positionAndRadius.x;
    var dz := worldZ - b.positionAndRadius.z;
    if dx * dx + dz * dz > rs * rs {
      var dist := lm.sqrt(dx * dx + dz * dz);
      assert 0.0 <= dist && dist * dist == dx * dx + dz * dz;
      if dist <= rs {
        SquaresOrdered(dist, rs);
        assert false;
      }
      assert 0.0 <= 8.0 * rs * (dist - rs);
      assert 0.0 <= lm.sqrt(8.0 * rs * (dist - rs));
    }
  }

  /** A star raises the surface PlanetCurvatureScale times as much as the black
      hole would from the same place with the same mass. */
  lemma PlanetLiftScaled(lm: Libm, b: Body, i: int, worldX: real, worldZ: real)
    requires i != 2
    ensures Lift(lm, b, i, worldX, worldZ) == PlanetCurvatureScale * Lift(lm, b, 2, worldX, worldZ)
  {
  }

  /** Every vertex lies on or above the floor, whatever the bodies' positions. */
  lemma {:induction false} HeightAboveFloor(lm: Libm, bodies: seq<Body>, n: int, worldX: real, worldZ: real)
    requires Sound(lm) && 0 <= n <= |bodies|
    requires forall k :: 0 <= k < |bodies| ==> 0.0 <= bodies[k].mass
    ensures FloorHeight <= HeightAfter(lm, bodies, n, worldX, worldZ)
  {
    if n > 0 {
      HeightAboveFloor(lm, bodies, n - 1, worldX, worldZ);
      LiftNonNegative(lm, bodies[n - 1], n - 1, worldX, worldZ);
    }
  }

  // ---------------------------------------------------------------------------
  // Buffers
  // ---------------------------------------------------------------------------

  /** grid_buffer_t, with its two arrays allocated at full capacity. */
  class GridBuffer {
    const vertices: array<Vec3>
    const indices: array<int>
    var vertexCount: int
    var indexCount: int

    ghost predicate Valid()
      reads this
    {
      vertices.Length == MaxVertices && indices.Length == MaxIndices
    }

    /** The buffer holds the complete mesh for the given bodies. */
    ghost predicate HoldsMesh(lm: Libm, bodies: seq<Body>)
      reads this, vertices, indices
    {
      && Valid()
      && vertexCount == MaxVertices && vertices[..] == GridVertices(lm, bodies)
      && indexCount == MaxIndices && indices[..] == GridIndices()
    }

    /** The two mallocs of grid_init_buffers and the zeroed counts. */
    constructor ()
      ensures Valid() && fresh(vertices) && fresh(indices)
      ensures vertexCount == 0 && indexCount == 0
    {
      vertices := new Vec3[MaxVertices](_ => Zero);
      indices := new int[MaxIndices];
      vertexCount, indexCount := 0, 0;
    }
  }

  /** compute_grid_indices */
  method ComputeGridIndices(buffer: GridBuffer)
    requires buffer.Valid()
    modifies buffer`indexCount, buffer.indices
    ensures buffer.Valid()
    ensures buffer.indexCount == MaxIndices && buffer.indices[..] == GridIndices()
  {
    var indexCount := 0;
    for z := 0 to GridSize
      invariant indexCount == 4 * (z * GridSize)
      invariant forall k :: 0 <= k < indexCount ==> buffer.indices[k] == IndexAt(k)
    {
      for x := 0 to GridSize
        invariant indexCount == 4 * (z * GridSize + x)
        invariant forall k :: 0 <= k < indexCount ==> buffer.indices[k] == IndexAt(k)
      {
        var i := z * (GridSize + 1) + x;
        CellLayout(z, x);
        buffer.indices[indexCount] := i;
        indexCount := indexCount + 1;
        buffer.indices[indexCount] := i + 1;
        indexCount := indexCount + 1;
        buffer.indices[indexCount] := i;
        indexCount := indexCount + 1;
        buffer.indices[indexCount] := i + GridSize + 1;
        indexCount := indexCount + 1;
      }
    }
    buffer.indexCount := indexCount;
  }

  /** compute_grid_vertices, given the snapshot of the bodies that the source
      copies out under the physics lock. */
  method ComputeGridVertices(buffer: GridBuffer, snapshot: seq<Body>, lm: Libm)
    requires buffer.Valid() && |snapshot| == NumCelestialBodies
    modifies buffer`vertexCount, buffer.vertices
    ensures buffer.Valid()
    ensures buffer.vertexCount == MaxVertices && buffer.vertices[..] == GridVertices(lm, snapshot)
  {
    var vertexCount := 0;
    for z := 0 to GridSize + 1
      invariant vertexCount == z * RowLength
      invariant forall k :: 0 <= k < vertexCount ==> buffer.vertices[k] == GridVertices(lm, snapshot)[k]
    {
      for x := 0 to GridSize + 1
        invariant vertexCount == z * RowLength + x
        invariant forall k :: 0 <= k < vertexCount ==> buffer.vertices[k] == GridVertices(lm, snapshot)[k]
      {
        var worldX := (x - GridSize / 2) as real * GridSpacing;
        var worldZ := (z - GridSize / 2) as real * GridSpacing;
        var y := FloorHeight;
        for i := 0 to NumCelestialBodies
          invariant y == HeightAfter(lm, snapshot, i, worldX, worldZ)
        {
          y := y + Lift(lm, snapshot[i], i, worldX, worldZ);
        }
        VertexAtSlot(lm, snapshot, z, x);
        buffer.vertices[vertexCount] := Vec3(worldX, y, worldZ);
        vertexCount := vertexCount + 1;
      }
    }
    buffer.vertexCount := vertexCount;
  }

  // ---------------------------------------------------------------------------
  // Generator thread lifecycle
  // ---------------------------------------------------------------------------

  /** What pthread_create reported: success with the new thread's handle, or failure. */
  datatype CreateResult = Created(handle: int) | CreateFailed

  /** grid_thread_handle and grid_thread_should_run */
  datatype Lifecycle = Lifecycle(handle: int, shouldRun: bool)

  /** grid_start_thread: nothing if a thread is already recorded; otherwise the
      loop flag is raised and the handle recorded, both undone if creation fails. */
  function Started(l: Lifecycle, result: CreateResult): (r: Lifecycle)
    ensures l.handle != 0 ==> r == l
    ensures l.handle == 0 && result.CreateFailed? ==> r == Lifecycle(0, false)
    ensures l.handle == 0 && result.Created? ==> r == Lifecycle(result.handle, true)
  {
    if l.handle != 0 then l
    else match result
      case Created(h) => Lifecycle(h, true)
      case CreateFailed => Lifecycle(0, false)
  }

  /** grid_stop_thread: nothing without a thread, otherwise lower the flag, join, forget the handle. */
  function Stopped(l: Lifecycle): (r: Lifecycle)
    ensures l.handle == 0 ==> r == l
    ensures l.handle != 0 ==> r == Lifecycle(0, false)
  {
    if l.handle == 0 then l else Lifecycle(0, false)
  }

  /** grid_is_threaded */
  predicate Threaded(l: Lifecycle)
  {
    l.handle != 0
  }

  /** Starting from the initial state and stopping again always ends with no
      thread and the loop flag down, whether or not creation succeeded, as long
      as a created thread's handle is not the value 0 that marks "no thread". */
  lemma StartThenStop(result: CreateResult)
    requires result.Created? ==> result.handle != 0
    ensures var r := Stopped(Started(Lifecycle(0, false), result)); !Threaded(r) && !r.shouldRun
  {
  }

  /** A second start changes nothing once a thread is running, and a second
      stop changes nothing once stopped. */
  lemma LifecycleIdempotent(l: Lifecycle, first: CreateResult, second: CreateResult)
    requires Threaded(Started(l, first))
    ensures Started(Started(l, first), second) == Started(l, first)
    ensures Stopped(Stopped(l)) == Stopped(l)
  {
  }

  // ---------------------------------------------------------------------------
  // The module state of grid.c
  // ---------------------------------------------------------------------------

  /** The static state of grid.c: the two buffers, which one is read and which
      written, the ready flag, the generator thread and the visibility flag.
      The ghost fields remember which bodies the published mesh was computed from. */
  class SpacetimeGrid {
    const buffer0: GridBuffer
    const buffer1: GridBuffer
    var readBuffer: int
    var writeBuffer: int
    var dataReady: bool
    var threadHandle: int
    var shouldRun: bool
    var visible: bool
    ghost var publishedLm: Libm
    ghost var publishedBodies: seq<Body>

    /** grid_buffers[k] */
    function Buffer(k: int): GridBuffer
    {
      if k == 0 then buffer0 else buffer1
    }

    function Thread(): Lifecycle
      reads this
    {
      Lifecycle(threadHandle, shouldRun)
    }

    /** The buffer indices are 0 and 1 in some order, the buffers do not share
        storage, and whenever the ready flag is up the read buffer holds a
        complete mesh. */
    ghost predicate Valid()
      reads this, buffer0, buffer1, buffer0.vertices, buffer0.indices, buffer1.vertices, buffer1.indices
    {
      && buffer0.Valid() && buffer1.Valid()
      && buffer0 != buffer1 && buffer0.vertices != buffer1.vertices && buffer0.indices != buffer1.indices
      && (readBuffer == 0 || readBuffer == 1) && writeBuffer == 1 - readBuffer
      && (dataReady ==> Buffer(readBuffer).HoldsMesh(publishedLm, publishedBodies))
    }

    /** The static initialisers, with the buffers' storage already allocated. */
    constructor ()
      ensures Valid() && fresh(buffer0) && fresh(buffer1)
      ensures fresh(buffer0.vertices) && fresh(buffer0.indices) && fresh(buffer1.vertices) && fresh(buffer1.indices)
      ensures readBuffer == 0 && writeBuffer == 1 && !dataReady
      ensures Thread() == Lifecycle(0, false) && visible
    {
      buffer0 := new GridBuffer();
      buffer1 := new GridBuffer();
      readBuffer, writeBuffer := 0, 1;
      dataReady := false;
      threadHandle, shouldRun := 0, false;
      visible := true;
    }

    /** grid_init_buffers: zero both counts, fill the read buffer and raise the ready flag. */
    method InitBuffers(sim: Simulation, lm: Libm)
      requires Valid() && sim.Valid()
      modifies this, buffer0, buffer1, Buffer(readBuffer).vertices, Buffer(readBuffer).indices
      ensures Valid() && dataReady
      ensures readBuffer == old(readBuffer) && writeBuffer == old(writeBuffer)
      ensures Buffer(readBuffer).HoldsMesh(lm, sim.bodies[..])
      ensures Buffer(writeBuffer).vertexCount == 0 && Buffer(writeBuffer).indexCount == 0
      ensures Thread() == old(Thread()) && visible == old(visible)
    {
      buffer0.vertexCount, buffer0.indexCount := 0, 0;
      buffer1.vertexCount, buffer1.indexCount := 0, 0;
      var buffer := Buffer(readBuffer);
      var snapshot := sim.bodies[..];
      ComputeGridVertices(buffer, snapshot, lm);
      ComputeGridIndices(buffer);
      assert buffer.HoldsMesh(lm, snapshot);
      dataReady := true;
      publishedLm, publishedBodies := lm, snapshot;
    }

    /** One pass of the loop in grid_thread_proc: unless the physics is paused,
        fill the write buffer from a snapshot of the bodies, then swap the two
        buffers and raise the ready flag. */
    method GeneratorIteration(sim: Simulation, lm: Libm)
      requires Valid() && sim.Valid()
      modifies this, Buffer(writeBuffer), Buffer(writeBuffer).vertices, Buffer(writeBuffer).indices
      ensures Valid()
      ensures Thread() == old(Thread()) && visible == old(visible)
      ensures sim.paused ==> unchanged(this) && unchanged(Buffer(writeBuffer), Buffer(writeBuffer).vertices, Buffer(writeBuffer).indices)
      ensures !sim.paused ==> readBuffer == old(writeBuffer) && writeBuffer == old(readBuffer) && dataReady
      ensures !sim.paused ==> Buffer(readBuffer).HoldsMesh(lm, sim.bodies[..])
    {
      if !sim.paused {
        var snapshot := sim.bodies[..];
        var buffer := Buffer(writeBuffer);
        ComputeGridVertices(buffer, snapshot, lm);
        ComputeGridIndices(buffer);
        var temp := readBuffer;
        readBuffer := writeBuffer;
        writeBuffer := temp;
        dataReady := true;
        publishedLm, publishedBodies := lm, snapshot;
      }
    }

    /** grid_start_thread */
    method StartThread(result: CreateResult)
      modifies this`threadHandle, this`shouldRun
      ensures Thread() == Started(old(Thread()), result)
    {
      if threadHandle != 0 {
        return;
      }
      shouldRun := true;
      match result {
        case Created(h) =>
          threadHandle := h;
        case CreateFailed =>
          shouldRun := false;
          threadHandle := 0;
      }
    }

    /** grid_stop_thread */
    method StopThread()
      modifies this`threadHandle, this`shouldRun
      ensures Thread() == Stopped(old(Thread()))
    {
      if threadHandle == 0 {
        return;
      }
      shouldRun := false;
      threadHandle := 0;
    }

    /** grid_is_threaded */
    method IsThreaded() returns (threaded: bool)
      ensures threaded == Threaded(Thread())
    {
      threaded := threadHandle != 0;
    }

    /** grid_update_mesh: when the ready flag is up, hand the read buffer to the
        GPU; the flag is left up. */
    method UpdateMesh(engine: Engine)
      requires Valid()
      modifies engine`gridIndexCount
      ensures dataReady ==> engine.gridIndexCount == Buffer(readBuffer).indexCount == MaxIndices
      ensures !dataReady ==> engine.gridIndexCount == old(engine.gridIndexCount)
    {
      if !dataReady {
        return;
      }
      var buffer := Buffer(readBuffer);
      engine.gridIndexCount := buffer.indexCount;
    }

    /** grid_render, reduced to how many indices it draws: none while hidden.
        Once the GL calls are set aside, the visibility guard is the whole
        behaviour, so the contract states that guard. */
    method Render(engine: Engine) returns (drawn: int)
      ensures drawn == if visible then engine.gridIndexCount else 0
    {
      if !visible {
        return 0;
      }
      drawn := engine.gridIndexCount;
    }
  }

  /** grid_generate_mesh: fill a temporary buffer synchronously and hand it to
      the GPU; the buffer handed over is returned. */
  method GenerateMesh(engine: Engine, sim: Simulation, lm: Libm) returns (uploaded: GridBuffer)
    requires sim.Valid()
    modifies engine`gridIndexCount
    ensures uploaded.HoldsMesh(lm, sim.bodies[..])
    ensures engine.gridIndexCount == MaxIndices
  {
    uploaded := new GridBuffer();
    ComputeGridVertices(uploaded, sim.bodies[..], lm);
    ComputeGridIndices(uploaded);
    engine.gridIndexCount := uploaded.indexCount;
  }
}
