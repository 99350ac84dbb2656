/** The n-body physics step (src/physics.c) over the global array of
    celestial bodies, with single- and double-precision floats as reals. */
module Physics {
  import opened MathUtils

  const SpeedOfLight: real := 299792458.0
  const GravitationalConstant: real := 6.67430e-11
  const BlackHoleSchwarzschildRadius: real := 1.269e10
  const NumCelestialBodies := 3

  /** celestial_body_t: position in .x/.y/.z and radius in .w of positionAndRadius. */
  datatype Body = Body(positionAndRadius: Vec4, color: Vec4, mass: real, velocity: Vec3)

  function Position(b: Body): Vec3
  {
    Vec3(b.positionAndRadius.x, b.positionAndRadius.y, b.positionAndRadius.z)
  }

  function Radius(b: Body): real
  {
    b.positionAndRadius.w
  }

  /** What the initial bodies satisfy and no step changes: a non-negative radius
      and a positive mass (the step divides by the distance and by the mass). */
  predicate WellFormed(b: Body)
  {
    0.0 <= Radius(b) && 0.0 < b.mass
  }

  predicate AllWellFormed(bodies: seq<Body>)
  {
    forall k :: 0 <= k < |bodies| ==> WellFormed(bodies[k])
  }

  /** The literal initial conditions: a blue star, a red star, the black hole. */
  const InitialBodies: seq<Body> := [
    Body(Vec4(2.3e11, 0.0, 0.0, 4e10), Vec4(0.4, 0.7, 1.0, 1.0), 1.98892e30, Vec3(0.0, 0.0, 5.34e7)),
    Body(Vec4(-1.6e11, 0.0, 0.0, 4e10), Vec4(0.8, 0.3, 0.2, 1.0), 1.98892e30, Vec3(0.0, 0.0, -5.34e7)),
    Body(Vec4(0.0, 0.0, 0.0, BlackHoleSchwarzschildRadius), Vec4(0.0, 0.0, 0.0, 1.0), 8.54e36, Zero)
  ]

  /** The (x, y, z) part of a position-and-radius vector. */
  function Point(p: Vec4): Vec3
  {
    Vec3(p.x, p.y, p.z)
  }

  /** The distance from body i at pi to body j at pj as the step computes it. */
  function Distance(lm: Libm, pi: Vec4, pj: Vec4): real
  {
    Length(lm, Subtract(Point(pj), Point(pi)))
  }

  /** The acceleration of body i towards body j at distance d, computed as the
      source does: the force G m_i m_j / d^2, then divided by m_i. */
  function Acceleration(mi: real, mj: real, d: real): real
    requires mi != 0.0 && d != 0.0
  {
    (GravitationalConstant * mi * mj) / (d * d) / mi
  }

  /** Body i's own mass cancels: its acceleration times d^2 is G m_j, whatever m_i is. */
  lemma MassCancels(mi: real, mj: real, d: real)
    requires mi != 0.0 && d != 0.0
    ensures Acceleration(mi, mj, d) * (d * d) == GravitationalConstant * mj
  {
    SquarePositive(d);
  }

  lemma SquarePositive(d: real)
    requires d != 0.0
    ensures d * d > 0.0
  {
    if d < 0.0 {
      assert d * d == (-d) * (-d);
    }
  }

  /** The velocity change that body j (at pj, of mass mj) gives body i (at pi,
      of mass mi) in one step of length dt; nothing at contact range. */
  function PairDelta(pi: Vec4, mi: real, pj: Vec4, mj: real, dt: real, lm: Libm): (dv: Vec3)
    requires 0.0 <= pi.w && 0.0 <= pj.w && mi != 0.0
    ensures Distance(lm, pi, pj) <= pi.w + pj.w ==> dv == Zero
    ensures dt == 0.0 ==> dv == Zero
  {
    var dx := pj.x - pi.x;
    var dy := pj.y - pi.y;
    var dz := pj.z - pi.z;
    var distance := Distance(lm, pi, pj);
    if distance > pi.w + pj.w then
      var direction := Vec3(dx / distance, dy / distance, dz / distance);
      var acceleration := Acceleration(mi, mj, distance);
      Vec3(direction.x * acceleration * dt, direction.y * acceleration * dt, direction.z * acceleration * dt)
    else
      Zero
  }

  lemma ScaleTwice(v: Vec3, a: real, t: real)
    ensures Vec3(v.x * a * t, v.y * a * t, v.z * a * t) == Scale(v, a * t)
  {
    assert v.x * a * t == v.x * (a * t);
    assert v.y * a * t == v.y * (a * t);
    assert v.z * a * t == v.z * (a * t);
  }

  /** Out of contact range, a pair's velocity change points along the unit
      vector from body i to body j, with length acceleration times dt. */
  lemma PairDeltaIsGravity(pi: Vec4, mi: real, pj: Vec4, mj: real, dt: real, lm: Libm)
    requires 0.0 <= pi.w && 0.0 <= pj.w && mi != 0.0
    requires pi.w + pj.w < Distance(lm, pi, pj)
    ensures var d := Distance(lm, pi, pj);
      PairDelta(pi, mi, pj, mj, dt, lm)
        == Scale(Normalize(lm, Subtract(Point(pj), Point(pi))), Acceleration(mi, mj, d) * dt)
  {
    var d := Distance(lm, pi, pj);
    PairDeltaUnfolds(pi, mi, pj, mj, dt, lm);
    DirectionUnfolds(pi, pj, lm);
    ScaleTwice(Vec3((pj.x - pi.x) / d, (pj.y - pi.y) / d, (pj.z - pi.z) / d), Acceleration(mi, mj, d), dt);
  }

  lemma DirectionUnfolds(pi: Vec4, pj: Vec4, lm: Libm)
    requires 0.0 < Distance(lm, pi, pj)
    ensures var d := Distance(lm, pi, pj);
      Normalize(lm, Subtract(Point(pj), Point(pi))) == Vec3((pj.x - pi.x) / d, (pj.y - pi.y) / d, (pj.z - pi.z) / d)
  {
  }

  lemma PairDeltaUnfolds(pi: Vec4, mi: real, pj: Vec4, mj: real, dt: real, lm: Libm)
    requires 0.0 <= pi.w && 0.0 <= pj.w && mi != 0.0
    requires pi.w + pj.w < Distance(lm, pi, pj)
    ensures var d := Distance(lm, pi, pj);
      var acc := Acceleration(mi, mj, d);
      PairDelta(pi, mi, pj, mj, dt, lm)
        == Vec3((pj.x - pi.x) / d * acc * dt, (pj.y - pi.y) / d * acc * dt, (pj.z - pi.z) / d * acc * dt)
  {
  }

  /** Distance is the square root of the sum of the squared coordinate differences. */
  lemma DistanceUnfolds(pi: Vec4, pj: Vec4, lm: Libm)
    ensures Subtract(Point(pj), Point(pi)) == Vec3(pj.x - pi.x, pj.y - pi.y, pj.z - pi.z)
    ensures Distance(lm, pi, pj)
      == lm.sqrt((pj.x - pi.x) * (pj.x - pi.x) + (pj.y - pi.y) * (pj.y - pi.y) + (pj.z - pi.z) * (pj.z - pi.z))
  {
    assert LengthSq(Vec3(pj.x - pi.x, pj.y - pi.y, pj.z - pi.z))
      == (pj.x - pi.x) * (pj.x - pi.x) + (pj.y - pi.y) * (pj.y - pi.y) + (pj.z - pi.z) * (pj.z - pi.z);
  }

  /** The velocity changes of body i, one per j in the source's iteration
      order; the skipped pair j == i contributes nothing. */
  function Deltas(bodies: seq<Body>, i: int, dt: real, lm: Libm): (ds: seq<Vec3>)
    requires 0 <= i < |bodies| && AllWellFormed(bodies)
    ensures |ds| == |bodies| && ds[i] == Zero
  {
    seq(|bodies|, j requires 0 <= j < |bodies| =>
      if j == i then Zero
      else PairDelta(bodies[i].positionAndRadius, bodies[i].mass, bodies[j].positionAndRadius, bodies[j].mass, dt, lm))
  }

  /** Only positions, radii and masses enter the pull between two bodies. */
  lemma DeltasIgnoreVelocities(a: seq<Body>, b: seq<Body>, i: int, dt: real, lm: Libm)
    requires 0 <= i < |a| == |b| && AllWellFormed(a) && AllWellFormed(b)
    requires forall k :: 0 <= k < |a| ==> a[k].positionAndRadius == b[k].positionAndRadius && a[k].mass == b[k].mass
    ensures Deltas(a, i, dt, lm) == Deltas(b, i, dt, lm)
  {
  }

  /** The sum of vs, accumulated left to right. */
  function SumVec(vs: seq<Vec3>): Vec3
  {
    if vs == [] then Zero else Add(SumVec(vs[..|vs| - 1]), vs[|vs| - 1])
  }

  /** Body i's velocity after the pairwise loop. */
  function NewVelocity(bodies: seq<Body>, i: int, dt: real, lm: Libm): Vec3
    requires 0 <= i < |bodies| && AllWellFormed(bodies)
  {
    Add(bodies[i].velocity, SumVec(Deltas(bodies, i, dt, lm)))
  }

  /** Every body's velocity after the pairwise loop (lines 39-65): positions
      are read but not yet written, so all pairs see the pre-step positions. */
  function Kick(bodies: seq<Body>, dt: real, lm: Libm): (next: seq<Body>)
    requires AllWellFormed(bodies)
    ensures |next| == |bodies| && AllWellFormed(next)
  {
    seq(|bodies|, k requires 0 <= k < |bodies| => bodies[k].(velocity := NewVelocity(bodies, k, dt, lm)))
  }

  /** Body b moved for dt at its own velocity. */
  function Moved(b: Body, dt: real): (r: Body)
    ensures r.mass == b.mass && r.color == b.color && Radius(r) == Radius(b) && r.velocity == b.velocity
    ensures Position(r) == Add(Position(b), Scale(b.velocity, dt))
  {
    var p := b.positionAndRadius;
    b.(positionAndRadius := Vec4(p.x + b.velocity.x * dt, p.y + b.velocity.y * dt, p.z + b.velocity.z * dt, p.w))
  }

  /** Every body moved at its velocity (the position loop, lines 67-72). */
  function Drift(bodies: seq<Body>, dt: real): (next: seq<Body>)
    ensures |next| == |bodies|
    ensures AllWellFormed(bodies) ==> AllWellFormed(next)
  {
    seq(|bodies|, k requires 0 <= k < |bodies| => Moved(bodies[k], dt))
  }

  /** One explicit-Euler step of all bodies: velocities first, then positions. */
  function Step(bodies: seq<Body>, dt: real, lm: Libm): (next: seq<Body>)
    requires AllWellFormed(bodies)
    ensures |next| == |bodies| && AllWellFormed(next)
  {
    Drift(Kick(bodies, dt, lm), dt)
  }

  /** A step changes only velocities and positions: each velocity gains the
      pairwise changes, then each position moves by the UPDATED velocity times dt. */
  lemma StepMovesBodies(bodies: seq<Body>, dt: real, lm: Libm, k: int)
    requires AllWellFormed(bodies) && 0 <= k < |bodies|
    ensures var next := Step(bodies, dt, lm)[k];
      && next.mass == bodies[k].mass
      && next.color == bodies[k].color
      && Radius(next) == Radius(bodies[k])
      && next.velocity == Add(bodies[k].velocity, SumVec(Deltas(bodies, k, dt, lm)))
      && Position(next) == Add(Position(bodies[k]), Scale(next.velocity, dt))
  {
  }

  /** The global body array together with the global pause flag. */
  class Simulation {
    const bodies: array<Body>
    var paused: bool

    ghost predicate Valid()
      reads this, bodies
    {
      bodies.Length == NumCelestialBodies && AllWellFormed(bodies[..])
    }

    /** The static initialisation of celestial_bodies and is_physics_paused. */
    constructor ()
      ensures Valid() && fresh(bodies)
      ensures bodies[..] == InitialBodies && !paused
    {
      bodies := new Body[3](k requires 0 <= k < 3 => InitialBodies[k]);
      paused := false;
    }

    /** simulation_update_physics: nothing while paused, otherwise one step. */
    method UpdatePhysics(dt: real, lm: Libm)
      requires Valid()
      modifies bodies
      ensures Valid()
      ensures paused ==> bodies[..] == old(bodies[..])
      ensures !paused ==> bodies[..] == Step(old(bodies[..]), dt, lm)
    {
      if paused {
        return;
      }
      ApplyGravity(dt, lm);
      MoveBodies(dt);
    }

    /** The pairwise loop of simulation_update_physics: for each body i, each
        other body j adds its pull to body i's velocity, in place. */
    method ApplyGravity(dt: real, lm: Libm)
      requires Valid()
      modifies bodies
      ensures Valid() && bodies[..] == Kick(old(bodies[..]), dt, lm)
    {
      ghost var pre := bodies[..];
      for i := 0 to NumCelestialBodies
        invariant Valid()
        invariant forall k :: 0 <= k < i ==> bodies[k] == pre[k].(velocity := NewVelocity(pre, k, dt, lm))
        invariant forall k :: i <= k < NumCelestialBodies ==> bodies[k] == pre[k]
      {
        DeltasIgnoreVelocities(bodies[..], pre, i, dt, lm);
        PullBody(i, dt, lm);
      }
      assert bodies[..] == Kick(pre, dt, lm);
    }

    /** One pass of the inner loop (lines 41-64): every other body adds its
        pull to body i's velocity; no other body changes. */
    method PullBody(i: int, dt: real, lm: Libm)
      requires Valid() && 0 <= i < NumCelestialBodies
      modifies bodies
      ensures Valid()
      ensures bodies[..] == old(bodies[..])[i := old(bodies[i]).(velocity := NewVelocity(old(bodies[..]), i, dt, lm))]
    {
      ghost var pre := bodies[..];
      ghost var ds := Deltas(pre, i, dt, lm);
      for j := 0 to NumCelestialBodies
        invariant bodies[i] == pre[i].(velocity := Add(pre[i].velocity, SumPrefix(ds, j)))
        invariant forall k :: 0 <= k < NumCelestialBodies && k != i ==> bodies[k] == pre[k]
      {
        if i != j {
          var dv := PairDelta(bodies[i].positionAndRadius, bodies[i].mass,
                              bodies[j].positionAndRadius, bodies[j].mass, dt, lm);
          assert dv == ds[j];
          AddAssociative(pre[i].velocity, SumPrefix(ds, j), dv);
          bodies[i] := bodies[i].(velocity := Add(bodies[i].velocity, dv));
        }
      }
      SumPrefixIsSum(ds, NumCelestialBodies);
      assert ds[..NumCelestialBodies] == ds;
      assert bodies[..] == pre[i := pre[i].(velocity := NewVelocity(pre, i, dt, lm))];
    }

    /** The position loop of simulation_update_physics. */
    method MoveBodies(dt: real)
      requires Valid()
      modifies bodies
      ensures Valid() && bodies[..] == Drift(old(bodies[..]), dt)
    {
      ghost var pre := bodies[..];
      for i := 0 to NumCelestialBodies
        invariant forall k :: 0 <= k < i ==> bodies[k] == Moved(pre[k], dt)
        invariant forall k :: i <= k < NumCelestialBodies ==> bodies[k] == pre[k]
      {
        bodies[i] := Moved(bodies[i], dt);
      }
      assert bodies[..] == Drift(pre, dt);
    }
  }

  /** The sum of the first n elements of vs, as the pair loop accumulates it. */
  function SumPrefix(vs: seq<Vec3>, n: int): Vec3
    requires 0 <= n <= |vs|
  {
    if n == 0 then Zero else Add(SumPrefix(vs, n - 1), vs[n - 1])
  }

  lemma {:induction false} SumPrefixIsSum(vs: seq<Vec3>, n: int)
    requires 0 <= n <= |vs|
    ensures SumPrefix(vs, n) == SumVec(vs[..n])
  {
    if n > 0 {
      SumPrefixIsSum(vs, n - 1);
      assert vs[..n][..n - 1] == vs[..n - 1];
    }
  }

  lemma AddAssociative(a: Vec3, b: Vec3, c: Vec3)
    ensures Add(Add(a, b), c) == Add(a, Add(b, c))
  {
  }

  // ---------------------------------------------------------------------------
  // Properties of the step
  // ---------------------------------------------------------------------------

  lemma {:induction false} SumVecZeros(vs: seq<Vec3>)
    requires forall k :: 0 <= k < |vs| ==> vs[k] == Zero
    ensures SumVec(vs) == Zero
  {
    if vs != [] {
      SumVecZeros(vs[..|vs| - 1]);
    }
  }

  /** A step of zero duration leaves every body unchanged. */
  lemma StepWithoutTime(bodies: seq<Body>, lm: Libm)
    requires AllWellFormed(bodies)
    ensures Step(bodies, 0.0, lm) == bodies
  {
    var kicked := Kick(bodies, 0.0, lm);
    forall k | 0 <= k < |bodies|
      ensures kicked[k] == bodies[k]
    {
      NoVelocityChangeWithoutTime(bodies, k, lm);
    }
    assert kicked == bodies;
    var drifted := Drift(bodies, 0.0);
    forall k | 0 <= k < |bodies|
      ensures drifted[k] == bodies[k]
    {
      var p := bodies[k].positionAndRadius;
      assert p == Vec4(p.x + bodies[k].velocity.x * 0.0, p.y + bodies[k].velocity.y * 0.0,
                       p.z + bodies[k].velocity.z * 0.0, p.w);
    }
  }

  lemma NoVelocityChangeWithoutTime(bodies: seq<Body>, k: int, lm: Libm)
    requires 0 <= k < |bodies| && AllWellFormed(bodies)
    ensures NewVelocity(bodies, k, 0.0, lm) == bodies[k].velocity
  {
    var ds := Deltas(bodies, k, 0.0, lm);
    assert forall j :: 0 <= j < |ds| ==> ds[j] == Zero;
    SumVecZeros(ds);
  }

  /** Taking the element at p out of the sum and adding it back last. */
  lemma {:induction false} SumVecRemove(vs: seq<Vec3>, p: int)
    requires 0 <= p < |vs|
    ensures SumVec(vs) == Add(SumVec(vs[..p] + vs[p + 1..]), vs[p])
  {
    var n := |vs|;
    if p == n - 1 {
      assert vs[..p] + vs[p + 1..] == vs[..n - 1];
    } else {
      var init := vs[..n - 1];
      SumVecRemove(init, p);
      var rest := vs[..p] + vs[p + 1..];
      assert rest[..|rest| - 1] == init[..p] + init[p + 1..];
      assert rest[|rest| - 1] == vs[n - 1];
    }
  }

  /** Summation does not depend on the order of the terms. */
  lemma {:induction false} SumVecPermutation(vs: seq<Vec3>, ws: seq<Vec3>)
    requires multiset(vs) == multiset(ws)
    ensures SumVec(vs) == SumVec(ws)
    decreases |vs|
  {
    if vs == [] {
      assert |ws| == |multiset(ws)| == 0;
    } else {
      var n := |vs|;
      assert vs == vs[..n - 1] + [vs[n - 1]];
      var p := MatchLast(vs, ws);
      SumVecPermutation(vs[..n - 1], ws[..p] + ws[p + 1..]);
      SumVecRemove(ws, p);
    }
  }

  /** In two sequences with the same elements, the last element of the first
      occurs in the second, and the rest of both still have the same elements. */
  lemma MatchLast<T>(vs: seq<T>, ws: seq<T>) returns (p: int)
    requires multiset(vs) == multiset(ws) && vs != []
    ensures 0 <= p < |ws| && ws[p] == vs[|vs| - 1]
    ensures multiset(vs[..|vs| - 1]) == multiset(ws[..p] + ws[p + 1..])
  {
    var n := |vs|;
    var last := vs[n - 1];
    assert last in multiset(vs);
    p :| 0 <= p < |ws| && ws[p] == last;
    MultisetWithout(vs, n - 1);
    assert vs[..n - 1] + vs[n..] == vs[..n - 1];
    MultisetWithout(ws, p);
    var m, rest := multiset(vs[..n - 1]), multiset(ws[..p] + ws[p + 1..]);
    assert m == m + multiset{last} - multiset{last};
    assert rest == rest + multiset{last} - multiset{last};
  }

  /** The elements of s are those of s without position p, plus s[p]. */
  lemma MultisetWithout<T>(s: seq<T>, p: int)
    requires 0 <= p < |s|
    ensures multiset(s) == multiset(s[..p] + s[p + 1..]) + multiset{s[p]}
  {
    assert s == s[..p] + [s[p]] + s[p + 1..];
  }

  /** Body i's new velocity is the same whatever order the pairs are visited in. */
  lemma PairOrderIrrelevant(bodies: seq<Body>, i: int, dt: real, lm: Libm, reordered: seq<Vec3>)
    requires 0 <= i < |bodies| && AllWellFormed(bodies)
    requires multiset(reordered) == multiset(Deltas(bodies, i, dt, lm))
    ensures Add(bodies[i].velocity, SumVec(reordered)) == NewVelocity(bodies, i, dt, lm)
  {
    SumVecPermutation(reordered, Deltas(bodies, i, dt, lm));
  }

  /** Body c mirrors body a through the origin. */
  predicate Mirrored(a: Body, c: Body)
  {
    && Position(c) == Scale(Position(a), -1.0)
    && c.velocity == Scale(a.velocity, -1.0)
    && c.mass == a.mass
  }

  lemma Opposite(p: real, q: real, d: real, a: real, t: real)
    requires d != 0.0
    ensures (p - q) / d * a * t == (q - p) / d * a * t * -1.0
  {
  }

  /** The distance between two bodies does not depend on which one is body i. */
  lemma DistanceSymmetric(pi: Vec4, pj: Vec4, lm: Libm)
    ensures Distance(lm, pj, pi) == Distance(lm, pi, pj)
  {
    DistanceUnfolds(pi, pj, lm);
    DistanceUnfolds(pj, pi, lm);
    assert (pi.x - pj.x) * (pi.x - pj.x) == (pj.x - pi.x) * (pj.x - pi.x);
    assert (pi.y - pj.y) * (pi.y - pj.y) == (pj.y - pi.y) * (pj.y - pi.y);
    assert (pi.z - pj.z) * (pi.z - pj.z) == (pj.z - pi.z) * (pj.z - pi.z);
  }

  /** Equal masses pull on each other with opposite velocity changes. */
  lemma EqualMassesPullOppositely(pa: Vec4, pc: Vec4, m: real, dt: real, lm: Libm)
    requires 0.0 <= pa.w && 0.0 <= pc.w && 0.0 < m
    ensures PairDelta(pc, m, pa, m, dt, lm) == Scale(PairDelta(pa, m, pc, m, dt, lm), -1.0)
  {
    var d := Distance(lm, pa, pc);
    DistanceSymmetric(pa, pc, lm);
    var u, w := PairDelta(pa, m, pc, m, dt, lm), PairDelta(pc, m, pa, m, dt, lm);
    if d > pa.w + pc.w {
      var acc := Acceleration(m, m, d);
      PairDeltaUnfolds(pa, m, pc, m, dt, lm);
      PairDeltaUnfolds(pc, m, pa, m, dt, lm);
      assert w.x == u.x * -1.0 by { Opposite(pa.x, pc.x, d, acc, dt); }
      assert w.y == u.y * -1.0 by { Opposite(pa.y, pc.y, d, acc, dt); }
      assert w.z == u.z * -1.0 by { Opposite(pa.z, pc.z, d, acc, dt); }
    } else {
      assert u == Zero && w == Zero;
    }
  }

  lemma SumVecPair(a: Vec3, b: Vec3)
    ensures SumVec([a, b]) == Add(a, b)
  {
    assert [a, b][..1] == [a];
    assert [a][..0] == [];
    assert SumVec([a]) == Add(Zero, a);
  }

  /** `n` successive steps. */
  function Simulate(bodies: seq<Body>, dt: real, lm: Libm, n: nat): (r: seq<Body>)
    requires AllWellFormed(bodies)
    ensures |r| == |bodies| && AllWellFormed(r)
    decreases n
  {
    if n == 0 then bodies else Simulate(Step(bodies, dt, lm), dt, lm, n - 1)
  }

  /** Mirrored bodies stay mirrored once moved. */
  lemma MirroredMove(a: Body, c: Body, dt: real)
    requires Mirrored(a, c)
    ensures Mirrored(Moved(a, dt), Moved(c, dt))
  {
    assert (a.velocity.x * -1.0) * dt == (a.velocity.x * dt) * -1.0;
    assert (a.velocity.y * -1.0) * dt == (a.velocity.y * dt) * -1.0;
    assert (a.velocity.z * -1.0) * dt == (a.velocity.z * dt) * -1.0;
    assert Position(Moved(c, dt)) == Scale(Position(Moved(a, dt)), -1.0);
  }

  /** In a mirrored pair the two new velocities are opposite. */
  lemma MirroredVelocities(bodies: seq<Body>, dt: real, lm: Libm)
    requires |bodies| == 2 && AllWellFormed(bodies) && Mirrored(bodies[0], bodies[1])
    ensures NewVelocity(bodies, 1, dt, lm) == Scale(NewVelocity(bodies, 0, dt, lm), -1.0)
  {
    var a, c := bodies[0], bodies[1];
    EqualMassesPullOppositely(a.positionAndRadius, c.positionAndRadius, a.mass, dt, lm);
    var d := PairDelta(a.positionAndRadius, a.mass, c.positionAndRadius, c.mass, dt, lm);
    assert Deltas(bodies, 0, dt, lm) == [Zero, d];
    assert Deltas(bodies, 1, dt, lm) == [Scale(d, -1.0), Zero];
    SumVecPair(Zero, d);
    SumVecPair(Scale(d, -1.0), Zero);
    assert SumVec(Deltas(bodies, 0, dt, lm)) == d;
    assert SumVec(Deltas(bodies, 1, dt, lm)) == Scale(d, -1.0);
    assert c.velocity == Scale(a.velocity, -1.0);
    AddScaled(a.velocity, d);
  }

  lemma AddScaled(u: Vec3, v: Vec3)
    ensures Add(Scale(u, -1.0), Scale(v, -1.0)) == Scale(Add(u, v), -1.0)
  {
  }

  /** One step keeps a mirrored pair mirrored. */
  lemma MirroredStep(bodies: seq<Body>, dt: real, lm: Libm)
    requires |bodies| == 2 && AllWellFormed(bodies) && Mirrored(bodies[0], bodies[1])
    ensures Mirrored(Step(bodies, dt, lm)[0], Step(bodies, dt, lm)[1])
  {
    MirroredVelocities(bodies, dt, lm);
    var kicked := Kick(bodies, dt, lm);
    assert Mirrored(kicked[0], kicked[1]);
    MirroredMove(kicked[0], kicked[1], dt);
    assert Step(bodies, dt, lm)[0] == Moved(kicked[0], dt);
    assert Step(bodies, dt, lm)[1] == Moved(kicked[1], dt);
  }

  /** Two bodies of equal mass and radius placed and moving symmetrically about
      the origin stay mirror-symmetric for any number of equal steps. */
  lemma {:induction false} MirrorSymmetryPreserved(bodies: seq<Body>, dt: real, lm: Libm, n: nat)
    requires |bodies| == 2 && AllWellFormed(bodies) && Mirrored(bodies[0], bodies[1])
    ensures Mirrored(Simulate(bodies, dt, lm, n)[0], Simulate(bodies, dt, lm, n)[1])
    decreases n
  {
    if n > 0 {
      MirroredStep(bodies, dt, lm);
      var next := Step(bodies, dt, lm);
      MirrorSymmetryPreserved(next, dt, lm, n - 1);
    }
  }
}
