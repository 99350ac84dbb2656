/** Vector and matrix utilities (src/math_utils.c), over real numbers.
    Single-precision floats are modelled as reals; the libm functions that the
    source calls (sqrtf, sinf, cosf, tanf) are supplied as a `Libm` value. */
module MathUtils {

  /** vector3_t */
  datatype Vec3 = Vec3(x: real, y: real, z: real)

  /** vector4_t */
  datatype Vec4 = Vec4(x: real, y: real, z: real, w: real)

  /** matrix4_t: 16 elements, column-major (element [c * 4 + r] is column c, row r). */
  type Mat4 = s: seq<real> | |s| == 16 witness seq(16, _ => 0.0)

  const Zero := Vec3(0.0, 0.0, 0.0)

  /** The floating-point library the source links against. Nothing is assumed of
      these functions by the operations; lemmas that need facts ask for `Sound`. */
  datatype Libm = Libm(sqrt: real -> real, sin: real -> real, cos: real -> real, tan: real -> real)

  /** The facts about libm that the properties below rely on. */
  ghost predicate Sound(lm: Libm)
  {
    && (forall v :: 0.0 <= v ==> 0.0 <= lm.sqrt(v) && lm.sqrt(v) * lm.sqrt(v) == v)
    && (forall t :: lm.sin(t) * lm.sin(t) + lm.cos(t) * lm.cos(t) == 1.0)
  }

  // ---------------------------------------------------------------------------
  // Scalars and 3-vectors
  // ---------------------------------------------------------------------------

  /** utility_clamp_float */
  function Clamp(value: real, lo: real, hi: real): (r: real)
    ensures lo <= hi ==> lo <= r <= hi
    ensures lo <= value <= hi ==> r == value
    ensures r == value || r == lo || r == hi
    ensures value < lo ==> r == lo
    ensures lo <= value && hi < value ==> r == hi
  {
    if value < lo then lo
    else if value > hi then hi
    else value
  }

  /** Clamping twice is clamping once. */
  lemma ClampIdempotent(value: real, lo: real, hi: real)
    requires lo <= hi
    ensures Clamp(Clamp(value, lo, hi), lo, hi) == Clamp(value, lo, hi)
  {
  }

  function Dot(a: Vec3, b: Vec3): real
  {
    a.x * b.x + a.y * b.y + a.z * b.z
  }

  /** The squared length, the argument that vector3_length passes to sqrtf. */
  function LengthSq(v: Vec3): (r: real)
    ensures 0.0 <= r
    ensures v == Zero ==> r == 0.0
  {
    Dot(v, v)
  }

  /** vector3_length */
  function Length(lm: Libm, v: Vec3): (r: real)
    ensures Sound(lm) ==> 0.0 <= r && r * r == LengthSq(v)
  {
    lm.sqrt(LengthSq(v))
  }

  /** vector3_add */
  function Add(a: Vec3, b: Vec3): (r: Vec3)
    ensures b == Zero ==> r == a
    ensures a == Zero ==> r == b
  {
    Vec3(a.x + b.x, a.y + b.y, a.z + b.z)
  }

  /** vector3_subtract: the inverse of adding `b`. */
  function Subtract(a: Vec3, b: Vec3): (r: Vec3)
    ensures Add(r, b) == a
    ensures a == b <==> r == Zero
  {
    Vec3(a.x - b.x, a.y - b.y, a.z - b.z)
  }

  /** vector3_scale */
  function Scale(v: Vec3, s: real): (r: Vec3)
    ensures s == 1.0 ==> r == v
    ensures s == 0.0 || v == Zero ==> r == Zero
  {
    Vec3(v.x * s, v.y * s, v.z * s)
  }

  /** Scaling by s scales the squared length by s * s. */
  lemma ScaleLengthSq(v: Vec3, s: real)
    ensures LengthSq(Scale(v, s)) == s * s * LengthSq(v)
  {
    calc {
      LengthSq(Scale(v, s));
      == v.x * s * (v.x * s) + v.y * s * (v.y * s) + v.z * s * (v.z * s);
      == s * s * (v.x * v.x + v.y * v.y + v.z * v.z);
    }
  }

  /** vector3_cross: orthogonal to both arguments, zero on equal arguments. */
  function Cross(a: Vec3, b: Vec3): (r: Vec3)
    ensures Dot(r, a) == 0.0 && Dot(r, b) == 0.0
    ensures a == b ==> r == Zero
  {
    Vec3(a.y * b.z - a.z * b.y,
         a.z * b.x - a.x * b.z,
         a.x * b.y - a.y * b.x)
  }

  /** Subtracting what was added gives back the original vector. */
  lemma AddThenSubtract(a: Vec3, b: Vec3)
    ensures Subtract(Add(a, b), b) == a
  {
  }

  /** The cross product is anti-commutative. */
  lemma CrossAntiCommutative(a: Vec3, b: Vec3)
    ensures Cross(a, b) == Scale(Cross(b, a), -1.0)
  {
  }

  /** vector3_normalize: the zero vector when the computed length is not
      positive, otherwise a vector of unit length (given a sound sqrt). */
  function Normalize(lm: Libm, v: Vec3): (r: Vec3)
    ensures Length(lm, v) <= 0.0 ==> r == Zero
    ensures 0.0 < Length(lm, v) ==> r == Scale(v, 1.0 / Length(lm, v))
  {
    var len := Length(lm, v);
    if len > 0.0 then Vec3(v.x / len, v.y / len, v.z / len) else Zero
  }

  /** With a sound sqrt: normalizing the zero vector gives the zero vector,
      and whenever the computed length is positive the result has unit length. */
  lemma NormalizeUnit(lm: Libm, v: Vec3)
    requires Sound(lm)
    ensures v == Zero ==> Normalize(lm, v) == Zero
    ensures 0.0 < Length(lm, v) ==> LengthSq(Normalize(lm, v)) == 1.0
  {
    var l2 := LengthSq(v);
    var len := lm.sqrt(l2);
    assert len * len == l2;
    if 0.0 < len {
      var inv := 1.0 / len;
      assert inv * inv * l2 == 1.0 by {
        calc {
          inv * inv * l2;
          == inv * inv * (len * len);
          == (inv * len) * (inv * len);
          == { assert inv * len == 1.0; } 1.0;
        }
      }
      ScaleLengthSq(v, inv);
    }
  }

  /** Orthogonality survives scaling: used for the camera basis of look-at. */
  lemma ScaleKeepsOrthogonal(a: Vec3, b: Vec3, s: real)
    requires Dot(a, b) == 0.0
    ensures Dot(Scale(a, s), b) == 0.0
  {
    calc {
      Dot(Scale(a, s), b);
      == s * a.x * b.x + s * a.y * b.y + s * a.z * b.z;
      == s * (a.x * b.x + a.y * b.y + a.z * b.z);
      == s * Dot(a, b);
    }
  }

  // ---------------------------------------------------------------------------
  // 4x4 matrices
  // ---------------------------------------------------------------------------

  function IdentityMatrix(): Mat4
  {
    seq(16, i => if i == 0 || i == 5 || i == 10 || i == 15 then 1.0 else 0.0)
  }

  /** matrix4_identity */
  method Identity() returns (m: Mat4)
    ensures m == IdentityMatrix()
    ensures m[0] == 1.0 && m[5] == 1.0 && m[10] == 1.0 && m[15] == 1.0
    ensures forall i :: 0 <= i < 16 && i != 0 && i != 5 && i != 10 && i != 15 ==> m[i] == 0.0
  {
    m := seq(16, _ => 0.0);
    m := m[0 := 1.0][5 := 1.0][10 := 1.0][15 := 1.0];
  }

  /** Element [c * 4 + r] of the product: row r of `a` times column c of `b`. */
  function Entry(a: Mat4, b: Mat4, c: int, r: int): real
    requires 0 <= c < 4 && 0 <= r < 4
  {
    a[0 * 4 + r] * b[c * 4 + 0] + a[1 * 4 + r] * b[c * 4 + 1]
      + a[2 * 4 + r] * b[c * 4 + 2] + a[3 * 4 + r] * b[c * 4 + 3]
  }

  /** The column-major matrix product a * b. */
  function Product(a: Mat4, b: Mat4): Mat4
  {
    seq(16, i requires 0 <= i < 16 => Entry(a, b, i / 4, i % 4))
  }

  /** The running sum of the innermost loop of matrix4_multiply after k terms. */
  function PartialEntry(a: Mat4, b: Mat4, c: int, r: int, k: int): real
    requires 0 <= c < 4 && 0 <= r < 4 && 0 <= k <= 4
    decreases k
  {
    if k == 0 then 0.0 else PartialEntry(a, b, c, r, k - 1) + a[(k - 1) * 4 + r] * b[c * 4 + (k - 1)]
  }

  /** One more term of the running sum. */
  lemma PartialEntryStep(a: Mat4, b: Mat4, c: int, r: int, k: int)
    requires 0 <= c < 4 && 0 <= r < 4 && 0 <= k < 4
    ensures PartialEntry(a, b, c, r, k + 1) == PartialEntry(a, b, c, r, k) + a[k * 4 + r] * b[c * 4 + k]
  {
    assert (k + 1 - 1) * 4 + r == k * 4 + r && c * 4 + (k + 1 - 1) == c * 4 + k;
  }

  /** The running sum after all four terms is the product's entry. */
  lemma PartialEntryComplete(a: Mat4, b: Mat4, c: int, r: int)
    requires 0 <= c < 4 && 0 <= r < 4
    ensures PartialEntry(a, b, c, r, 4) == Entry(a, b, c, r)
  {
    assert PartialEntry(a, b, c, r, 1) == a[0 * 4 + r] * b[c * 4 + 0];
    assert PartialEntry(a, b, c, r, 3) == PartialEntry(a, b, c, r, 2) + a[2 * 4 + r] * b[c * 4 + 2];
  }

  /** Element c * 4 + r of the product is Entry(a, b, c, r). */
  lemma ProductAt(a: Mat4, b: Mat4, c: int, r: int)
    requires 0 <= c < 4 && 0 <= r < 4
    ensures 0 <= c * 4 + r < 16 && Product(a, b)[c * 4 + r] == Entry(a, b, c, r)
  {
    assert (c * 4 + r) / 4 == c && (c * 4 + r) % 4 == r;
  }

  /** matrix4_multiply */
  method Multiply(a: Mat4, b: Mat4) returns (m: Mat4)
    ensures m == Product(a, b)
  {
    ghost var p := Product(a, b);
    m := seq(16, _ => 0.0);
    for c := 0 to 4
      invariant |m| == 16
      invariant forall i :: 0 <= i < c * 4 ==> m[i] == p[i]
    {
      for r := 0 to 4
        invariant |m| == 16
        invariant forall i :: 0 <= i < c * 4 + r ==> m[i] == p[i]
      {
        var sum := EntrySum(a, b, c, r);
        ProductAt(a, b, c, r);
        m := m[c * 4 + r := sum];
      }
    }
  }

  /** The innermost loop of matrix4_multiply: the sum over k for row r and column c. */
  method EntrySum(a: Mat4, b: Mat4, c: int, r: int) returns (sum: real)
    requires 0 <= c < 4 && 0 <= r < 4
    ensures sum == Entry(a, b, c, r)
  {
    sum := 0.0;
    for k := 0 to 4
      invariant sum == PartialEntry(a, b, c, r, k)
    {
      PartialEntryStep(a, b, c, r, k);
      sum := sum + a[k * 4 + r] * b[c * 4 + k];
    }
    PartialEntryComplete(a, b, c, r);
  }

  /** The identity is a left and a right unit of the product. */
  lemma ProductIdentity(b: Mat4)
    ensures Product(IdentityMatrix(), b) == b
    ensures Product(b, IdentityMatrix()) == b
  {
    var id := IdentityMatrix();
    forall i | 0 <= i < 16
      ensures Product(id, b)[i] == b[i] && Product(b, id)[i] == b[i]
    {
      var c, r := i / 4, i % 4;
      assert i == c * 4 + r;
      ProductAt(id, b, c, r);
      ProductAt(b, id, c, r);
      IdentityEntry(b, c, r);
    }
  }

  /** Each entry of a product with the identity is the other factor's entry. */
  lemma IdentityEntry(b: Mat4, c: int, r: int)
    requires 0 <= c < 4 && 0 <= r < 4
    ensures Entry(IdentityMatrix(), b, c, r) == b[c * 4 + r]
    ensures Entry(b, IdentityMatrix(), c, r) == b[c * 4 + r]
  {
    var id := IdentityMatrix();
    assert id[c * 4 + 0] == (if c == 0 then 1.0 else 0.0);
    assert id[c * 4 + 1] == (if c == 1 then 1.0 else 0.0);
    assert id[c * 4 + 2] == (if c == 2 then 1.0 else 0.0);
    assert id[c * 4 + 3] == (if c == 3 then 1.0 else 0.0);
    if r == 0 {
      assert id[0] == 1.0 && id[4] == 0.0 && id[8] == 0.0 && id[12] == 0.0;
    } else if r == 1 {
      assert id[1] == 0.0 && id[5] == 1.0 && id[9] == 0.0 && id[13] == 0.0;
    } else if r == 2 {
      assert id[2] == 0.0 && id[6] == 0.0 && id[10] == 1.0 && id[14] == 0.0;
    } else {
      assert id[3] == 0.0 && id[7] == 0.0 && id[11] == 0.0 && id[15] == 1.0;
    }
  }

  /** The point p (with w = 1) transformed by m. */
  function TransformPoint(m: Mat4, p: Vec3): Vec4
  {
    Vec4(m[0] * p.x + m[4] * p.y + m[8] * p.z + m[12],
         m[1] * p.x + m[5] * p.y + m[9] * p.z + m[13],
         m[2] * p.x + m[6] * p.y + m[10] * p.z + m[14],
         m[3] * p.x + m[7] * p.y + m[11] * p.z + m[15])
  }

  /** matrix4_perspective. The divisions of the source need non-zero
      denominators here (the source would produce infinities). */
  method Perspective(lm: Libm, fovy: real, aspect: real, zNear: real, zFar: real) returns (m: Mat4)
    requires aspect * lm.tan(fovy / 2.0) != 0.0
    requires zFar != zNear
    ensures forall i :: 0 <= i < 16 && i != 0 && i != 5 && i != 10 && i != 11 && i != 14 ==> m[i] == 0.0
    ensures m[11] == -1.0
    ensures m[0] * aspect == m[5]
    // a view-space point on the near plane lands at depth -1 after the division by w, one on the far plane at +1
    ensures TransformPoint(m, Vec3(0.0, 0.0, -zNear)) == Vec4(0.0, 0.0, -zNear, zNear)
    ensures TransformPoint(m, Vec3(0.0, 0.0, -zFar)) == Vec4(0.0, 0.0, zFar, zFar)
  {
    m := seq(16, _ => 0.0);
    var tanHalfFovy := lm.tan(fovy / 2.0);
    m := m[0 := 1.0 / (aspect * tanHalfFovy)];
    m := m[5 := 1.0 / tanHalfFovy];
    m := m[10 := -(zFar + zNear) / (zFar - zNear)];
    m := m[11 := -1.0];
    m := m[14 := -(2.0 * zFar * zNear) / (zFar - zNear)];
    PerspectiveDepth(zNear, zFar);
    assert m[0] * aspect == m[5] by {
      assert tanHalfFovy != 0.0;
      calc {
        m[0] * aspect;
        == aspect / (aspect * tanHalfFovy);
        == 1.0 / tanHalfFovy;
      }
    }
  }

  lemma PerspectiveDepth(n: real, f: real)
    requires f != n
    ensures (-(f + n) / (f - n)) * -n + (-(2.0 * f * n) / (f - n)) == -n
    ensures (-(f + n) / (f - n)) * -f + (-(2.0 * f * n) / (f - n)) == f
  {
    var d := f - n;
    assert (-(f + n) / d) * -n + (-(2.0 * f * n) / d) == (n * (f + n) - 2.0 * f * n) / d;
    assert n * (f + n) - 2.0 * f * n == -n * d;
    assert (-(f + n) / d) * -f + (-(2.0 * f * n) / d) == (f * (f + n) - 2.0 * f * n) / d;
    assert f * (f + n) - 2.0 * f * n == f * d;
  }

  /** The view matrix with rotation rows s, u, -f and the eye moved to the origin. */
  function ViewMatrix(s: Vec3, u: Vec3, f: Vec3, eye: Vec3): Mat4
  {
    [s.x, u.x, -f.x, 0.0,
     s.y, u.y, -f.y, 0.0,
     s.z, u.z, -f.z, 0.0,
     -Dot(s, eye), -Dot(u, eye), Dot(f, eye), 1.0]
  }

  /** Overwriting the identity element by element as matrix4_look_at does gives the view matrix. */
  lemma AssembledView(s: Vec3, u: Vec3, f: Vec3, eye: Vec3)
    ensures IdentityMatrix()[0 := s.x][4 := s.y][8 := s.z]
                            [1 := u.x][5 := u.y][9 := u.z]
                            [2 := -f.x][6 := -f.y][10 := -f.z]
                            [12 := -(s.x * eye.x + s.y * eye.y + s.z * eye.z)]
                            [13 := -(u.x * eye.x + u.y * eye.y + u.z * eye.z)]
                            [14 := f.x * eye.x + f.y * eye.y + f.z * eye.z]
            == ViewMatrix(s, u, f, eye)
  {
    var m := IdentityMatrix()[0 := s.x][4 := s.y][8 := s.z]
                             [1 := u.x][5 := u.y][9 := u.z]
                             [2 := -f.x][6 := -f.y][10 := -f.z]
                             [12 := -(s.x * eye.x + s.y * eye.y + s.z * eye.z)]
                             [13 := -(u.x * eye.x + u.y * eye.y + u.z * eye.z)]
                             [14 := f.x * eye.x + f.y * eye.y + f.z * eye.z];
    var v := ViewMatrix(s, u, f, eye);
    assert m[3] == 0.0 && m[7] == 0.0 && m[11] == 0.0 && m[15] == 1.0;
    forall i | 0 <= i < 16
      ensures m[i] == v[i]
    {
    }
  }

  /** The view matrix sends the eye to the origin. */
  lemma ViewMatrixMovesEye(s: Vec3, u: Vec3, f: Vec3, eye: Vec3)
    ensures TransformPoint(ViewMatrix(s, u, f, eye), eye) == Vec4(0.0, 0.0, 0.0, 1.0)
  {
    var m := ViewMatrix(s, u, f, eye);
    assert m[0] * eye.x + m[4] * eye.y + m[8] * eye.z + m[12] == Dot(s, eye) - Dot(s, eye);
    assert m[1] * eye.x + m[5] * eye.y + m[9] * eye.z + m[13] == Dot(u, eye) - Dot(u, eye);
    assert m[2] * eye.x + m[6] * eye.y + m[10] * eye.z + m[14] == Dot(f, eye) - Dot(f, eye);
  }

  /** The rotation part of the view matrix keeps orthogonal axes orthogonal. */
  lemma ViewMatrixShape(s: Vec3, u: Vec3, f: Vec3, eye: Vec3)
    requires Dot(s, f) == 0.0 && Dot(u, s) == 0.0 && Dot(u, f) == 0.0
    ensures var m := ViewMatrix(s, u, f, eye);
      && TransformPoint(m, eye) == Vec4(0.0, 0.0, 0.0, 1.0)
      && Dot(Vec3(m[0], m[4], m[8]), Vec3(m[1], m[5], m[9])) == 0.0
      && Dot(Vec3(m[0], m[4], m[8]), Vec3(m[2], m[6], m[10])) == 0.0
      && Dot(Vec3(m[1], m[5], m[9]), Vec3(m[2], m[6], m[10])) == 0.0
      && Vec3(m[2], m[6], m[10]) == Scale(f, -1.0)
      && m[3] == 0.0 && m[7] == 0.0 && m[11] == 0.0 && m[15] == 1.0
  {
    ViewMatrixMovesEye(s, u, f, eye);
    var m := ViewMatrix(s, u, f, eye);
    assert Vec3(m[0], m[4], m[8]) == s;
    assert Vec3(m[1], m[5], m[9]) == u;
    assert Vec3(m[2], m[6], m[10]) == Scale(f, -1.0);
    ScaleKeepsOrthogonal(f, s, -1.0);
    ScaleKeepsOrthogonal(f, u, -1.0);
  }

  /** matrix4_look_at: rows of the rotation part are s, u and -f, which are
      mutually orthogonal whatever sqrt returns; the last row stays (0, 0, 0, 1)
      and the eye is mapped to the origin. */
  method LookAt(lm: Libm, eye: Vec3, center: Vec3, up: Vec3) returns (m: Mat4)
    ensures m[3] == 0.0 && m[7] == 0.0 && m[11] == 0.0 && m[15] == 1.0
    ensures TransformPoint(m, eye) == Vec4(0.0, 0.0, 0.0, 1.0)
    ensures Dot(Vec3(m[0], m[4], m[8]), Vec3(m[1], m[5], m[9])) == 0.0
    ensures Dot(Vec3(m[0], m[4], m[8]), Vec3(m[2], m[6], m[10])) == 0.0
    ensures Dot(Vec3(m[1], m[5], m[9]), Vec3(m[2], m[6], m[10])) == 0.0
    ensures Vec3(m[2], m[6], m[10]) == Scale(Normalize(lm, Subtract(center, eye)), -1.0)
  {
    var f := Normalize(lm, Subtract(center, eye));
    var s := Normalize(lm, Cross(f, up));
    var u := Cross(s, f);
    m := Identity();
    m := m[0 := s.x][4 := s.y][8 := s.z];
    m := m[1 := u.x][5 := u.y][9 := u.z];
    m := m[2 := -f.x][6 := -f.y][10 := -f.z];
    m := m[12 := -(s.x * eye.x + s.y * eye.y + s.z * eye.z)];
    m := m[13 := -(u.x * eye.x + u.y * eye.y + u.z * eye.z)];
    m := m[14 := f.x * eye.x + f.y * eye.y + f.z * eye.z];
    AssembledView(s, u, f, eye);
    ViewBasisOrthogonal(lm, f, up);
    ViewMatrixShape(s, u, f, eye);
  }

  /** The side axis normalize(f x up) and the up axis s x f of matrix4_look_at
      are orthogonal to each other and to f. */
  lemma ViewBasisOrthogonal(lm: Libm, f: Vec3, up: Vec3)
    ensures var s := Normalize(lm, Cross(f, up));
      Dot(s, f) == 0.0 && Dot(Cross(s, f), s) == 0.0 && Dot(Cross(s, f), f) == 0.0
  {
    var c := Cross(f, up);
    if Length(lm, c) > 0.0 {
      ScaleKeepsOrthogonal(c, f, 1.0 / Length(lm, c));
    }
  }
}
