/**
 * Rotations of 3-space, kept as quaternions in the (x, y, z, w) component
 * order the persisted format uses. Any nonzero quaternion denotes a rotation,
 * applied as the sandwich product q v q* divided by |q|^2; that form needs no
 * square root, so a quaternion need not be normalised to be used.
 *
 * A rotation about the z axis by an angle theta is the quaternion
 * (0, 0, sin(theta/2), cos(theta/2)); an angle is therefore given here by the
 * cosine and sine of its half (type ZAngle), which keeps trigonometry out.
 */
module Rotations {
  import opened Vectors

  datatype Quat = Quat(x: real, y: real, z: real, w: real)

  /** Squared norm of a quaternion. */
  function QNorm2(q: Quat): real {
    q.x * q.x + q.y * q.y + q.z * q.z + q.w * q.w
  }

  type Rotation = q: Quat | QNorm2(q) > 0.0 witness Quat(0.0, 0.0, 0.0, 1.0)

  const Identity: Rotation := Quat(0.0, 0.0, 0.0, 1.0)

  function VectorPart(q: Quat): Vec3 {
    Vec3(q.x, q.y, q.z)
  }

  function Negate(q: Quat): Quat {
    Quat(-q.x, -q.y, -q.z, -q.w)
  }

  /** a v + b u + c (u x v): every vector a rotation about axis u makes of v has this shape. */
  function Comb(a: real, b: real, c: real, u: Vec3, v: Vec3): Vec3 {
    Add(Add(Scale(a, v), Scale(b, u)), Scale(c, Cross(u, v)))
  }

  /** The Hamilton product of two quaternions. */
  function HMul(p: Quat, q: Quat): Quat {
    Quat(p.w * q.x + q.w * p.x + (p.y * q.z - p.z * q.y),
         p.w * q.y + q.w * p.y + (p.z * q.x - p.x * q.z),
         p.w * q.z + q.w * p.z + (p.x * q.y - p.y * q.x),
         p.w * q.w - (p.x * q.x + p.y * q.y + p.z * q.z))
  }

  /** The conjugate quaternion. */
  function Conj(q: Quat): Quat {
    Quat(-q.x, -q.y, -q.z, q.w)
  }

  /** A vector as a quaternion with zero scalar part. */
  function Pure(v: Vec3): Quat {
    Quat(v.x, v.y, v.z, 0.0)
  }

  /** The vector part of the sandwich product q v q*. */
  function Sandwich(q: Quat, v: Vec3): Vec3 {
    VectorPart(HMul(HMul(q, Pure(v)), Conj(q)))
  }

  /**
   * Rotates v by r: the sandwich product r v r* over |r|^2 (ApplyIsSandwich),
   * computed in Rodrigues' form ((w^2 - |u|^2) v + 2 (u . v) u + 2 w (u x v)) / |r|^2,
   * where u is the vector part and w the scalar part of r.
   */
  function Apply(r: Rotation, v: Vec3): Vec3 {
    var u, k := VectorPart(r), 1.0 / QNorm2(r);
    Comb(k * (r.w * r.w - Dot(u, u)), k * (2.0 * Dot(u, v)), k * (2.0 * r.w), u, v)
  }

  /** The inverse rotation: the conjugate, whose product with r is the real |r|^2. */
  function Inv(r: Rotation): (ri: Rotation)
    ensures QNorm2(ri) == QNorm2(r)
    ensures HMul(r, ri) == Quat(0.0, 0.0, 0.0, QNorm2(r)) && HMul(ri, r) == Quat(0.0, 0.0, 0.0, QNorm2(r))
  {
    Conj(r)
  }

  /** Two rotations are the same when they move every vector alike. */
  ghost predicate SameRotation(r: Rotation, s: Rotation) {
    forall v :: Apply(r, v) == Apply(s, v)
  }

  // ---------------------------------------------------------------------------
  // Algebra of the combinations a v + b u + c (u x v)
  // ---------------------------------------------------------------------------

  lemma CombAdd(a1: real, b1: real, c1: real, a2: real, b2: real, c2: real, u: Vec3, v: Vec3)
    ensures Add(Comb(a1, b1, c1, u, v), Comb(a2, b2, c2, u, v)) == Comb(a1 + a2, b1 + b2, c1 + c2, u, v)
  {
  }

  lemma CombScale(k: real, a: real, b: real, c: real, u: Vec3, v: Vec3)
    ensures Scale(k, Comb(a, b, c, u, v)) == Comb(k * a, k * b, k * c, u, v)
  {
  }

  lemma DotComb(a: real, b: real, c: real, u: Vec3, v: Vec3, n: real, d: real)
    requires n == Dot(u, u) && d == Dot(u, v)
    ensures Dot(u, Comb(a, b, c, u, v)) == a * d + b * n
  {
    var w, s := Cross(u, v), Comb(a, b, c, u, v);
    DotCross(u, v);
    DotCombAt(a, b, c, u.x, u.y, u.z, v.x, v.y, v.z, w.x, w.y, w.z, s.x, s.y, s.z, n, d);
  }

  /** DotComb on reals. */
  lemma DotCombAt(a: real, b: real, c: real, u1: real, u2: real, u3: real, v1: real, v2: real, v3: real,
                  w1: real, w2: real, w3: real, s1: real, s2: real, s3: real, n: real, d: real)
    requires s1 == (a * v1 + b * u1) + c * w1
    requires s2 == (a * v2 + b * u2) + c * w2
    requires s3 == (a * v3 + b * u3) + c * w3
    requires u1 * w1 + u2 * w2 + u3 * w3 == 0.0
    requires n == u1 * u1 + u2 * u2 + u3 * u3 && d == u1 * v1 + u2 * v2 + u3 * v3
    ensures u1 * s1 + u2 * s2 + u3 * s3 == a * d + b * n
  {
  }

  /** The three components of Cross(u, Comb(a, b, c, u, v)), from one identity on reals. */
  lemma CrossCombAt(a: real, b: real, c: real, n: real, d: real, A: real, B: real, C: real,
                    u1: real, u2: real, u3: real, v1: real, v2: real, v3: real,
                    w1: real, w2: real, w3: real, s2: real, s3: real)
    requires n == u1 * u1 + u2 * u2 + u3 * u3 && d == u1 * v1 + u2 * v2 + u3 * v3
    requires A == -c * n && B == c * d && C == a
    requires w1 == u2 * v3 - u3 * v2 && w2 == u3 * v1 - u1 * v3 && w3 == u1 * v2 - u2 * v1
    requires s2 == (a * v2 + b * u2) + c * w2 && s3 == (a * v3 + b * u3) + c * w3
    ensures u2 * s3 - u3 * s2 == (A * v1 + B * u1) + C * w1
  {
  }

  /** The components of a combination. */
  lemma CombComponents(a: real, b: real, c: real, u: Vec3, v: Vec3)
    ensures Comb(a, b, c, u, v).x == (a * v.x + b * u.x) + c * Cross(u, v).x
    ensures Comb(a, b, c, u, v).y == (a * v.y + b * u.y) + c * Cross(u, v).y
    ensures Comb(a, b, c, u, v).z == (a * v.z + b * u.z) + c * Cross(u, v).z
  {
  }

  lemma CrossCombX(a: real, b: real, c: real, u: Vec3, v: Vec3, n: real, d: real)
    requires n == Dot(u, u) && d == Dot(u, v)
    ensures Cross(u, Comb(a, b, c, u, v)).x == Comb(-c * n, c * d, a, u, v).x
  {
    var w, s := Cross(u, v), Comb(a, b, c, u, v);
    var A, B, C := -c * n, c * d, a;
    CrossCombAt(a, b, c, n, d, A, B, C, u.x, u.y, u.z, v.x, v.y, v.z, w.x, w.y, w.z, s.y, s.z);
    CombComponents(A, B, C, u, v);
  }

  lemma CrossCombY(a: real, b: real, c: real, u: Vec3, v: Vec3, n: real, d: real)
    requires n == Dot(u, u) && d == Dot(u, v)
    ensures Cross(u, Comb(a, b, c, u, v)).y == Comb(-c * n, c * d, a, u, v).y
  {
    var w, s := Cross(u, v), Comb(a, b, c, u, v);
    var A, B, C := -c * n, c * d, a;
    CrossCombAt(a, b, c, n, d, A, B, C, u.y, u.z, u.x, v.y, v.z, v.x, w.y, w.z, w.x, s.z, s.x);
    CombComponents(A, B, C, u, v);
  }

  lemma CrossCombZ(a: real, b: real, c: real, u: Vec3, v: Vec3, n: real, d: real)
    requires n == Dot(u, u) && d == Dot(u, v)
    ensures Cross(u, Comb(a, b, c, u, v)).z == Comb(-c * n, c * d, a, u, v).z
  {
    var w, s := Cross(u, v), Comb(a, b, c, u, v);
    var A, B, C := -c * n, c * d, a;
    CrossCombAt(a, b, c, n, d, A, B, C, u.z, u.x, u.y, v.z, v.x, v.y, w.z, w.x, w.y, s.x, s.y);
    CombComponents(A, B, C, u, v);
  }

  lemma CrossComb(a: real, b: real, c: real, u: Vec3, v: Vec3, n: real, d: real)
    requires n == Dot(u, u) && d == Dot(u, v)
    ensures Cross(u, Comb(a, b, c, u, v)) == Comb(-c * n, c * d, a, u, v)
  {
    var lhs, rhs := Cross(u, Comb(a, b, c, u, v)), Comb(-c * n, c * d, a, u, v);
    CrossCombX(a, b, c, u, v, n, d);
    CrossCombY(a, b, c, u, v, n, d);
    CrossCombZ(a, b, c, u, v, n, d);
    assert lhs.x == rhs.x && lhs.y == rhs.y && lhs.z == rhs.z;
  }

  lemma CombAxis(b: real, u: Vec3, v: Vec3)
    ensures Comb(0.0, b, 0.0, u, v) == Scale(b, u)
  {
  }

  /** Combinations compose: a combination of a combination is again one. */
  lemma CombComb(a: real, b: real, c: real, a': real, b': real, c': real, u: Vec3, v: Vec3, n: real, d: real)
    requires n == Dot(u, u) && d == Dot(u, v)
    ensures Comb(a, b, c, u, Comb(a', b', c', u, v))
         == Comb(a * a' - c * c' * n, a * b' + b + c * c' * d, a * c' + c * a', u, v)
  {
    var s := Comb(a', b', c', u, v);
    var a1, b1, c1 := a * a', a * b', a * c';
    var a2, b2, c2 := -c' * n, c' * d, a';
    var a3, b3, c3 := c * a2, c * b2, c * c2;
    CombScale(a, a', b', c', u, v);
    var p1 := Scale(a, s);
    assert p1 == Comb(a1, b1, c1, u, v);
    CombAxis(b, u, v);
    var p2 := Scale(b, u);
    assert p2 == Comb(0.0, b, 0.0, u, v);
    CombAdd(a1, b1, c1, 0.0, b, 0.0, u, v);
    var p12 := Add(p1, p2);
    assert p12 == Comb(a1 + 0.0, b1 + b, c1 + 0.0, u, v);
    CrossComb(a', b', c', u, v, n, d);
    var cr := Cross(u, s);
    assert cr == Comb(a2, b2, c2, u, v);
    CombScale(c, a2, b2, c2, u, v);
    var p3 := Scale(c, cr);
    assert p3 == Comb(a3, b3, c3, u, v);
    CombAdd(a1 + 0.0, b1 + b, c1 + 0.0, a3, b3, c3, u, v);
    assert Comb(a, b, c, u, s) == Add(p12, p3);
    assert Add(p12, p3) == Comb(a1 + 0.0 + a3, b1 + b + b3, c1 + 0.0 + c3, u, v);
    CombCombAt(a, b, c, a', b', c', n, d, a1, b1, c1, a2, b2, c2, a3, b3, c3);
    CombCoefficients(a1 + 0.0 + a3, b1 + b + b3, c1 + 0.0 + c3,
                     a * a' - c * c' * n, a * b' + b + c * c' * d, a * c' + c * a', u, v);
  }

  /** The coefficient bookkeeping of CombComb, on reals. */
  lemma CombCombAt(a: real, b: real, c: real, a': real, b': real, c': real, n: real, d: real,
                   a1: real, b1: real, c1: real, a2: real, b2: real, c2: real, a3: real, b3: real, c3: real)
    requires a1 == a * a' && b1 == a * b' && c1 == a * c'
    requires a2 == -c' * n && b2 == c' * d && c2 == a'
    requires a3 == c * a2 && b3 == c * b2 && c3 == c * c2
    ensures a1 + 0.0 + a3 == a * a' - c * c' * n
    ensures b1 + b + b3 == a * b' + b + c * c' * d
    ensures c1 + 0.0 + c3 == a * c' + c * a'
  {
  }

  /** The squared length of a combination, from one identity on reals. */
  lemma NormCombAt(a: real, b: real, c: real, u1: real, u2: real, u3: real, v1: real, v2: real, v3: real,
                   w1: real, w2: real, w3: real, s1: real, s2: real, s3: real,
                   nu: real, nv: real, nw: real, d: real)
    requires s1 == (a * v1 + b * u1) + c * w1
    requires s2 == (a * v2 + b * u2) + c * w2
    requires s3 == (a * v3 + b * u3) + c * w3
    requires u1 * w1 + u2 * w2 + u3 * w3 == 0.0 && v1 * w1 + v2 * w2 + v3 * w3 == 0.0
    requires nu == u1 * u1 + u2 * u2 + u3 * u3 && nv == v1 * v1 + v2 * v2 + v3 * v3
    requires nw == w1 * w1 + w2 * w2 + w3 * w3 && d == u1 * v1 + u2 * v2 + u3 * v3
    ensures s1 * s1 + s2 * s2 + s3 * s3 == a * a * nv + b * b * nu + c * c * nw + 2.0 * a * b * d
  {
  }

  lemma NormComb(a: real, b: real, c: real, u: Vec3, v: Vec3, nu: real, nv: real, nw: real, d: real)
    requires nu == Norm2(u) && nv == Norm2(v) && nw == Norm2(Cross(u, v)) && d == Dot(u, v)
    ensures Norm2(Comb(a, b, c, u, v)) == a * a * nv + b * b * nu + c * c * nw + 2.0 * a * b * d
  {
    var w, s := Cross(u, v), Comb(a, b, c, u, v);
    DotCross(u, v);
    assert Dot(v, w) == 0.0;
    NormCombAt(a, b, c, u.x, u.y, u.z, v.x, v.y, v.z, w.x, w.y, w.z, s.x, s.y, s.z, nu, nv, nw, d);
  }

  /** Negating the axis of a combination negates the last two coefficients. */
  lemma CombNeg(a: real, b: real, c: real, u: Vec3, v: Vec3)
    ensures Comb(a, b, c, Neg(u), v) == Comb(a, -b, -c, u, v)
  {
  }

  /** Equal coefficients give equal combinations. */
  lemma CombCoefficients(a: real, b: real, c: real, a': real, b': real, c': real, u: Vec3, v: Vec3)
    requires a == a' && b == b' && c == c'
    ensures Comb(a, b, c, u, v) == Comb(a', b', c', u, v)
  {
  }

  lemma CombOne(u: Vec3, v: Vec3)
    ensures Comb(1.0, 0.0, 0.0, u, v) == v
  {
  }

  /** The sandwich product of a pure quaternion, expanded: Rodrigues' combination without the division. */
  lemma SandwichComb(q: Quat, v: Vec3, n: real, d: real)
    requires n == Dot(VectorPart(q), VectorPart(q)) && d == Dot(VectorPart(q), v)
    ensures Sandwich(q, v) == Comb(q.w * q.w - n, 2.0 * d, 2.0 * q.w, VectorPart(q), v)
  {
    SandwichX(q, v, n, d);
    SandwichY(q, v, n, d);
    SandwichZ(q, v, n, d);
    CombComponents(q.w * q.w - n, 2.0 * d, 2.0 * q.w, VectorPart(q), v);
  }

  lemma SandwichX(q: Quat, v: Vec3, n: real, d: real)
    requires n == Dot(VectorPart(q), VectorPart(q)) && d == Dot(VectorPart(q), v)
    ensures Sandwich(q, v).x == ((q.w * q.w - n) * v.x + 2.0 * d * q.x) + 2.0 * q.w * Cross(VectorPart(q), v).x
  {
    var t := HMul(q, Pure(v));
    SandwichAt(q.x, q.y, q.z, q.w, v.x, v.y, v.z, n, d, t.x, t.y, t.z, t.w, Sandwich(q, v).x);
  }

  lemma SandwichY(q: Quat, v: Vec3, n: real, d: real)
    requires n == Dot(VectorPart(q), VectorPart(q)) && d == Dot(VectorPart(q), v)
    ensures Sandwich(q, v).y == ((q.w * q.w - n) * v.y + 2.0 * d * q.y) + 2.0 * q.w * Cross(VectorPart(q), v).y
  {
    var t := HMul(q, Pure(v));
    SandwichAt(q.y, q.z, q.x, q.w, v.y, v.z, v.x, n, d, t.y, t.z, t.x, t.w, Sandwich(q, v).y);
  }

  lemma SandwichZ(q: Quat, v: Vec3, n: real, d: real)
    requires n == Dot(VectorPart(q), VectorPart(q)) && d == Dot(VectorPart(q), v)
    ensures Sandwich(q, v).z == ((q.w * q.w - n) * v.z + 2.0 * d * q.z) + 2.0 * q.w * Cross(VectorPart(q), v).z
  {
    var t := HMul(q, Pure(v));
    SandwichAt(q.z, q.x, q.y, q.w, v.z, v.x, v.y, n, d, t.z, t.x, t.y, t.w, Sandwich(q, v).z);
  }

  /** One component of the sandwich product, on reals; the other two follow by cycling the axes. */
  lemma SandwichAt(x: real, y: real, z: real, w: real, a: real, b: real, c: real, n: real, d: real,
                   tx: real, ty: real, tz: real, tw: real, sx: real)
    requires n == x * x + y * y + z * z && d == x * a + y * b + z * c
    requires tx == w * a + (y * c - z * b) && ty == w * b + (z * a - x * c) && tz == w * c + (x * b - y * a)
    requires tw == -d && sx == tw * -x + w * tx + (ty * -z - tz * -y)
    ensures sx == (w * w - n) * a + 2.0 * d * x + 2.0 * w * (y * c - z * b)
  {
  }

  /** Multiplying by N undoes the factor k = 1/N of three coefficients. */
  lemma Cancel(N: real, k: real, A: real, B: real, C: real, a: real, b: real, c: real)
    requires k * N == 1.0 && a == k * A && b == k * B && c == k * C
    ensures N * a == A && N * b == B && N * c == C
  {
    assert N * a == (k * N) * A;
    assert N * b == (k * N) * B;
    assert N * c == (k * N) * C;
  }

  /** Scaling Apply's combination back by |q|^2 gives the sandwich product. */
  lemma SandwichScaled(q: Quat, v: Vec3, N: real, k: real, n: real, d: real, a: real, b: real, c: real)
    requires N == QNorm2(q) && k * N == 1.0
    requires n == Dot(VectorPart(q), VectorPart(q)) && d == Dot(VectorPart(q), v)
    requires a == k * (q.w * q.w - n) && b == k * (2.0 * d) && c == k * (2.0 * q.w)
    ensures Scale(N, Comb(a, b, c, VectorPart(q), v)) == Sandwich(q, v)
  {
    var u := VectorPart(q);
    Cancel(N, k, q.w * q.w - n, 2.0 * d, 2.0 * q.w, a, b, c);
    SandwichComb(q, v, n, d);
    CombScale(N, a, b, c, u, v);
    CombCoefficients(N * a, N * b, N * c, q.w * q.w - n, 2.0 * d, 2.0 * q.w, u, v);
  }

  // ---------------------------------------------------------------------------
  // Properties of rotations
  // ---------------------------------------------------------------------------

  /** Apply as a combination, with the coefficients named. */
  lemma ApplyUnfold(r: Rotation, v: Vec3, N: real, k: real, w: real, n: real, d: real, a: real, b: real, c: real)
    requires N == QNorm2(r) && k * N == 1.0
    requires w == r.w && n == Dot(VectorPart(r), VectorPart(r)) && d == Dot(VectorPart(r), v)
    requires a == k * (w * w - n) && b == k * (2.0 * d) && c == k * (2.0 * w)
    ensures Apply(r, v) == Comb(a, b, c, VectorPart(r), v)
  {
    assert k == 1.0 / QNorm2(r);
  }

  /** Apply is the sandwich product r v r* of Hamilton products, divided by |r|^2. */
  lemma ApplyIsSandwich(r: Rotation, v: Vec3)
    ensures Scale(QNorm2(r), Apply(r, v)) == Sandwich(r, v)
  {
    var u, w, N := VectorPart(r), r.w, QNorm2(r);
    var n, d, k := Dot(u, u), Dot(u, v), 1.0 / N;
    var a, b, c := k * (w * w - n), k * (2.0 * d), k * (2.0 * w);
    assert k * N == 1.0;
    ApplyUnfold(r, v, N, k, w, n, d, a, b, c);
    SandwichScaled(r, v, N, k, n, d, a, b, c);
  }

  lemma ApplyIdentity(v: Vec3)
    ensures Apply(Identity, v) == v
  {
    assert QNorm2(Identity) == 1.0;
    CombCoefficients(1.0 * (1.0 * 1.0 - Dot(Zero, Zero)), 1.0 * (2.0 * Dot(Zero, v)), 1.0 * (2.0 * 1.0), 1.0, 0.0, 2.0, Zero, v);
    assert Cross(Zero, v) == Zero;
  }

  lemma InvIdentity()
    ensures Inv(Identity) == Identity
  {
  }

  /** Conjugating twice gives back the rotation, and conjugating keeps the norm. */
  lemma InvInv(r: Rotation)
    ensures Inv(Inv(r)) == r && QNorm2(Inv(r)) == QNorm2(r)
  {
  }

  /** The coefficient identities behind InvCancels, on reals. */
  lemma InvCoefficients(k: real, N: real, n: real, d: real, w: real, e: real, f: real,
                        a: real, b: real, c: real, nb: real, nc: real)
    requires k * N == 1.0 && N == n + w * w
    requires a == k * (w * w - n) && b == k * (2.0 * d) && c == k * (2.0 * w)
    requires e == a * d + b * n && f == -e && nb == -(k * (2.0 * f)) && nc == -c
    ensures a * a - nc * c * n == 1.0
    ensures a * b + nb + nc * c * d == 0.0
    ensures a * c + nc * a == 0.0
  {
    assert a * a - nc * c * n == k * k * (N * N);
    assert a * b + nb + nc * c * d == k * k * (2.0 * d) * ((w * w - n) + (w * w - n) + 2.0 * n - 2.0 * w * w);
  }

  /** Undoing a rotation with its conjugate gives back the vector. */
  lemma InvCancels(r: Rotation, v: Vec3)
    ensures Apply(Inv(r), Apply(r, v)) == v
  {
    var u, w, N := VectorPart(r), r.w, QNorm2(r);
    var n, d, k := Dot(u, u), Dot(u, v), 1.0 / N;
    var a, b, c := k * (w * w - n), k * (2.0 * d), k * (2.0 * w);
    assert k * N == 1.0 && N == n + w * w;
    var s := Apply(r, v);
    assert s == Comb(a, b, c, u, v) by {
      ApplyUnfold(r, v, N, k, w, n, d, a, b, c);
    }
    var e := Dot(u, s);
    assert e == a * d + b * n by {
      DotComb(a, b, c, u, v, n, d);
    }
    var f := Dot(Neg(u), s);
    assert f == -e by {
      DotNeg(u, s);
    }
    var b' := k * (2.0 * f);
    var nb, nc := -b', -c;
    assert Apply(Inv(r), s) == Comb(a, nb, nc, u, s) by {
      var ri := Inv(r);
      InvInv(r);
      assert QNorm2(ri) == N && ri.w == w && VectorPart(ri) == Neg(u);
      DotNeg(u, s);
      ApplyUnfold(ri, s, N, k, w, n, f, a, b', c);
      CombNeg(a, b', c, u, s);
    }
    assert Comb(a, nb, nc, u, s) == Comb(a * a - nc * c * n, a * b + nb + nc * c * d, a * c + nc * a, u, v) by {
      CombComb(a, nb, nc, a, b, c, u, v, n, d);
    }
    InvCoefficients(k, N, n, d, w, e, f, a, b, c, nb, nc);
    CombCoefficients(a * a - nc * c * n, a * b + nb + nc * c * d, a * c + nc * a, 1.0, 0.0, 0.0, u, v);
    CombOne(u, v);
  }

  /** Rotating and then undoing, in either order, gives back the vector. */
  lemma ApplyInvCancels(r: Rotation, v: Vec3)
    ensures Apply(Inv(r), Apply(r, v)) == v
    ensures Apply(r, Apply(Inv(r), v)) == v
  {
    InvCancels(r, v);
    InvCancels(Inv(r), v);
    InvInv(r);
  }

  /** The coefficient identity behind ApplyPreservesNorm, on reals. */
  lemma NormCoefficients(k: real, N: real, n: real, d: real, w: real, m: real, cr: real, a: real, b: real, c: real)
    requires k * N == 1.0 && N == n + w * w
    requires a == k * (w * w - n) && b == k * (2.0 * d) && c == k * (2.0 * w) && cr == n * m - d * d
    ensures a * a * m + b * b * n + c * c * cr + 2.0 * a * b * d == m
  {
    assert a * a * m + b * b * n + c * c * cr + 2.0 * a * b * d == k * k * (N * N) * m;
  }

  /** A rotation keeps the length of every vector. */
  lemma ApplyPreservesNorm(r: Rotation, v: Vec3)
    ensures Norm2(Apply(r, v)) == Norm2(v)
  {
    var u, w, N := VectorPart(r), r.w, QNorm2(r);
    var n, d, m, k := Dot(u, u), Dot(u, v), Norm2(v), 1.0 / N;
    var a, b, c := k * (w * w - n), k * (2.0 * d), k * (2.0 * w);
    assert k * N == 1.0;
    ApplyUnfold(r, v, N, k, w, n, d, a, b, c);
    var cr := Norm2(Cross(u, v));
    NormComb(a, b, c, u, v, n, m, cr, d);
    Lagrange(u, v, n, m, d);
    NormCoefficients(k, N, n, d, w, m, cr, a, b, c);
  }

  /** q and -q are the same rotation. */
  lemma NegatedQuaternionSameRotation(r: Rotation)
    ensures QNorm2(Negate(r)) == QNorm2(r)
    ensures SameRotation(Negate(r), r)
  {
    var nr: Rotation := Negate(r);
    forall v ensures Apply(nr, v) == Apply(r, v) {
      var u, w, N := VectorPart(r), r.w, QNorm2(r);
      var n, d, k := Dot(u, u), Dot(u, v), 1.0 / N;
      var a, b, c := k * (w * w - n), k * (2.0 * d), k * (2.0 * w);
      assert k * N == 1.0;
      ApplyUnfold(r, v, N, k, w, n, d, a, b, c);
      assert QNorm2(nr) == N && VectorPart(nr) == Neg(u) && nr.w == -w;
      DotNeg(u, v);
      var b', c' := k * (2.0 * -d), k * (2.0 * -w);
      ApplyUnfold(nr, v, N, k, -w, n, -d, a, b', c');
      CombNeg(a, b', c', u, v);
      CombCoefficients(a, -b', -c', a, b, c, u, v);
    }
  }

  /** Apply as a function of the vector is linear: it commutes with differences. */
  lemma CombSub(a: real, b1: real, b2: real, c: real, u: Vec3, v1: Vec3, v2: Vec3)
    ensures Comb(a, b1 - b2, c, u, Sub(v1, v2)) == Sub(Comb(a, b1, c, u, v1), Comb(a, b2, c, u, v2))
  {
  }

  lemma ApplySub(r: Rotation, v1: Vec3, v2: Vec3)
    ensures Apply(r, Sub(v1, v2)) == Sub(Apply(r, v1), Apply(r, v2))
  {
    var u, w, N := VectorPart(r), r.w, QNorm2(r);
    var n, d1, d2, k := Dot(u, u), Dot(u, v1), Dot(u, v2), 1.0 / N;
    var v := Sub(v1, v2);
    var d := Dot(u, v);
    var a, c := k * (w * w - n), k * (2.0 * w);
    var b1, b2, b := k * (2.0 * d1), k * (2.0 * d2), k * (2.0 * d);
    assert k * N == 1.0;
    assert Apply(r, v1) == Comb(a, b1, c, u, v1) by {
      ApplyUnfold(r, v1, N, k, w, n, d1, a, b1, c);
    }
    assert Apply(r, v2) == Comb(a, b2, c, u, v2) by {
      ApplyUnfold(r, v2, N, k, w, n, d2, a, b2, c);
    }
    assert Apply(r, v) == Comb(a, b, c, u, v) by {
      ApplyUnfold(r, v, N, k, w, n, d, a, b, c);
    }
    assert Comb(a, b, c, u, v) == Comb(a, b1 - b2, c, u, v) by {
      SubCoefficient(k, u, v1, v2, d, d1, d2, b, b1, b2);
      CombCoefficients(a, b, c, a, b1 - b2, c, u, v);
    }
    CombSub(a, b1, b2, c, u, v1, v2);
  }

  /** The coefficient of the axis in Apply is linear in the vector. */
  lemma SubCoefficient(k: real, u: Vec3, v1: Vec3, v2: Vec3, d: real, d1: real, d2: real, b: real, b1: real, b2: real)
    requires d == Dot(u, Sub(v1, v2)) && d1 == Dot(u, v1) && d2 == Dot(u, v2)
    requires b == k * (2.0 * d) && b1 == k * (2.0 * d1) && b2 == k * (2.0 * d2)
    ensures b == b1 - b2
  {
    DotSub(u, v1, v2);
  }

  /** A rotation fixes the origin. */
  lemma ApplyZero(r: Rotation)
    ensures Apply(r, Zero) == Zero
  {
    ApplySub(r, Zero, Zero);
    assert Sub(Zero, Zero) == Zero;
  }

  // ---------------------------------------------------------------------------
  // Rotations about the z axis
  // ---------------------------------------------------------------------------

  /** The cosine c and sine s of half of an angle. */
  datatype HalfAngle = HalfAngle(c: real, s: real)

  /** An angle about the z axis: its half lies on the unit circle. */
  type ZAngle = h: HalfAngle | h.c * h.c + h.s * h.s == 1.0 witness HalfAngle(1.0, 0.0)

  /** The rotation about z by the angle: the quaternion (0, 0, sin(theta/2), cos(theta/2)). */
  function ZRotation(h: ZAngle): (r: Rotation)
    ensures QNorm2(r) == 1.0 && VectorPart(r) == Vec3(0.0, 0.0, h.s)
  {
    Quat(0.0, 0.0, h.s, h.c)
  }

  /** cos(theta), by the double-angle formula. */
  function Cos(h: ZAngle): real {
    h.c * h.c - h.s * h.s
  }

  /** sin(theta), by the double-angle formula. */
  function Sin(h: ZAngle): real {
    2.0 * h.c * h.s
  }

  /** The full angle lies on the unit circle too. */
  lemma CosSin(h: ZAngle)
    ensures Cos(h) * Cos(h) + Sin(h) * Sin(h) == 1.0
  {
    var cc, ss := h.c * h.c, h.s * h.s;
    assert Cos(h) * Cos(h) + Sin(h) * Sin(h) == (cc + ss) * (cc + ss);
  }

  /** The planar rotation of the x-y plane by theta, leaving z alone. */
  function RotZ(h: ZAngle, v: Vec3): Vec3 {
    Vec3(Cos(h) * v.x - Sin(h) * v.y, Sin(h) * v.x + Cos(h) * v.y, v.z)
  }

  /** The quaternion of a z angle turns the x-y plane by that angle and keeps z. */
  lemma ZRotationIsPlanar(h: ZAngle, v: Vec3)
    ensures Apply(ZRotation(h), v) == RotZ(h, v)
  {
    var r := ZRotation(h);
    var u := VectorPart(r);
    var n, d := Dot(u, u), Dot(u, v);
    var a, b, c := 1.0 * (h.c * h.c - n), 1.0 * (2.0 * d), 1.0 * (2.0 * h.c);
    ApplyUnfold(r, v, 1.0, 1.0, h.c, n, d, a, b, c);
    assert n == h.s * h.s && d == h.s * v.z;
    assert Cross(u, v) == Vec3(-h.s * v.y, h.s * v.x, 0.0);
    var t := Comb(a, b, c, u, v);
    assert t.z == (h.c * h.c + h.s * h.s) * v.z;
  }

  /** A link of length l along x, turned by theta, reaches (l cos theta, l sin theta, 0). */
  lemma ZRotationOfLink(h: ZAngle, l: real)
    ensures Apply(ZRotation(h), Vec3(l, 0.0, 0.0)) == Vec3(l * Cos(h), l * Sin(h), 0.0)
  {
    ZRotationIsPlanar(h, Vec3(l, 0.0, 0.0));
  }

  /** A whole number of turns (the half angle has no sine) does not move anything. */
  lemma NoTurnFixes(h: ZAngle, v: Vec3)
    requires h.s == 0.0
    ensures Apply(ZRotation(h), v) == v
  {
    var w := Apply(ZRotation(h), v);
    ZRotationIsPlanar(h, v);
    RotZNoTurn(h, v);
    assert w == v;
  }

  lemma RotZNoTurn(h: ZAngle, v: Vec3)
    requires h.s == 0.0
    ensures RotZ(h, v) == v
  {
    assert Cos(h) == 1.0 && Sin(h) == 0.0;
  }

  /** A half turn (the half angle has no cosine) reverses the x-y plane. */
  lemma HalfTurnReverses(h: ZAngle, v: Vec3)
    requires h.c == 0.0
    ensures Apply(ZRotation(h), v) == Vec3(-v.x, -v.y, v.z)
  {
    ZRotationIsPlanar(h, v);
    assert Cos(h) == -1.0 && Sin(h) == 0.0;
  }

  /** A quarter turn (cos and sin of 45 degrees agree) takes x to y and y to -x. */
  lemma QuarterTurn(h: ZAngle, v: Vec3)
    requires h.c == h.s
    ensures Apply(ZRotation(h), v) == Vec3(-v.y, v.x, v.z)
  {
    ZRotationIsPlanar(h, v);
    assert h.c * h.s == 0.5;
  }
}
