/** Real 3-vectors: the positions, offsets and joint targets of the mechanism. */
module Vectors {

  datatype Vec3 = Vec3(x: real, y: real, z: real)

  const Zero: Vec3 := Vec3(0.0, 0.0, 0.0)

  function Add(a: Vec3, b: Vec3): Vec3 {
    Vec3(a.x + b.x, a.y + b.y, a.z + b.z)
  }

  function Sub(a: Vec3, b: Vec3): Vec3 {
    Vec3(a.x - b.x, a.y - b.y, a.z - b.z)
  }

  function Neg(a: Vec3): Vec3 {
    Vec3(-a.x, -a.y, -a.z)
  }

  function Scale(k: real, a: Vec3): Vec3 {
    Vec3(k * a.x, k * a.y, k * a.z)
  }

  function Dot(a: Vec3, b: Vec3): real {
    a.x * b.x + a.y * b.y + a.z * b.z
  }

  function Cross(a: Vec3, b: Vec3): Vec3 {
    Vec3(a.y * b.z - a.z * b.y, a.z * b.x - a.x * b.z, a.x * b.y - a.y * b.x)
  }

  /** Squared Euclidean length. */
  function Norm2(a: Vec3): real {
    Dot(a, a)
  }

  /** A cross product is orthogonal to its first factor. */
  lemma DotCross(u: Vec3, v: Vec3)
    ensures Dot(u, Cross(u, v)) == 0.0
  {
  }

  /** Negating one factor negates a dot product. */
  lemma DotNeg(a: Vec3, b: Vec3)
    ensures Dot(Neg(a), b) == -Dot(a, b) && Dot(Neg(a), Neg(a)) == Dot(a, a)
  {
  }

  /** The dot product distributes over differences. */
  lemma DotSub(a: Vec3, b: Vec3, c: Vec3)
    ensures Dot(a, Sub(b, c)) == Dot(a, b) - Dot(a, c)
  {
  }

  /** Lagrange's identity: |u x v|^2 = |u|^2 |v|^2 - (u . v)^2. */
  lemma Lagrange(u: Vec3, v: Vec3, nu: real, nv: real, d: real)
    requires nu == Norm2(u) && nv == Norm2(v) && d == Dot(u, v)
    ensures Norm2(Cross(u, v)) == nu * nv - d * d
  {
  }
}
