/**
  The small part of nalgebra-glm the camera and the mesh loader use: 2- and
  3-component vectors with component-wise arithmetic, the dot product and the
  cross product. Components are `real`; f32 rounding is not modelled.
*/
module Vectors {

  datatype Vec2 = Vec2(x: real, y: real)
  datatype Vec3 = Vec3(x: real, y: real, z: real)

  /** `glm::Vec3::default()` */
  const Zero: Vec3 := Vec3(0.0, 0.0, 0.0)

  function Add(a: Vec3, b: Vec3): Vec3 {
    Vec3(a.x + b.x, a.y + b.y, a.z + b.z)
  }

  function Sub(a: Vec3, b: Vec3): Vec3 {
    Vec3(a.x - b.x, a.y - b.y, a.z - b.z)
  }

  /** `v * k` for a vector `v` and a scalar `k`. */
  function Scale(v: Vec3, k: real): Vec3 {
    Vec3(v.x * k, v.y * k, v.z * k)
  }

  function Dot(a: Vec3, b: Vec3): real {
    a.x * b.x + a.y * b.y + a.z * b.z
  }

  function Cross(a: Vec3, b: Vec3): Vec3 {
    Vec3(a.y * b.z - a.z * b.y, a.z * b.x - a.x * b.z, a.x * b.y - a.y * b.x)
  }

  /** The cross product is orthogonal to both of its arguments. */
  lemma CrossOrthogonal(a: Vec3, b: Vec3)
    ensures Dot(Cross(a, b), a) == 0.0
    ensures Dot(Cross(a, b), b) == 0.0
  {
    var c := Cross(a, b);
    assert c.x * a.x == a.y * b.z * a.x - a.z * b.y * a.x;
    assert c.y * a.y == a.z * b.x * a.y - a.x * b.z * a.y;
    assert c.z * a.z == a.x * b.y * a.z - a.y * b.x * a.z;
    assert c.x * b.x == a.y * b.z * b.x - a.z * b.y * b.x;
    assert c.y * b.y == a.z * b.x * b.y - a.x * b.z * b.y;
    assert c.z * b.z == a.x * b.y * b.z - a.y * b.x * b.z;
  }

  /** Scaling one argument scales the dot product; in particular orthogonality survives scaling. */
  lemma DotScale(u: Vec3, k: real, v: Vec3)
    ensures Dot(Scale(u, k), v) == k * Dot(u, v)
  {
    assert u.x * k * v.x + u.y * k * v.y + u.z * k * v.z == k * (u.x * v.x + u.y * v.y + u.z * v.z);
  }

  /** `(p + v*a) + v*b == p + v*(a+b)`: two moves along one axis add up. */
  lemma AddScaleAdd(p: Vec3, v: Vec3, a: real, b: real)
    ensures Add(Add(p, Scale(v, a)), Scale(v, b)) == Add(p, Scale(v, a + b))
  {
    assert v.x * a + v.x * b == v.x * (a + b);
    assert v.y * a + v.y * b == v.y * (a + b);
    assert v.z * a + v.z * b == v.z * (a + b);
  }

  /** `p - v*a == p + v*(-a)` */
  lemma SubScaleIsAddNeg(p: Vec3, v: Vec3, a: real)
    ensures Sub(p, Scale(v, a)) == Add(p, Scale(v, -a))
  {
    assert v.x * -a == -(v.x * a);
    assert v.y * -a == -(v.y * a);
    assert v.z * -a == -(v.z * a);
  }

  lemma ScaleZero(p: Vec3, v: Vec3)
    ensures Add(p, Scale(v, 0.0)) == p
  {
  }
}
