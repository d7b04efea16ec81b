/**
 * Three-component vectors over the reals: the landmark points of a tracked
 * hand and the positions and rotations of the simulated drones.
 */
module Vectors {

  datatype Vec3 = Vec3(x: real, y: real, z: real)

  const Zero := Vec3(0.0, 0.0, 0.0)

  function Add(a: Vec3, b: Vec3): Vec3
  {
    Vec3(a.x + b.x, a.y + b.y, a.z + b.z)
  }

  function Sub(a: Vec3, b: Vec3): Vec3
  {
    Vec3(a.x - b.x, a.y - b.y, a.z - b.z)
  }

  function Scale(v: Vec3, k: real): Vec3
  {
    Vec3(v.x * k, v.y * k, v.z * k)
  }

  /** The squared Euclidean length of `v`. */
  function SqNorm(v: Vec3): (r: real)
    ensures r >= 0.0
  {
    v.x * v.x + v.y * v.y + v.z * v.z
  }

  /**
   * `n` is the Euclidean length of `v`: the non-negative square root of its
   * squared norm. The length itself (a square root) is supplied from outside.
   */
  predicate IsLength(n: real, v: Vec3)
  {
    n >= 0.0 && n * n == SqNorm(v)
  }

  /**
   * A length compared with a non-negative bound can be decided without the
   * square root: compare the squared norm with the squared bound.
   */
  lemma LengthBelow(n: real, v: Vec3, t: real)
    requires IsLength(n, v)
    requires t >= 0.0
    ensures n < t <==> SqNorm(v) < t * t
  {
    if n < t {
      SquareMonotone(n, t);
    } else {
      SquareMonotone(t, n);
    }
  }

  /** Squaring is monotone on the non-negative reals. */
  lemma SquareMonotone(a: real, b: real)
    requires 0.0 <= a <= b
    ensures a * a <= b * b
    ensures a < b ==> a * a < b * b
  {
    var d := b - a;
    assert b * b == a * a + 2.0 * a * d + d * d;
    assert a * d >= 0.0;
    assert d > 0.0 ==> d * d > 0.0;
  }
}
