/** The three.js value types the scene passes around, the random draws and the
    trigonometry its layout uses, and the transform of a scene-graph node that
    per-frame callbacks update in place. */
module Geometry {

  /** Math.PI, written as the shortest decimal that rounds to that double. */
  const PI: real := 3.141592653589793

  /** One result of Math.random: a real in [0, 1). */
  type Draw = r: real | 0.0 <= r < 1.0

  /** THREE.Vector3 */
  datatype Vec3 = Vec3(x: real, y: real, z: real)

  /** THREE.Euler: angles in radians, never normalised. */
  datatype Euler = Euler(x: real, y: real, z: real)

  /** The position and rotation a tween drives a node towards. */
  datatype Pose = Pose(position: Vec3, rotation: Euler)

  const NO_ROTATION: Euler := Euler(0.0, 0.0, 0.0)

  /** Squared distance from the origin. */
  function Norm2(p: Vec3): real {
    p.x * p.x + p.y * p.y + p.z * p.z
  }

  /** Math.sin, Math.cos, Math.acos and Math.cbrt, supplied by the caller.
      Only the laws in Lawful are known about them. */
  datatype Trig = Trig(sin: real -> real, cos: real -> real, acos: real -> real, cbrt: real -> real)

  /** The facts about the library functions that the layout relies on. */
  ghost predicate Lawful(m: Trig) {
    && (forall x :: m.sin(x) * m.sin(x) + m.cos(x) * m.cos(x) == 1.0)
    && (forall x :: -1.0 <= x <= 1.0 ==> m.cos(m.acos(x)) == x)
    && (forall w :: 0.0 <= w < 1.0 ==> 0.0 <= m.cbrt(w) < 1.0)
  }

  /** Neither sine nor cosine leaves [-1, 1]; this follows from sin² + cos² = 1. */
  lemma SinCosBounded(m: Trig, x: real)
    requires Lawful(m)
    ensures -1.0 <= m.sin(x) <= 1.0
    ensures -1.0 <= m.cos(x) <= 1.0
  {
  }

  // Facts about one product of reals. They are functions rather than lemmas so
  // that a call on compound arguments, Shrink(t, height - 1.0) say, hands the
  // solver the fact about exactly that product.

  /** A factor in [0, 1) shrinks a positive span to a part of it. */
  ghost function Shrink(a: real, d: real): (p: real)
    requires 0.0 <= a < 1.0
    ensures d > 0.0 ==> 0.0 <= p < d
    ensures d == 0.0 ==> p == 0.0
  {
    if d > 0.0 then ShrinkPositive(a, d); a * d else a * d
  }

  lemma ShrinkPositive(a: real, d: real)
    requires 0.0 <= a < 1.0 && d > 0.0
    ensures 0.0 <= a * d < d
  {
  }

  /** The product of two positive reals is positive. */
  ghost function PosProd(a: real, b: real): (p: real)
    requires a > 0.0 && b > 0.0
    ensures p > 0.0
  {
    PosMul(a, b);
    a * b
  }

  lemma PosMul(a: real, b: real)
    requires a > 0.0 && b > 0.0
    ensures a * b > 0.0
  {
  }

  /** The product of two non-negative reals is non-negative. */
  ghost function NonNegProd(a: real, b: real): (p: real)
    requires a >= 0.0 && b >= 0.0
    ensures p >= 0.0
  {
    NonNegMul(a, b);
    a * b
  }

  lemma NonNegMul(a: real, b: real)
    requires a >= 0.0 && b >= 0.0
    ensures a * b >= 0.0
  {
  }

  /** The quotient of a non-negative real by a positive one is non-negative,
      below 1 when the numerator is smaller, and positive when it is. */
  ghost function Quot(a: real, b: real): (q: real)
    requires 0.0 <= a && 0.0 < b
    ensures 0.0 <= q
    ensures a < b ==> q < 1.0
    ensures a > 0.0 ==> q > 0.0
  {
    a / b
  }

  /** A non-zero factor cancels from both sides of an equation. */
  lemma CancelFactor(a: real, b: real, h: real)
    requires h != 0.0 && a * h == b * h
    ensures a == b
  {
    assert (a - b) * h == 0.0;
  }

  /** Squaring is strictly increasing on the non-negative reals. */
  lemma SquareMono(r: real, s: real)
    requires 0.0 <= r < s
    ensures r * r < s * s
  {
    assert NonNegProd(r, s - r) >= 0.0;
    assert PosProd(s, s - r) > 0.0;
  }

  /** The transform of a THREE.Group or THREE.Mesh, which animation code mutates in place. */
  class Object3D {
    var position: Vec3
    var rotation: Euler
    var scale: Vec3

    constructor (position: Vec3, rotation: Euler)
      ensures this.position == position && this.rotation == rotation
      ensures scale == Vec3(1.0, 1.0, 1.0)
    {
      this.position := position;
      this.rotation := rotation;
      scale := Vec3(1.0, 1.0, 1.0);
    }
  }
}
