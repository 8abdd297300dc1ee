/** three.js `Vector3` arithmetic, on values. JavaScript numbers are modelled as `real`;
    anything that needs a square root is compared as a squared length instead. */
module Vectors {
  datatype Vec3 = Vec3(x: real, y: real, z: real)

  const Zero := Vec3(0.0, 0.0, 0.0)

  function Add(a: Vec3, b: Vec3): Vec3 { Vec3(a.x + b.x, a.y + b.y, a.z + b.z) }

  function Sub(a: Vec3, b: Vec3): Vec3 { Vec3(a.x - b.x, a.y - b.y, a.z - b.z) }

  function Scale(a: Vec3, k: real): Vec3 { Vec3(a.x * k, a.y * k, a.z * k) }

  function Dot(a: Vec3, b: Vec3): real { a.x * b.x + a.y * b.y + a.z * b.z }

  function LengthSq(a: Vec3): real { Dot(a, a) }

  /** The square of `a.distanceTo(b)`. */
  function DistanceSq(a: Vec3, b: Vec3): real { LengthSq(Sub(a, b)) }

  /** The square of the length of the horizontal part (x, z) of `a`. */
  function HorizontalSq(a: Vec3): real { a.x * a.x + a.z * a.z }

  lemma ScaleZero(k: real)
    ensures Scale(Zero, k) == Zero
  {
  }

  lemma AddZero(a: Vec3)
    ensures Add(a, Zero) == a
  {
  }

  lemma DistanceSymmetric(a: Vec3, b: Vec3)
    ensures DistanceSq(a, b) == DistanceSq(b, a)
  {
    assert Sub(b, a) == Scale(Sub(a, b), -1.0);
    LengthSqScale(Sub(a, b), -1.0);
  }

  lemma {:induction false} LengthSqScale(a: Vec3, k: real)
    ensures LengthSq(Scale(a, k)) == k * k * LengthSq(a)
  {
    calc {
      LengthSq(Scale(a, k));
      (a.x * k) * (a.x * k) + (a.y * k) * (a.y * k) + (a.z * k) * (a.z * k);
      k * k * (a.x * a.x) + k * k * (a.y * a.y) + k * k * (a.z * a.z);
      k * k * LengthSq(a);
    }
  }

  // Square roots are inputs of the model; these facts about squares pin them down.

  lemma SquareMonotone(a: real, b: real)
    requires 0.0 <= a <= b
    ensures a * a <= b * b
  {
    var aa, ab, bb := a * a, a * b, b * b;
    assert a * (b - a) >= 0.0 && a * (b - a) == ab - aa;
    assert b * (b - a) >= 0.0 && b * (b - a) == bb - ab;
  }

  lemma SquareStrictlyMonotone(a: real, b: real)
    requires 0.0 <= a < b
    ensures a * a < b * b
  {
    var aa, ab, bb := a * a, a * b, b * b;
    assert a * (b - a) >= 0.0 && a * (b - a) == ab - aa;
    assert b * (b - a) > 0.0 && b * (b - a) == bb - ab;
  }

  /** A non-negative number whose square is at most bound * bound is at most bound. */
  lemma SquareRootBound(r: real, bound: real)
    requires r >= 0.0 && bound >= 0.0 && r * r <= bound * bound
    ensures r <= bound
  {
    if bound < r {
      SquareStrictlyMonotone(bound, r);
    }
  }
}
