/**
 The homogeneous-coordinate tuple algebra of the ray tracer (src/tuple.rs).

 A tuple is four numbers (x, y, z, w). The fourth component is the
 discriminant: w = 1 marks a point in space, w = 0 a vector (a direction or
 displacement). The type does not enforce the convention; every operation is
 defined for arbitrary w and lets the discriminant flow through the
 arithmetic. Components are modelled as mathematical reals, not as IEEE
 doubles, and equality of tuples is exact equality of the four components.
 */
module Tuples {

  /** The value type. Its constructor `Tuple(x, y, z, w)` is the source's
      `Tuple::new`: it accepts any four numbers and checks nothing. */
  datatype Tuple = Tuple(x: real, y: real, z: real, w: real)

  /** The all-zero tuple: the zero vector, and the sum of a tuple and its negation. */
  const Zero: Tuple := Tuple(0.0, 0.0, 0.0, 0.0)

  // ---------------------------------------------------------------------------
  // Construction and classification
  // ---------------------------------------------------------------------------

  /** `new_point`: the three coordinates with w = 1. */
  function Point(x: real, y: real, z: real): (t: Tuple)
    ensures IsPoint(t) && !IsVector(t)
    ensures t.x == x && t.y == y && t.z == z
  {
    Tuple(x, y, z, 1.0)
  }

  /** `new_vector`: the three coordinates with w = 0. */
  function Vector(x: real, y: real, z: real): (t: Tuple)
    ensures IsVector(t) && !IsPoint(t) && t.w == 0.0
    ensures t.x == x && t.y == y && t.z == z
  {
    Tuple(x, y, z, 0.0)
  }

  /** `is_point`: an exact comparison of the discriminant with 1, so the
      points are exactly the tuples `new_point` builds from their own x, y, z. */
  function IsPoint(t: Tuple): (r: bool)
    ensures r <==> t == Tuple(t.x, t.y, t.z, 1.0)
  {
    t.w == 1.0
  }

  /** `is_vector`: the negation of `is_point`, so every w other than exactly
      1 (0, but also 0.5 or 2) is classified as a vector. */
  function IsVector(t: Tuple): (r: bool)
    ensures r <==> t.w != 1.0
  {
    !IsPoint(t)
  }

  // ---------------------------------------------------------------------------
  // Componentwise arithmetic
  // ---------------------------------------------------------------------------

  /** `add`: componentwise sum; the discriminants add up too. */
  function Add(a: Tuple, b: Tuple): (r: Tuple)
    ensures IsPoint(a) && b.w == 0.0 ==> IsPoint(r)
    ensures a.w == 0.0 && IsPoint(b) ==> IsPoint(r)
    ensures a.w == 0.0 && b.w == 0.0 ==> r.w == 0.0
    ensures IsPoint(a) && IsPoint(b) ==> r.w == 2.0 && !IsPoint(r)
  {
    Tuple(a.x + b.x, a.y + b.y, a.z + b.z, a.w + b.w)
  }

  /** `sub`: componentwise difference; it undoes `Add`. */
  function Sub(a: Tuple, b: Tuple): (r: Tuple)
    ensures Add(r, b) == a
    ensures IsPoint(a) && IsPoint(b) ==> r.w == 0.0
    ensures IsPoint(a) && b.w == 0.0 ==> IsPoint(r)
    ensures a.w == 0.0 && b.w == 0.0 ==> r.w == 0.0
  {
    Tuple(a.x - b.x, a.y - b.y, a.z - b.z, a.w - b.w)
  }

  /** `negate`: flips all four components, w included, giving the additive inverse. */
  function Negate(a: Tuple): (r: Tuple)
    ensures Add(a, r) == Zero && Add(r, a) == Zero
    ensures r.w == -a.w
  {
    Tuple(-a.x, -a.y, -a.z, -a.w)
  }

  /** `mult`: scales all four components, w included. */
  function Mult(a: Tuple, factor: real): (r: Tuple)
    ensures factor == 1.0 ==> r == a
    ensures factor == 0.0 ==> r == Zero
    ensures factor == -1.0 ==> r == Negate(a)
    ensures a.w == 0.0 ==> r.w == 0.0
  {
    Tuple(a.x * factor, a.y * factor, a.z * factor, a.w * factor)
  }

  /** `div`: divides all four components, w included. Division by zero is IEEE
      behaviour (infinities and NaN) that reals do not have, so it is excluded. */
  function Div(a: Tuple, divisor: real): (r: Tuple)
    requires divisor != 0.0
    ensures r == Mult(a, 1.0 / divisor)
    ensures Mult(r, divisor) == a
    ensures a.w == 0.0 ==> r.w == 0.0
  {
    Tuple(a.x / divisor, a.y / divisor, a.z / divisor, a.w / divisor)
  }

  /** `dot_product`: the sum of the four componentwise products. When either
      input has w = 0 the w term drops out and it is the 3D dot product. */
  function Dot(a: Tuple, b: Tuple): (r: real)
    ensures a.w == 0.0 || b.w == 0.0 ==> r == a.x * b.x + a.y * b.y + a.z * b.z
  {
    (a.x * b.x) + (a.y * b.y) + (a.z * b.z) + (a.w * b.w)
  }

  /** `cross_product`: the 3D cross product of the x, y, z parts; both inputs'
      w are ignored and the result is always built as a vector. The result is
      orthogonal to both inputs under the four-component `Dot`. */
  function Cross(a: Tuple, b: Tuple): (r: Tuple)
    ensures r.w == 0.0 && IsVector(r)
    ensures Dot(a, r) == 0.0 && Dot(b, r) == 0.0
  {
    Vector(a.y * b.z - a.z * b.y,
           a.z * b.x - a.x * b.z,
           a.x * b.y - a.y * b.x)
  }

  // ---------------------------------------------------------------------------
  // Algebraic laws of the componentwise operators
  // ---------------------------------------------------------------------------

  /** Addition is commutative, w included. */
  lemma AddCommutative(a: Tuple, b: Tuple)
    ensures Add(a, b) == Add(b, a)
  {
  }

  /** The zero tuple is the identity of addition. */
  lemma AddZero(a: Tuple)
    ensures Add(a, Zero) == a && Add(Zero, a) == a
  {
  }

  /** Subtracting is adding the negation. */
  lemma SubIsAddNegate(a: Tuple, b: Tuple)
    ensures Sub(a, b) == Add(a, Negate(b))
  {
  }

  /** Subtracting from the zero tuple negates every component, w included. */
  lemma SubFromZero(b: Tuple)
    ensures Sub(Zero, b) == Negate(b)
  {
  }

  /** Negation is an involution. */
  lemma NegateInvolution(a: Tuple)
    ensures Negate(Negate(a)) == a
  {
  }

  /** Negation is the only additive inverse. */
  lemma NegateUnique(a: Tuple, b: Tuple)
    requires Add(a, b) == Zero
    ensures b == Negate(a)
  {
  }

  /** Dividing by a nonzero number and scaling by it again are inverse. */
  lemma MultDivRoundTrip(a: Tuple, d: real)
    requires d != 0.0
    ensures Div(Mult(a, d), d) == a
  {
  }

  /** The dot product is symmetric. */
  lemma DotSymmetric(a: Tuple, b: Tuple)
    ensures Dot(a, b) == Dot(b, a)
  {
  }

  /** The dot product of a tuple with itself is its squared magnitude. */
  lemma DotSelf(a: Tuple)
    ensures Dot(a, a) == MagnitudeSquared(a)
  {
  }

  /** The dot product is linear in its first argument. */
  lemma DotLinear(a: Tuple, b: Tuple, c: Tuple, s: real)
    ensures Dot(Add(a, b), c) == Dot(a, c) + Dot(b, c)
    ensures Dot(Mult(a, s), c) == s * Dot(a, c)
  {
  }

  /** The cross product is anticommutative. */
  lemma CrossAnticommutative(a: Tuple, b: Tuple)
    ensures Cross(a, b) == Negate(Cross(b, a))
  {
  }

  /** The cross product reads only x, y and z: the inputs' w do not matter. */
  lemma CrossIgnoresW(a: Tuple, b: Tuple, u: real, v: real)
    ensures Cross(a, b) == Cross(Tuple(a.x, a.y, a.z, u), Tuple(b.x, b.y, b.z, v))
  {
  }

  /** The cross product of a tuple with itself is the zero vector. */
  lemma CrossSelf(a: Tuple)
    ensures Cross(a, a) == Zero
  {
  }

  // ---------------------------------------------------------------------------
  // Magnitude and normalisation
  // ---------------------------------------------------------------------------

  /** The radicand of `magnitude`: the four squared components, w included
      (the source squares each with `powi(2)`). */
  function MagnitudeSquared(a: Tuple): (r: real)
    ensures r >= 0.0
  {
    a.x * a.x + a.y * a.y + a.z * a.z + a.w * a.w
  }

  /** `m` is what `magnitude` returns for `a`: the non-negative square root of
      `MagnitudeSquared(a)`. Reals have no square root here, so the value of
      `magnitude` enters the model as a number constrained by this predicate. */
  function IsMagnitude(a: Tuple, m: real): (r: bool)
    ensures r <==> m >= 0.0 && m * m == Dot(a, a)
  {
    m >= 0.0 && m * m == MagnitudeSquared(a)
  }

  /** `normalize`: the tuple divided by its magnitude `m`. The source divides
      unguarded; for the zero tuple (magnitude 0) that is the IEEE division by
      zero, which is excluded. The result has magnitude 1 and points the same
      way: scaling it back by `m` gives the input. */
  function Normalize(a: Tuple, m: real): (r: Tuple)
    requires IsMagnitude(a, m) && m > 0.0
    ensures IsMagnitude(r, 1.0)
    ensures Mult(r, m) == a
    ensures a.w == 0.0 ==> r.w == 0.0
  {
    var k := 1.0 / m;
    MagnitudeSquaredOfMult(a, k);
    assert (k * k) * (m * m) == (k * m) * (k * m) == 1.0;
    Div(a, m)
  }

  /** The magnitude is determined: two candidates for `magnitude(a)` agree. */
  lemma MagnitudeUnique(a: Tuple, m1: real, m2: real)
    requires IsMagnitude(a, m1) && IsMagnitude(a, m2)
    ensures m1 == m2
  {
    SquareRootUnique(m1, m2);
  }

  /** Scaling by `s` scales the magnitude by `|s|`. */
  lemma MagnitudeOfMult(a: Tuple, s: real, m: real)
    requires IsMagnitude(a, m)
    ensures IsMagnitude(Mult(a, s), Abs(s) * m)
  {
    MagnitudeSquaredOfMult(a, s);
    assert Abs(s) * Abs(s) == s * s;
    assert (Abs(s) * m) * (Abs(s) * m) == (Abs(s) * Abs(s)) * (m * m);
  }

  /** Scaling by `k` scales the squared magnitude by `k * k`. */
  lemma MagnitudeSquaredOfMult(a: Tuple, k: real)
    ensures MagnitudeSquared(Mult(a, k)) == MagnitudeSquared(a) * (k * k)
  {
  }

  /** Lagrange's identity: for two vectors, the squared magnitude of their
      cross product is |a|^2 |b|^2 - (a . b)^2, so it is the zero vector
      exactly when the inputs are parallel. */
  lemma CrossMagnitude(a: Tuple, b: Tuple)
    requires a.w == 0.0 && b.w == 0.0
    ensures MagnitudeSquared(Cross(a, b))
         == MagnitudeSquared(a) * MagnitudeSquared(b) - Dot(a, b) * Dot(a, b)
  {
  }

  // ---------------------------------------------------------------------------
  // Facts about reals used above
  // ---------------------------------------------------------------------------

  function Abs(s: real): (r: real)
    ensures r >= 0.0 && (r == s || r == -s)
  {
    if s < 0.0 then -s else s
  }

  /** A non-negative number is determined by its square. */
  lemma SquareRootUnique(m1: real, m2: real)
    requires m1 >= 0.0 && m2 >= 0.0 && m1 * m1 == m2 * m2
    ensures m1 == m2
  {
    assert (m1 - m2) * (m1 + m2) == m1 * m1 - m2 * m2;
    if m1 + m2 != 0.0 {
      assert m1 - m2 == 0.0;
    }
  }
}
