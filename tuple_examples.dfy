/**
 The literal scenarios of the tuple unit tests (src/tuple.rs), stated over
 the model. Every one holds exactly over the reals, except the normalisation
 of (1, 2, 3), whose magnitude is irrational; it is stated for any magnitude.
 */
module TupleExamples {
  import opened Tuples

  lemma TupleWithW1IsPoint()
    ensures var a := Tuple(4.3, -4.2, 3.1, 1.0);
      a.x == 4.3 && a.y == -4.2 && a.z == 3.1 && IsPoint(a) && !IsVector(a)
  {
  }

  lemma TupleWithW0IsVector()
    ensures var a := Tuple(4.3, -4.2, 3.1, 0.0);
      a.x == 4.3 && a.y == -4.2 && a.z == 3.1 && !IsPoint(a) && IsVector(a)
  {
  }

  lemma AddingTwoTuples()
    ensures Add(Tuple(3.0, -2.0, 5.0, 1.0), Tuple(-2.0, 3.0, 1.0, 0.0)) == Point(1.0, 1.0, 6.0)
  {
  }

  lemma SubtractingTwoPoints()
    ensures Sub(Point(3.0, 2.0, 1.0), Point(5.0, 6.0, 7.0)) == Vector(-2.0, -4.0, -6.0)
  {
  }

  lemma SubtractingVectorFromPoint()
    ensures Sub(Point(3.0, 2.0, 1.0), Vector(5.0, 6.0, 7.0)) == Point(-2.0, -4.0, -6.0)
  {
  }

  lemma SubtractingTwoVectors()
    ensures Sub(Vector(3.0, 2.0, 1.0), Vector(5.0, 6.0, 7.0)) == Vector(-2.0, -4.0, -6.0)
  {
  }

  lemma SubtractingFromZeroVector()
    ensures Sub(Vector(0.0, 0.0, 0.0), Vector(1.0, -2.0, 3.0)) == Vector(-1.0, 2.0, -3.0)
  {
  }

  lemma NegatingATuple()
    ensures Negate(Tuple(1.0, -2.0, 3.0, -4.0)) == Tuple(-1.0, 2.0, -3.0, 4.0)
  {
  }

  lemma ScalingExamples()
    ensures Mult(Tuple(1.0, -2.0, 3.0, -4.0), 3.5) == Tuple(3.5, -7.0, 10.5, -14.0)
    ensures Mult(Tuple(1.0, -2.0, 3.0, -4.0), 0.5) == Tuple(0.5, -1.0, 1.5, -2.0)
    ensures Div(Tuple(1.0, -2.0, 3.0, -4.0), 2.0) == Tuple(0.5, -1.0, 1.5, -2.0)
  {
  }

  lemma MagnitudeOfUnitX()
    ensures IsMagnitude(Vector(1.0, 0.0, 0.0), 1.0)
  {
  }

  lemma NormalizingAVector()
    ensures Normalize(Vector(4.0, 0.0, 0.0), 4.0) == Vector(1.0, 0.0, 0.0)
  {
  }

  /** Normalising (1, 2, 3): whatever the magnitude m is, m^2 = 14, the result
      is (1/m, 2/m, 3/m) as a vector, and its magnitude is 1. */
  lemma NormalizingAnotherVector(m: real)
    requires IsMagnitude(Vector(1.0, 2.0, 3.0), m)
    ensures m * m == 14.0 && m > 0.0
    ensures Normalize(Vector(1.0, 2.0, 3.0), m) == Vector(1.0 / m, 2.0 / m, 3.0 / m)
    ensures IsMagnitude(Normalize(Vector(1.0, 2.0, 3.0), m), 1.0)
  {
  }

  lemma DotProductOfTwoTuples()
    ensures Dot(Vector(1.0, 2.0, 3.0), Vector(2.0, 3.0, 4.0)) == 20.0
  {
  }

  lemma CrossProductOfTwoVectors()
    ensures Cross(Vector(1.0, 2.0, 3.0), Vector(2.0, 3.0, 4.0)) == Vector(-1.0, 2.0, -1.0)
  {
  }

  lemma CrossProductReversed()
    ensures Cross(Vector(2.0, 3.0, 4.0), Vector(1.0, 2.0, 3.0)) == Vector(1.0, -2.0, 1.0)
  {
  }
}
