/**
 The minimal point/vector tuple of src/ds.rs: the same four components as
 the full tuple, with only the two classification queries.
 */
module MinimalTuple {
  import Tuples

  datatype Tuple = Tuple(x: real, y: real, z: real, w: real)

  /** `is_point`: an exact comparison of the discriminant with 1, so a point
      is fixed by its x, y and z. */
  function IsPoint(t: Tuple): (r: bool)
    ensures r <==> t == Tuple(t.x, t.y, t.z, 1.0)
  {
    t.w == 1.0
  }

  /** `is_vector`: the negation of `is_point`; every tuple is exactly one of
      the two, and any w other than exactly 1 makes a vector. */
  function IsVector(t: Tuple): (r: bool)
    ensures r <==> t.w != 1.0
  {
    !IsPoint(t)
  }

  /** The minimal tuple classifies every value as the full tuple does. */
  lemma AgreesWithFullTuple(t: Tuple)
    ensures IsPoint(t) == Tuples.IsPoint(Tuples.Tuple(t.x, t.y, t.z, t.w))
    ensures IsVector(t) == Tuples.IsVector(Tuples.Tuple(t.x, t.y, t.z, t.w))
  {
  }
}
