# Homogeneous-coordinate tuples and the projectile step, in Dafny

This project models the numeric core of a small ray tracer written in Rust. The core is the
`Tuple` type: four numbers (x, y, z, w). The fourth component is a discriminant. A tuple
with w = 1 is a point and any other w is a vector. The type does not enforce this, so every
operator accepts any w and passes it through the arithmetic.

The operators are:

- `new`, `new_point`, `new_vector`;
- `is_point`, `is_vector`;
- componentwise `add`, `sub`, `negate`, `mult` and `div`;
- `magnitude` and `normalize`;
- `dot_product`, and a `cross_product` that always returns a vector.

Beside the tuple type, the project models:

- `tick`, the one-step update of the projectile demo, which changes a `Projectile` in place;
- the minimal duplicate tuple in `src/ds.rs`, which has only the two classification queries.

Files:

- `tuples.dfy` (module `Tuples`): the `Tuple` datatype and its operators as functions. The
  datatype's constructor is `Tuple::new`. It also holds the laws the operators satisfy:
  - how w flows through each operator;
  - commutativity and symmetry;
  - `negate` is an involution and the unique additive inverse;
  - `div` undoes `mult`;
  - the cross product is anticommutative, orthogonal to its inputs, and satisfies Lagrange's
    identity;
  - `normalize` gives a unit tuple, and scaling by s scales the magnitude by |s|.
- `projectiles.dfy` (module `Projectiles`): the `Projectile` class and the `Environment`
  value. `Tick` is a method that overwrites the projectile's two fields. Its postcondition gives
  the new state in both cases, below and above the floor. It also says that a point stays a
  point and vectors stay vectors. `SeededFirstTick` replays the demo's first step from its seed.
- `minimal_tuple.dfy` (module `MinimalTuple`): the `src/ds.rs` tuple and a lemma that it
  classifies every value as the full tuple does.
- `tuple_examples.dfy` (module `TupleExamples`): the literal scenarios of the unit tests in
  `src/tuple.rs`.

Components are Dafny `real`s, not IEEE doubles. Tuple equality is exact equality of the four
components. The source uses a tolerance instead (see "Left out"). Every literal test value
except one is exact over the reals.

## Model

| member | source | states |
|---|---|---|
| `Tuples.Point` | src/tuple.rs:25-27 | `new_point` gives a tuple that is a point and not a vector, with the given x, y, z |
| `Tuples.Vector` | src/tuple.rs:29-31 | `new_vector` gives a tuple with w = 0 that is a vector and not a point, with the given x, y, z |
| `Tuples.IsPoint` | src/tuple.rs:33-35 | `is_point` holds exactly for the tuples whose w is exactly 1, i.e. those `new_point` builds from their own x, y, z |
| `Tuples.IsVector` | src/tuple.rs:33-39 | `is_vector` holds exactly when w ≠ 1, so w = 0.5 or w = 2 count as vectors (with `Tuples.IsPoint`, every tuple is exactly one of the two) |
| `Tuples.Add` | src/tuple.rs:41-48 | point + vector and vector + point are points; vector + vector is a vector; point + point has w = 2 and is no point |
| `Tuples.AddCommutative` | src/tuple.rs:41-48 | `add` is commutative, w included |
| `Tuples.AddZero` | src/tuple.rs:41-48 | the all-zero tuple is the identity of `add` |
| `Tuples.Sub` | src/tuple.rs:50-57 | `sub` undoes `add` (`(a - b) + b = a`); point − point is a vector, point − vector is a point, vector − vector is a vector |
| `Tuples.SubIsAddNegate` | src/tuple.rs:50-61 | `a.sub(b)` equals `a.add(b.negate())` |
| `Tuples.SubFromZero` | src/tuple.rs:50-61 | subtracting from the zero tuple is negation |
| `Tuples.Negate` | src/tuple.rs:59-61 | `negate` is an additive inverse on both sides (`a + (−a)` is the all-zero tuple) and flips w |
| `Tuples.NegateInvolution` | src/tuple.rs:59-61 | negating twice gives the original tuple |
| `Tuples.NegateUnique` | src/tuple.rs:59-61 | any `b` with `a + b` all zero is `negate(a)` |
| `Tuples.Mult` | src/tuple.rs:63-70 | scaling by 1 is the identity, by 0 gives the zero tuple, by −1 is `negate`; scaling a vector with w = 0 keeps w = 0 |
| `Tuples.Div` | src/tuple.rs:72-79 | for a nonzero divisor d, `div(d)` equals `mult(1/d)` and `mult(d)` undoes it; w = 0 is kept |
| `Tuples.MultDivRoundTrip` | src/tuple.rs:63-79 | `div(d)` undoes `mult(d)` for nonzero d |
| `Tuples.Dot` | src/tuple.rs:90-92 | when either input has w = 0, `dot_product` is the 3D dot product of the x, y, z parts |
| `Tuples.DotSymmetric` | src/tuple.rs:90-92 | `dot_product` is symmetric |
| `Tuples.DotSelf` | src/tuple.rs:81-92 | a tuple's dot product with itself is the radicand of its `magnitude` |
| `Tuples.DotLinear` | src/tuple.rs:90-92 | `dot_product` is additive and homogeneous in its first argument |
| `Tuples.Cross` | src/tuple.rs:94-100 | `cross_product` always returns a vector (w = 0), orthogonal under `dot_product` to both inputs |
| `Tuples.CrossAnticommutative` | src/tuple.rs:94-100 | `a × b = negate(b × a)` |
| `Tuples.CrossIgnoresW` | src/tuple.rs:94-100 | the inputs' w do not affect `cross_product` |
| `Tuples.CrossSelf` | src/tuple.rs:94-100 | a tuple crossed with itself is the zero vector |
| `Tuples.CrossMagnitude` | src/tuple.rs:81-100 | for two vectors, squared magnitude of `a × b` is \|a\|²\|b\|² − (a·b)² (Lagrange's identity) |
| `Tuples.MagnitudeSquared` | src/tuple.rs:81-83 | the radicand of `magnitude`, the sum of the four `powi(2)` squares, is never negative |
| `Tuples.IsMagnitude` | src/tuple.rs:81-83 | m is the value of `magnitude` exactly when m ≥ 0 and m² is the tuple's `dot_product` with itself |
| `Tuples.MagnitudeUnique` | src/tuple.rs:81-83 | the non-negative number whose square is that radicand is unique, so `magnitude` is determined |
| `Tuples.MagnitudeOfMult` | src/tuple.rs:63-83 | `mult(s)` scales `magnitude` by \|s\| |
| `Tuples.MagnitudeSquaredOfMult` | src/tuple.rs:63-83 | `mult(k)` scales the squared magnitude by k² |
| `Tuples.Normalize` | src/tuple.rs:85-88 | for a tuple of positive magnitude m, `normalize` has magnitude 1, scaling it by m gives the input back, and a vector stays a vector |
| `Projectiles.Projectile.constructor` | src/projectile.rs:13-16 | a projectile holds the given position and velocity |
| `Projectiles.Tick` | src/projectile.rs:82-89 | below y = −600 the velocity is first replaced by (vx, −vy, 0, w = 0), otherwise left alone. Then position := position + velocity and velocity := velocity + gravity + wind. Only the projectile changes. A point position with vector velocity, gravity and wind stays so |
| `Projectiles.StepAboveFloor` | src/projectile.rs:83-88 | at or above the floor a tick moves the position by the old velocity and changes the velocity by exactly gravity + wind |
| `Projectiles.BounceIsReflection` | src/projectile.rs:83-85 | for a velocity in the x-y plane, the bounce keeps the speed, and bouncing twice gives the velocity back |
| `Projectiles.BounceGivesVector` | src/projectile.rs:83-87 | below the floor the bounced velocity has w = 0, so the next position keeps the current w |
| `Projectiles.SeededFirstTick` | src/projectile.rs:41-48 | from the demo's seed, one tick gives position point(1, 2, 0) and velocity vector(1.01, 0.9, 0) |
| `MinimalTuple.IsPoint` | src/ds.rs:9-11 | `is_point` holds exactly when w is exactly 1, so a point is fixed by its x, y, z |
| `MinimalTuple.IsVector` | src/ds.rs:13-15 | `is_vector` holds exactly when w ≠ 1, so every tuple is exactly one of point and vector |
| `MinimalTuple.AgreesWithFullTuple` | src/ds.rs:9-15 | the minimal tuple's `is_point` and `is_vector` agree with the full tuple's on every value |
| `TupleExamples.TupleWithW1IsPoint` | src/tuple.rs:107-115 | (4.3, −4.2, 3.1, 1) keeps its components, is a point and is not a vector |
| `TupleExamples.TupleWithW0IsVector` | src/tuple.rs:118-126 | (4.3, −4.2, 3.1, 0) keeps its components, is a vector and is not a point |
| `TupleExamples.AddingTwoTuples` | src/tuple.rs:129-134 | (3, −2, 5, 1) + (−2, 3, 1, 0) = point(1, 1, 6) |
| `TupleExamples.SubtractingTwoPoints` | src/tuple.rs:137-141 | point(3, 2, 1) − point(5, 6, 7) = vector(−2, −4, −6) |
| `TupleExamples.SubtractingVectorFromPoint` | src/tuple.rs:144-149 | point(3, 2, 1) − vector(5, 6, 7) = point(−2, −4, −6) |
| `TupleExamples.SubtractingTwoVectors` | src/tuple.rs:152-157 | vector(3, 2, 1) − vector(5, 6, 7) = vector(−2, −4, −6) |
| `TupleExamples.SubtractingFromZeroVector` | src/tuple.rs:160-165 | vector(0, 0, 0) − vector(1, −2, 3) = vector(−1, 2, −3) |
| `TupleExamples.NegatingATuple` | src/tuple.rs:168-172 | negate(1, −2, 3, −4) = (−1, 2, −3, 4) |
| `TupleExamples.ScalingExamples` | src/tuple.rs:175-193 | (1, −2, 3, −4) times 3.5 and 0.5, and divided by 2, give the tested tuples |
| `TupleExamples.MagnitudeOfUnitX` | src/tuple.rs:196-200 | vector(1, 0, 0) has magnitude 1 |
| `TupleExamples.NormalizingAVector` | src/tuple.rs:203-207 | normalising vector(4, 0, 0) gives vector(1, 0, 0) |
| `TupleExamples.NormalizingAnotherVector` | src/tuple.rs:210-224 | vector(1, 2, 3) has magnitude m with m² = 14; it normalises to vector(1/m, 2/m, 3/m), of magnitude 1 |
| `TupleExamples.DotProductOfTwoTuples` | src/tuple.rs:227-232 | vector(1, 2, 3) · vector(2, 3, 4) = 20 |
| `TupleExamples.CrossProductOfTwoVectors` | src/tuple.rs:235-239 | vector(1, 2, 3) × vector(2, 3, 4) = vector(−1, 2, −1) |
| `TupleExamples.CrossProductReversed` | src/tuple.rs:240 | vector(2, 3, 4) × vector(1, 2, 3) = vector(1, −2, 1) |

## Left out

- The demo's `main` (src/projectile.rs:23-80) is left out. It is window, canvas and event-loop
  I/O through the `sdl2` crate, plus a frame sleep, console output and float-to-pixel casts.
  Only its seed values and its first call to `tick` appear, in `Projectiles.SeededFirstTick`.
- Approximate equality (src/tuple.rs:11-18) is left out. It compares each component within
  100000000 units in the last place, using the `float_cmp` crate. That notion does not exist
  over reals, so tuples are compared exactly.
- IEEE double behaviour is left out: rounding, NaN and infinity propagation, and −0.0. In the
  source's tests, tuple-to-tuple comparisons are tolerant (they go through the approximate
  equality above), while scalar comparisons are exact f64 equality (src/tuple.rs:110-112,
  121-123, 199, 223, 231). Over reals the model's results are exact, and the normalisation of
  (1, 2, 3) is stated in terms of its exact magnitude rather than the 9-digit decimals of the
  test.
- `magnitude` (src/tuple.rs:81-83): reals have no square root here, so the model does not
  compute it. `Tuples.IsMagnitude(a, m)` characterises the value it returns: m ≥ 0 and m² is the
  sum of the four squares. Operations that use it, such as `Normalize`, take m as a parameter.
- Tuples.Div: requires a nonzero divisor. The source divides unguarded, and division by zero
  yields IEEE infinities or NaN, which reals cannot represent.
- Tuples.Normalize: requires a positive magnitude. For the zero tuple the source divides by
  zero, which is the IEEE case excluded above.
- `Environment` is a value, because `tick` only borrows it. That `tick` leaves it unchanged
  therefore holds by construction; aliasing through the borrow is not modelled.
