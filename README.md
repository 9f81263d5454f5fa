# vector.js in Dafny

This project models `vector.js`, a small JavaScript library with one class, the 2D
`Vector`. The class offers the following.

- **Operators.** `add`, `subtract`, `scalar` and `dot` are static.
- **Measures.** `length`, `distance` and `normalized`.
- **Transforms.** These return new vectors:
  - `scaled` and `scaledInPlace` scale about the origin or about a pivot;
  - `rotated` and `rotatedInPlace` rotate about the origin or about a pivot;
  - `rotateAboutXAxis` and `rotateAboutYAxis` are two pseudo-3D rotations that treat the
    point as `(x, y, 0)`, apply a 3x3 rotation matrix and drop `z`.
- **Centres.** `getCenter` gives the midpoint of the bounding box of an array of vectors,
  or `null` for an empty array. `getWeightedCenter` gives their arithmetic mean.

Everything is in the module `Vectors` in `vector.dfy`.

- **Data.** A vector is the datatype `Vector(x: real, y: real)`, because no operation of
  the class updates `this`. Each one builds and returns a new vector, so the operands of
  every call are unchanged by construction.
- **Pure operations.** These become functions. The properties the library relies on are
  lemmas about them:
  - add and subtract are inverse;
  - scale and rotation about a pivot are the origin versions conjugated by the pivot,
    and they fix the pivot;
  - rotations keep dot products and compose by the angle-addition formulas;
  - the axis rotations change one coordinate only.
- **Loops.** `getCenter` and `getWeightedCenter` are loops in the source, so they are
  methods with `for` loops. Each is proved equal to a specification function:
  - `BoundingBoxCenter` is the least and greatest coordinates, halved;
  - `Centroid` is the coordinate sums divided by the count.

  Lemmas then show what those functions promise: the result lies in the bounding box, a
  single vector is its own centre, and the empty input has none.
- **Angles.** An angle is passed as its cosine and sine. Rotating by the negated angle is
  passing `(cos, -sin)`.
- **The optional `center`.** The axis rotations take an `Option<Vector>`. `None` stands
  for the default `null`.

## Model

| member | source | states |
|---|---|---|
| Vectors.AddSubtractInverse | vector.js:218-230 | adding `w - v` to `v` gives `w`, and subtracting `w` from `v + w` gives `v` |
| Vectors.ScalarIsUniformScale | vector.js:198-200 | `scalar(k, a)` is `a.scaled(k, k)`, is linear in the dot product, and distributes over `add` |
| Vectors.DotSymmetric | vector.js:208-210 | `dot(a, b) == dot(b, a)` |
| Vectors.DotSelfIsSquaredLength | vector.js:25-29 | `dot(v, v)` is `x² + y²`, the quantity `length` takes the root of |
| Vectors.SquaredLength | vector.js:25-29 | the squared length is non-negative and is zero exactly for the zero vector |
| Vectors.SquaredDistance | vector.js:18-21 | the squared distance is non-negative and is zero exactly when the two vectors are equal |
| Vectors.SquaredDistanceSymmetric | vector.js:18-21 | the distance from `a` to `b` equals the distance from `b` to `a` |
| Vectors.Normalized | vector.js:11-16 | given the length of a non-zero vector, the normalized vector has length 1, and scaling it by the length gives back the input |
| Vectors.ScaledIdentity | vector.js:36-38 | `scaled(1, 1)` is the identity |
| Vectors.ScaledCompose | vector.js:36-38 | scaling twice multiplies the per-axis factors |
| Vectors.ScaledInPlaceAboutPivot | vector.js:40-44 | `scaledInPlace(sx, sy, c)` is `add(scaled(subtract(v, c), sx, sy), c)`; it maps `c` to itself, is `scaled` for the origin as pivot, and is the identity for factors 1, 1 |
| Vectors.RotatedPreservesDot | vector.js:46-51 | when `cos² + sin² == 1`, the rotation keeps the dot product of any two vectors, and hence lengths |
| Vectors.RotatedIdentity | vector.js:46-51 | the angle 0 leaves every vector unchanged |
| Vectors.RotatedCompose | vector.js:46-51 | two rotations are one rotation by the sum of the angles, by the cosine and sine addition formulas |
| Vectors.RotatedInverse | vector.js:46-51 | rotating by the negated angle undoes a rotation |
| Vectors.RotatedInPlaceAboutPivot | vector.js:53-57 | `rotatedInPlace` maps `center` to itself, is `rotated` for the origin as pivot, and is the identity for the angle 0 |
| Vectors.RotatedInPlaceIsometry | vector.js:53-57 | a rotation about a pivot keeps the distance to the pivot and is undone by the negated angle about the same pivot |
| Vectors.ProjectedXRotation | vector.js:75-88 | the X-axis matrix applied to `(x, y, 0)`, with `z` dropped, is `(x, y·cos)` |
| Vectors.RotateAboutXAxis | vector.js:65-94 | keeps `x`; maps `y` to `y·cos` with no center, and to `(y - cy)·cos + cy` with a center |
| Vectors.RotateAboutXAxisPivot | vector.js:65-94 | with a center, the result is the no-center rotation of `v - c`, moved back by `c` |
| Vectors.RotateAboutXAxisQuarterTurn | vector.js:65-94 | a quarter turn about the X axis takes `(3, 4)` to `(3, 0)` |
| Vectors.ProjectedYRotation | vector.js:112-125 | the Y-axis matrix applied to `(x, y, 0)`, with `z` dropped, is `(x·cos, y)` |
| Vectors.RotateAboutYAxis | vector.js:102-131 | keeps `y`; maps `x` to `x·cos` with no center, and to `(x - cx)·cos + cx` with a center |
| Vectors.RotateAboutYAxisPivot | vector.js:102-131 | with a center, the result is the no-center rotation of `v - c`, moved back by `c` |
| Vectors.AxisRotationIsLossy | vector.js:65-131 | dropping `z` is not invertible: at cosine 0, two different points land on the same point under each axis rotation, whatever the sine and center |
| Vectors.GetCenter | vector.js:141-169 | the running minimum and maximum loop returns `None` for an empty input, and otherwise the midpoint of the bounding box |
| Vectors.GetWeightedCenter | vector.js:175-187 | the running-sum loop, divided by the count, returns the arithmetic mean of a non-empty input |
| Vectors.LoHiBounds | vector.js:150-166 | the least and greatest values the loop settles on are elements of the input that bound every element |
| Vectors.SumBounds | vector.js:178-184 | the sum lies between the count times the least element and the count times the greatest |
| Vectors.BoundingBoxCenterEmpty | vector.js:142-144 | the bounding-box centre is absent exactly for the empty input |
| Vectors.BoundingBoxCenterInBox | vector.js:146-168 | for a non-empty input, each coordinate of the centre is at least that of some input and at most that of some input |
| Vectors.CentroidInBox | vector.js:175-187 | each coordinate of the mean lies between the least and the greatest input coordinate |
| Vectors.CentersOfSingleton | vector.js:141-187 | a single vector is its own bounding-box centre and its own mean |
| Vectors.CentersOfSquare | vector.js:141-187 | both centres of the corners of a 4 by 4 square are `(2, 2)` |
| Vectors.CentroidOfUnitSquare | vector.js:175-187 | the mean of the corners of a 2 by 2 square is `(1, 1)` |
| Vectors.CentersDiffer | vector.js:141-187 | on `[(0,0), (0,0), (3,0)]` the bounding-box centre is `(1.5, 0)` but the mean is `(1, 0)` |

## Left out

- **Floating point.** Coordinates are mathematical reals. IEEE rounding, overflow to
  Infinity and NaN propagation are not modelled.
- **Trigonometry.** `Math.cos`, `Math.sin`, `Math.PI` and the degree-to-radian conversion
  in `rotated`, `rotateAboutXAxis` and `rotateAboutYAxis` are not modelled. Every rotation
  takes the cosine and sine of its angle as parameters instead.
  - The lemmas that need a genuine angle require `cos² + sin² == 1`.
  - A negated angle is written `(cos, -sin)`.
- **Square roots.** Dafny has none, so `length` and `distance` are modelled as their
  squares, `SquaredLength` and `SquaredDistance`.
- Normalized: takes the length as a parameter and requires it to be the positive root of
  the squared length. It therefore excludes the zero vector, where the source divides by
  zero and returns NaN components.
- GetWeightedCenter: requires a non-empty input. On an empty array the source divides
  0 by 0 and returns a vector of NaNs, which reals cannot represent.
- **`toStr`.** It formats JavaScript numbers for debugging and is left out.
- **Truthiness.** `if (center)` is modelled as `Some` against `None`. Any `Vector`
  object is truthy, so this is exact for vector and `null` arguments. Arguments of other
  types are not modelled.
- RotateAboutXAxis, RotateAboutYAxis: the contracts describe the plane coordinates only.
  The third coordinate the matrix computes (vector.js:86, vector.js:123) is discarded by
  the source and is not part of the model.
