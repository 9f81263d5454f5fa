/**
 * A model of the 2D `Vector` value type: vector algebra, scaling and rotation
 * about a pivot, the two pseudo-3D axis rotations, and the two centre
 * computations over a collection of vectors.
 *
 * Coordinates are mathematical reals, so every operation is exact. No
 * operation changes its operands: each one returns a new vector, which is why
 * the whole type is a datatype and its transforms are functions.
 */
module Vectors {

  datatype Option<T> = None | Some(value: T)

  /** A point or displacement in the plane. */
  datatype Vector = Vector(x: real, y: real)

  /** A point in space, or one row of a 3x3 matrix, as the axis rotations use them. */
  datatype Vector3 = Vector3(x: real, y: real, z: real)

  const Origin := Vector(0.0, 0.0)

  //--------------------------------------------------------------------------
  // Operator functions (static in the source)
  //--------------------------------------------------------------------------

  /** `k` times `v`, componentwise. */
  function Scalar(k: real, v: Vector): Vector {
    Vector(k * v.x, k * v.y)
  }

  function Dot(a: Vector, b: Vector): real {
    a.x * b.x + a.y * b.y
  }

  function Add(a: Vector, b: Vector): Vector {
    Vector(a.x + b.x, a.y + b.y)
  }

  /** `a - b`, componentwise. */
  function Subtract(a: Vector, b: Vector): Vector {
    Vector(a.x - b.x, a.y - b.y)
  }

  lemma AddSubtractInverse(v: Vector, w: Vector)
    ensures Add(v, Subtract(w, v)) == w
    ensures Subtract(Add(v, w), w) == v
  {
  }

  lemma ScalarIsUniformScale(k: real, a: Vector, b: Vector)
    ensures Scalar(k, a) == Scaled(a, k, k)
    ensures Dot(Scalar(k, a), b) == k * Dot(a, b)
    ensures Scalar(k, Add(a, b)) == Add(Scalar(k, a), Scalar(k, b))
  {
  }

  lemma DotSymmetric(a: Vector, b: Vector)
    ensures Dot(a, b) == Dot(b, a)
  {
  }

  lemma DotSelfIsSquaredLength(v: Vector)
    ensures Dot(v, v) == SquaredLength(v)
  {
  }

  //--------------------------------------------------------------------------
  // Length, distance, normalisation (squared, as there is no square root)
  //--------------------------------------------------------------------------

  /** The square of the Euclidean norm, the quantity `length` takes the root of. */
  function SquaredLength(v: Vector): (r: real)
    ensures r >= 0.0
    ensures r == 0.0 <==> v == Origin
  {
    SquareSign(v.x);
    SquareSign(v.y);
    Sq(v.x) + Sq(v.y)
  }

  function Sq(a: real): real {
    a * a
  }

  function Product(a: real, b: real): real {
    a * b
  }

  lemma SquareSign(a: real)
    ensures Sq(a) >= 0.0
    ensures Sq(a) == 0.0 <==> a == 0.0
  {
    if a > 0.0 {
      ProductPositive(a, a);
    } else if a < 0.0 {
      ProductPositive(-a, -a);
      assert Sq(a) == Sq(-a);
    }
  }

  lemma ProductPositive(a: real, b: real)
    requires a > 0.0 && b > 0.0
    ensures Product(a, b) > 0.0
  {
  }

  /** The square of `distance`: the squared length of `a - b`. */
  function SquaredDistance(a: Vector, b: Vector): (r: real)
    ensures r >= 0.0
    ensures r == 0.0 <==> a == b
  {
    assert Subtract(a, b) == Origin <==> a == b;
    SquaredLength(Subtract(a, b))
  }

  lemma SquaredDistanceSymmetric(a: Vector, b: Vector)
    ensures SquaredDistance(a, b) == SquaredDistance(b, a)
  {
  }

  /**
   * `v` divided by its length. The length `len` is given by the caller, as the
   * non-negative root of the squared length; a zero vector has none that is
   * positive, which is where the source divides by zero.
   */
  function Normalized(v: Vector, len: real): (r: Vector)
    requires len > 0.0 && Sq(len) == SquaredLength(v)
    ensures SquaredLength(r) == 1.0
    ensures Scalar(len, r) == v
  {
    var r := Vector(v.x / len, v.y / len);
    DivideScaled(v.x, len);
    DivideScaled(v.y, len);
    SquareSign(len);
    assert SquaredLength(v) == Product(Sq(r.x) + Sq(r.y), Sq(len));
    CancelFactor(Sq(r.x) + Sq(r.y), Sq(len));
    r
  }

  /** Dividing by `len` and squaring divides the square by the square of `len`. */
  lemma DivideScaled(a: real, len: real)
    requires len != 0.0
    ensures (a / len) * len == a
    ensures Sq(a) == Sq(a / len) * Sq(len)
  {
    var q := a / len;
    assert q * len == a;
    assert Sq(q * len) == Sq(q) * Sq(len);
  }

  lemma CancelFactor(t: real, m: real)
    requires m != 0.0 && Product(t, m) == m
    ensures t == 1.0
  {
    assert m / m == 1.0;
    assert (t * m) / m == t;
  }

  //--------------------------------------------------------------------------
  // Transforms
  //--------------------------------------------------------------------------

  /** Independent per-axis scale about the origin. */
  function Scaled(v: Vector, xScale: real, yScale: real): Vector {
    Vector(xScale * v.x, yScale * v.y)
  }

  /**
   * Scale about the pivot `center`: move `center` to the origin, scale, move
   * back. Despite its name it returns a new vector.
   */
  function ScaledInPlace(v: Vector, xScale: real, yScale: real, center: Vector): Vector {
    var centered := Subtract(v, center);
    var scaled := Scaled(centered, xScale, yScale);
    Vector(scaled.x + center.x, scaled.y + center.y)
  }

  lemma ScaledIdentity(v: Vector)
    ensures Scaled(v, 1.0, 1.0) == v
  {
  }

  lemma ScaledCompose(v: Vector, a: real, b: real, c: real, d: real)
    ensures Scaled(Scaled(v, a, b), c, d) == Scaled(v, c * a, d * b)
  {
  }

  lemma ScaledInPlaceAboutPivot(v: Vector, xScale: real, yScale: real, center: Vector)
    ensures ScaledInPlace(v, xScale, yScale, center)
         == Add(Scaled(Subtract(v, center), xScale, yScale), center)
    ensures ScaledInPlace(center, xScale, yScale, center) == center
    ensures ScaledInPlace(v, xScale, yScale, Origin) == Scaled(v, xScale, yScale)
    ensures ScaledInPlace(v, 1.0, 1.0, center) == v
  {
  }

  /**
   * Rotation about the origin by the angle whose cosine is `cos` and whose
   * sine is `sin`: the matrix [cos, -sin; sin, cos] applied to `v`.
   */
  function Rotated(v: Vector, cos: real, sin: real): Vector {
    Vector(v.x * cos - v.y * sin, v.x * sin + v.y * cos)
  }

  /** Rotation about the pivot `center`; returns a new vector. */
  function RotatedInPlace(v: Vector, cos: real, sin: real, center: Vector): Vector {
    var centered := Subtract(v, center);
    var rotated := Rotated(centered, cos, sin);
    Add(rotated, center)
  }

  /** A rotation keeps the dot product of any two vectors, hence lengths. */
  lemma RotatedPreservesDot(a: Vector, b: Vector, cos: real, sin: real)
    requires cos * cos + sin * sin == 1.0
    ensures Dot(Rotated(a, cos, sin), Rotated(b, cos, sin)) == Dot(a, b)
    ensures SquaredLength(Rotated(a, cos, sin)) == SquaredLength(a)
  {
    var ra, rb := Rotated(a, cos, sin), Rotated(b, cos, sin);
    calc {
      Dot(ra, rb);
      (a.x * cos - a.y * sin) * (b.x * cos - b.y * sin)
        + (a.x * sin + a.y * cos) * (b.x * sin + b.y * cos);
      a.x * b.x * (cos * cos + sin * sin) + a.y * b.y * (cos * cos + sin * sin);
      Dot(a, b);
    }
    DotSelfIsSquaredLength(a);
    DotSelfIsSquaredLength(ra);
  }

  /** The angle 0 (cosine 1, sine 0) leaves every vector where it is. */
  lemma RotatedIdentity(v: Vector)
    ensures Rotated(v, 1.0, 0.0) == v
  {
  }

  /**
   * Rotating by an angle and then by a second one is rotating by their sum
   * (the addition formulas for cosine and sine).
   */
  lemma RotatedCompose(v: Vector, c1: real, s1: real, c2: real, s2: real)
    ensures Rotated(Rotated(v, c1, s1), c2, s2) == Rotated(v, c2 * c1 - s2 * s1, s2 * c1 + c2 * s1)
  {
    var r := Rotated(Rotated(v, c1, s1), c2, s2);
    assert r.x == (v.x * c1 - v.y * s1) * c2 - (v.x * s1 + v.y * c1) * s2;
    assert r.y == (v.x * c1 - v.y * s1) * s2 + (v.x * s1 + v.y * c1) * c2;
  }

  /**
   * Rotating by the negated angle (same cosine, negated sine) undoes a
   * rotation.
   */
  lemma RotatedInverse(v: Vector, cos: real, sin: real)
    requires cos * cos + sin * sin == 1.0
    ensures Rotated(Rotated(v, cos, sin), cos, -sin) == v
  {
    RotatedCompose(v, cos, sin, cos, -sin);
    assert cos * cos - (-sin) * sin == 1.0;
    assert (-sin) * cos + cos * sin == 0.0;
    RotatedIdentity(v);
  }

  lemma RotatedInPlaceAboutPivot(v: Vector, cos: real, sin: real, center: Vector)
    ensures RotatedInPlace(center, cos, sin, center) == center
    ensures RotatedInPlace(v, cos, sin, Origin) == Rotated(v, cos, sin)
    ensures RotatedInPlace(v, 1.0, 0.0, center) == v
  {
  }

  /** A rotation about a pivot keeps the distance to the pivot and is undone by the negated angle. */
  lemma RotatedInPlaceIsometry(v: Vector, cos: real, sin: real, center: Vector)
    requires cos * cos + sin * sin == 1.0
    ensures SquaredDistance(RotatedInPlace(v, cos, sin, center), center) == SquaredDistance(v, center)
    ensures RotatedInPlace(RotatedInPlace(v, cos, sin, center), cos, -sin, center) == v
  {
    var d := Subtract(v, center);
    RotatedPreservesDot(d, d, cos, sin);
    AddSubtractInverse(center, Rotated(d, cos, sin));
    assert Subtract(RotatedInPlace(v, cos, sin, center), center) == Rotated(d, cos, sin);
    RotatedInverse(d, cos, sin);
  }

  //--------------------------------------------------------------------------
  // Pseudo-3D axis rotations
  //--------------------------------------------------------------------------

  function Dot3(a: Vector3, b: Vector3): real {
    a.x * b.x + a.y * b.y + a.z * b.z
  }

  /** The matrix with rows `m1`, `m2`, `m3` applied to `p`. */
  function Apply(m1: Vector3, m2: Vector3, m3: Vector3, p: Vector3): Vector3 {
    Vector3(Dot3(m1, p), Dot3(m2, p), Dot3(m3, p))
  }

  /** `v` less `center`, or `v` itself when there is no center. */
  function Centered(v: Vector, center: Option<Vector>): Vector {
    match center
    case Some(c) => Subtract(v, c)
    case None => v
  }

  /** `v` plus `center`, or `v` itself when there is no center. */
  function Uncentered(v: Vector, center: Option<Vector>): Vector {
    match center
    case Some(c) => Add(v, c)
    case None => v
  }

  /**
   * The rotation about the X axis applied to (p.x, p.y, 0), with the
   * resulting z dropped.
   */
  function ProjectedXRotation(p: Vector, cos: real, sin: real): (r: Vector)
    ensures r == Vector(p.x, p.y * cos)
  {
    var n := Apply(Vector3(1.0, 0.0, 0.0), Vector3(0.0, cos, -sin), Vector3(0.0, sin, cos),
                   Vector3(p.x, p.y, 0.0));
    Vector(n.x, n.y)
  }

  /**
   * The rotation about the Y axis applied to (p.x, p.y, 0), with the
   * resulting z dropped.
   */
  function ProjectedYRotation(p: Vector, cos: real, sin: real): (r: Vector)
    ensures r == Vector(p.x * cos, p.y)
  {
    var n := Apply(Vector3(cos, 0.0, sin), Vector3(0.0, 1.0, 0.0), Vector3(-sin, 0.0, cos),
                   Vector3(p.x, p.y, 0.0));
    Vector(n.x, n.y)
  }

  /**
   * Rotation about the X axis through `center` (the origin when there is
   * none), seen in the plane: the point is centered, rotated as (x, y, 0),
   * its z dropped, and moved back.
   */
  function RotateAboutXAxis(v: Vector, cos: real, sin: real, center: Option<Vector>): (r: Vector)
    ensures r.x == v.x
    ensures center.None? ==> r.y == v.y * cos
    ensures center.Some? ==> r.y == (v.y - center.value.y) * cos + center.value.y
  {
    Uncentered(ProjectedXRotation(Centered(v, center), cos, sin), center)
  }

  /**
   * Rotation about the Y axis through `center` (the origin when there is
   * none), seen in the plane: the point is centered, rotated as (x, y, 0),
   * its z dropped, and moved back.
   */
  function RotateAboutYAxis(v: Vector, cos: real, sin: real, center: Option<Vector>): (r: Vector)
    ensures r.y == v.y
    ensures center.None? ==> r.x == v.x * cos
    ensures center.Some? ==> r.x == (v.x - center.value.x) * cos + center.value.x
  {
    Uncentered(ProjectedYRotation(Centered(v, center), cos, sin), center)
  }

  /** With a pivot, the X-axis rotation is the origin version conjugated by the pivot. */
  lemma RotateAboutXAxisPivot(v: Vector, cos: real, sin: real, c: Vector)
    ensures RotateAboutXAxis(v, cos, sin, Some(c))
         == Add(RotateAboutXAxis(Subtract(v, c), cos, sin, None), c)
  {
  }

  /** With a pivot, the Y-axis rotation is the origin version conjugated by the pivot. */
  lemma RotateAboutYAxisPivot(v: Vector, cos: real, sin: real, c: Vector)
    ensures RotateAboutYAxis(v, cos, sin, Some(c))
         == Add(RotateAboutYAxis(Subtract(v, c), cos, sin, None), c)
  {
  }

  /**
   * Dropping z loses information: at a quarter turn (cosine 0) two different
   * points with the same x land on the same point, whatever the sine.
   */
  lemma AxisRotationIsLossy(sin: real, center: Option<Vector>)
    ensures RotateAboutXAxis(Vector(3.0, 4.0), 0.0, sin, center)
         == RotateAboutXAxis(Vector(3.0, -4.0), 0.0, sin, center)
    ensures RotateAboutYAxis(Vector(3.0, 4.0), 0.0, sin, center)
         == RotateAboutYAxis(Vector(-3.0, 4.0), 0.0, sin, center)
  {
  }

  /** (3, 4) rotated a quarter turn about the X axis through the origin is (3, 0). */
  lemma RotateAboutXAxisQuarterTurn()
    ensures RotateAboutXAxis(Vector(3.0, 4.0), 0.0, 1.0, None) == Vector(3.0, 0.0)
  {
  }

  //--------------------------------------------------------------------------
  // Centres of a collection of vectors
  //--------------------------------------------------------------------------

  /** The x coordinates of `vs`, in order. */
  function Xs(vs: seq<Vector>): (r: seq<real>)
    ensures |r| == |vs| && forall i :: 0 <= i < |vs| ==> r[i] == vs[i].x
  {
    seq(|vs|, i requires 0 <= i < |vs| => vs[i].x)
  }

  /** The y coordinates of `vs`, in order. */
  function Ys(vs: seq<Vector>): (r: seq<real>)
    ensures |r| == |vs| && forall i :: 0 <= i < |vs| ==> r[i] == vs[i].y
  {
    seq(|vs|, i requires 0 <= i < |vs| => vs[i].y)
  }

  /** The least element of a non-empty sequence, taken left to right. */
  function Lo(s: seq<real>): real
    requires |s| > 0
  {
    if |s| == 1 then s[0]
    else
      var m := Lo(s[..|s| - 1]);
      if s[|s| - 1] < m then s[|s| - 1] else m
  }

  /** The greatest element of a non-empty sequence, taken left to right. */
  function Hi(s: seq<real>): real
    requires |s| > 0
  {
    if |s| == 1 then s[0]
    else
      var m := Hi(s[..|s| - 1]);
      if s[|s| - 1] > m then s[|s| - 1] else m
  }

  /** Lo and Hi are elements of the sequence that bound all the others. */
  lemma {:induction false} LoHiBounds(s: seq<real>)
    requires |s| > 0
    ensures Lo(s) in s && forall i :: 0 <= i < |s| ==> Lo(s) <= s[i]
    ensures Hi(s) in s && forall i :: 0 <= i < |s| ==> s[i] <= Hi(s)
  {
    if |s| > 1 {
      var p := s[..|s| - 1];
      LoHiBounds(p);
      assert forall i :: 0 <= i < |p| ==> p[i] == s[i];
    }
  }

  /** The sum of a sequence, taken left to right. */
  function Sum(s: seq<real>): real {
    if |s| == 0 then 0.0 else Sum(s[..|s| - 1]) + s[|s| - 1]
  }

  /** How Lo, Hi and Sum of a prefix grow by one more element. */
  lemma PrefixStep(s: seq<real>, i: nat)
    requires i < |s|
    ensures Lo(s[..1]) == s[0] && Hi(s[..1]) == s[0]
    ensures i > 0 ==> Lo(s[..i + 1]) == (if s[i] < Lo(s[..i]) then s[i] else Lo(s[..i]))
    ensures i > 0 ==> Hi(s[..i + 1]) == (if s[i] > Hi(s[..i]) then s[i] else Hi(s[..i]))
    ensures Sum(s[..i + 1]) == Sum(s[..i]) + s[i]
  {
    assert s[..i + 1][..i] == s[..i];
  }

  /** The midpoint of the axis-aligned bounding box, or None for no vectors. */
  function BoundingBoxCenter(vs: seq<Vector>): Option<Vector> {
    if |vs| == 0 then None
    else Some(Vector((Lo(Xs(vs)) + Hi(Xs(vs))) / 2.0, (Lo(Ys(vs)) + Hi(Ys(vs))) / 2.0))
  }

  /** The arithmetic mean of a non-empty collection of vectors. */
  function Centroid(vs: seq<Vector>): Vector
    requires |vs| > 0
  {
    Vector(Sum(Xs(vs)) / |vs| as real, Sum(Ys(vs)) / |vs| as real)
  }

  /**
   * Running minimum and maximum of both coordinates; returns the midpoint
   * of the bounding box, or None for an empty input.
   */
  method GetCenter(vs: seq<Vector>) returns (r: Option<Vector>)
    ensures r == BoundingBoxCenter(vs)
  {
    if |vs| == 0 {
      return None;
    }
    ghost var xs, ys := Xs(vs), Ys(vs);
    var x1, y1, x2, y2 := vs[0].x, vs[0].y, vs[0].x, vs[0].y;
    for i := 0 to |vs|
      invariant i == 0 ==> x1 == x2 == vs[0].x && y1 == y2 == vs[0].y
      invariant i > 0 ==> x1 == Lo(xs[..i]) && x2 == Hi(xs[..i])
      invariant i > 0 ==> y1 == Lo(ys[..i]) && y2 == Hi(ys[..i])
    {
      PrefixStep(xs, i);
      PrefixStep(ys, i);
      var curX, curY := vs[i].x, vs[i].y;
      if curX < x1 {
        x1 := curX;
      }
      if curX > x2 {
        x2 := curX;
      }
      if curY < y1 {
        y1 := curY;
      }
      if curY > y2 {
        y2 := curY;
      }
    }
    assert xs[..|vs|] == xs && ys[..|vs|] == ys;
    r := Some(Vector((x1 + x2) * 0.5, (y1 + y2) * 0.5));
  }

  /** Running sums of both coordinates, divided by the number of vectors. */
  method GetWeightedCenter(vs: seq<Vector>) returns (r: Vector)
    requires |vs| > 0
    ensures r == Centroid(vs)
  {
    ghost var xs, ys := Xs(vs), Ys(vs);
    var x, y := 0.0, 0.0;
    for i := 0 to |vs|
      invariant x == Sum(xs[..i]) && y == Sum(ys[..i])
    {
      PrefixStep(xs, i);
      PrefixStep(ys, i);
      x := x + vs[i].x;
      y := y + vs[i].y;
    }
    assert xs[..|vs|] == xs && ys[..|vs|] == ys;
    x := x / |vs| as real;
    y := y / |vs| as real;
    r := Vector(x, y);
  }

  /** The bounding-box center is None exactly for the empty input. */
  lemma BoundingBoxCenterEmpty(vs: seq<Vector>)
    ensures BoundingBoxCenter(vs).None? <==> |vs| == 0
  {
  }

  /**
   * The bounding-box center lies inside the bounding box: each coordinate is
   * at least that of some input and at most that of some input.
   */
  lemma BoundingBoxCenterInBox(vs: seq<Vector>)
    requires |vs| > 0
    ensures BoundingBoxCenter(vs).Some?
    ensures exists i :: 0 <= i < |vs| && vs[i].x <= BoundingBoxCenter(vs).value.x
    ensures exists i :: 0 <= i < |vs| && BoundingBoxCenter(vs).value.x <= vs[i].x
    ensures exists i :: 0 <= i < |vs| && vs[i].y <= BoundingBoxCenter(vs).value.y
    ensures exists i :: 0 <= i < |vs| && BoundingBoxCenter(vs).value.y <= vs[i].y
  {
    var c := BoundingBoxCenter(vs).value;
    var xs, ys := Xs(vs), Ys(vs);
    LoHiBounds(xs);
    LoHiBounds(ys);
    var i :| 0 <= i < |vs| && xs[i] == Lo(xs);
    var j :| 0 <= j < |vs| && xs[j] == Hi(xs);
    var k :| 0 <= k < |vs| && ys[k] == Lo(ys);
    var l :| 0 <= l < |vs| && ys[l] == Hi(ys);
    assert Lo(xs) <= xs[0] <= Hi(xs) && Lo(ys) <= ys[0] <= Hi(ys);
    assert vs[i].x <= c.x <= vs[j].x;
    assert vs[k].y <= c.y <= vs[l].y;
  }

  /** A single vector is its own bounding-box center and its own centroid. */
  lemma CentersOfSingleton(v: Vector)
    ensures BoundingBoxCenter([v]) == Some(v)
    ensures Centroid([v]) == v
  {
    assert Xs([v]) == [v.x] && Ys([v]) == [v.y];
    PrefixStep([v.x], 0);
    PrefixStep([v.y], 0);
    assert [v.x][..1] == [v.x] && [v.y][..1] == [v.y];
  }

  lemma ProductOrder(n: real, a: real, b: real)
    requires n > 0.0
    ensures a <= b <==> Product(n, a) <= Product(n, b)
  {
    assert Product(n, b) - Product(n, a) == n * (b - a);
    if a < b {
      ProductPositive(n, b - a);
    } else if b < a {
      ProductPositive(n, a - b);
    }
  }

  /** Length times least element <= Sum <= length times greatest element. */
  lemma {:induction false} SumBounds(s: seq<real>)
    requires |s| > 0
    ensures Product(|s| as real, Lo(s)) <= Sum(s) <= Product(|s| as real, Hi(s))
  {
    var n := |s| - 1;
    if n > 0 {
      var p := s[..n];
      SumBounds(p);
      assert s[..n + 1] == s;
      PrefixStep(s, n);
      assert Lo(s) <= Lo(p) && Lo(s) <= s[n];
      assert Hi(p) <= Hi(s) && s[n] <= Hi(s);
      ProductOrder(n as real, Lo(s), Lo(p));
      ProductOrder(n as real, Hi(p), Hi(s));
      ProductSucc(n as real, Lo(s));
      ProductSucc(n as real, Hi(s));
    }
  }

  lemma ProductSucc(n: real, a: real)
    ensures Product(n + 1.0, a) == Product(n, a) + a
  {
  }

  /** The centroid lies between the least and the greatest coordinates. */
  lemma CentroidInBox(vs: seq<Vector>)
    requires |vs| > 0
    ensures Lo(Xs(vs)) <= Centroid(vs).x <= Hi(Xs(vs))
    ensures Lo(Ys(vs)) <= Centroid(vs).y <= Hi(Ys(vs))
  {
    var n := |vs| as real;
    SumBounds(Xs(vs));
    SumBounds(Ys(vs));
    MeanBounds(Lo(Xs(vs)), Sum(Xs(vs)), Hi(Xs(vs)), n);
    MeanBounds(Lo(Ys(vs)), Sum(Ys(vs)), Hi(Ys(vs)), n);
  }

  lemma MeanBounds(lo: real, sum: real, hi: real, n: real)
    requires n > 0.0 && Product(n, lo) <= sum <= Product(n, hi)
    ensures lo <= sum / n <= hi
  {
    var q := sum / n;
    assert Product(n, q) == sum;
    ProductOrder(n, lo, q);
    ProductOrder(n, q, hi);
  }

  /** The four corners of a square of side 4: both centres are (2, 2). */
  lemma CentersOfSquare()
    ensures BoundingBoxCenter([Vector(0.0, 0.0), Vector(4.0, 0.0), Vector(0.0, 4.0), Vector(4.0, 4.0)])
         == Some(Vector(2.0, 2.0))
    ensures Centroid([Vector(0.0, 0.0), Vector(4.0, 0.0), Vector(0.0, 4.0), Vector(4.0, 4.0)])
         == Vector(2.0, 2.0)
  {
    var a := [Vector(0.0, 0.0), Vector(4.0, 0.0), Vector(0.0, 4.0), Vector(4.0, 4.0)];
    var xs, ys := [0.0, 4.0, 0.0, 4.0], [0.0, 0.0, 4.0, 4.0];
    assert Xs(a) == xs && Ys(a) == ys;
    PrefixSteps4(xs);
    PrefixSteps4(ys);
  }

  /** The corners of a square of side 2 have centroid (1, 1). */
  lemma CentroidOfUnitSquare()
    ensures Centroid([Vector(0.0, 0.0), Vector(2.0, 0.0), Vector(0.0, 2.0), Vector(2.0, 2.0)])
         == Vector(1.0, 1.0)
  {
    var a := [Vector(0.0, 0.0), Vector(2.0, 0.0), Vector(0.0, 2.0), Vector(2.0, 2.0)];
    var xs, ys := [0.0, 2.0, 0.0, 2.0], [0.0, 0.0, 2.0, 2.0];
    assert Xs(a) == xs && Ys(a) == ys;
    PrefixSteps4(xs);
    PrefixSteps4(ys);
  }

  /** On a skewed set the two centres differ: (1.5, 0) against (1, 0). */
  lemma CentersDiffer()
    ensures BoundingBoxCenter([Vector(0.0, 0.0), Vector(0.0, 0.0), Vector(3.0, 0.0)])
         == Some(Vector(1.5, 0.0))
    ensures Centroid([Vector(0.0, 0.0), Vector(0.0, 0.0), Vector(3.0, 0.0)])
         == Vector(1.0, 0.0)
  {
    var a := [Vector(0.0, 0.0), Vector(0.0, 0.0), Vector(3.0, 0.0)];
    var xs, ys := [0.0, 0.0, 3.0], [0.0, 0.0, 0.0];
    assert Xs(a) == xs && Ys(a) == ys;
    PrefixStep(xs, 0);
    PrefixStep(xs, 1);
    PrefixStep(xs, 2);
    PrefixStep(ys, 0);
    PrefixStep(ys, 1);
    PrefixStep(ys, 2);
    assert xs[..3] == xs && ys[..3] == ys;
    assert xs[..0] == [] && ys[..0] == [];
  }

  /** Unfolds Lo, Hi and Sum along every prefix of a four-element sequence. */
  lemma PrefixSteps4(s: seq<real>)
    requires |s| == 4
    ensures Lo(s) == Min(Min(Min(s[0], s[1]), s[2]), s[3])
    ensures Hi(s) == Max(Max(Max(s[0], s[1]), s[2]), s[3])
    ensures Sum(s) == s[0] + s[1] + s[2] + s[3]
  {
    PrefixStep(s, 0);
    PrefixStep(s, 1);
    PrefixStep(s, 2);
    PrefixStep(s, 3);
    assert s[..4] == s;
    assert s[..0] == [];
  }

  function Min(a: real, b: real): real {
    if b < a then b else a
  }

  function Max(a: real, b: real): real {
    if b > a then b else a
  }
}
