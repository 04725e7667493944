/** Points in feature space and the arithmetic the script builds on them:
    coordinate sums, component-wise means and squared Euclidean distances,
    all over exact reals. */
module Vectors {
  /** A feature vector or a centroid. */
  type Point = seq<real>

  /** Coordinate i of p as the script reads it: PHP yields null for a missing
      index, and null counts as 0 in arithmetic. */
  function Coord(p: Point, i: int): real
  {
    if 0 <= i < |p| then p[i] else 0.0
  }

  /** The sum of coordinate i over ps. */
  function SumCoord(ps: seq<Point>, i: int): real
  {
    if ps == [] then 0.0 else SumCoord(ps[..|ps| - 1], i) + Coord(ps[|ps| - 1], i)
  }

  /** The component-wise mean of ps over its first dim coordinates. */
  function Mean(ps: seq<Point>, dim: nat): (c: Point)
    requires ps != []
    ensures |c| == dim
  {
    seq(dim, i requires 0 <= i < dim => SumCoord(ps, i) / |ps| as real)
  }

  function Square(x: real): real
  {
    x * x
  }

  /** The squared distance from p to c over the first n coordinates. */
  function SqDistUpTo(p: Point, c: Point, n: nat): real
  {
    if n == 0 then 0.0 else SqDistUpTo(p, c, n - 1) + Square(Coord(p, n - 1) - Coord(c, n - 1))
  }

  /** The squared Euclidean distance from p to c, over the coordinates of p
      (the bound of every distance loop in the script). */
  function SqDist(p: Point, c: Point): real
  {
    SqDistUpTo(p, c, |p|)
  }

  /** The sum of the squared distances from each of ps to c. */
  function SumSq(ps: seq<Point>, c: Point): real
  {
    if ps == [] then 0.0 else SumSq(ps[..|ps| - 1], c) + SqDist(ps[|ps| - 1], c)
  }

  /** The distance loop: the squared differences over the coordinates of p. */
  method SquaredDistance(p: Point, c: Point) returns (dist: real)
    ensures dist == SqDist(p, c)
    ensures dist >= 0.0
  {
    dist := 0.0;
    var i := 0;
    while i < |p|
      invariant 0 <= i <= |p|
      invariant dist == SqDistUpTo(p, c, i)
    {
      dist := dist + Square(p[i] - Coord(c, i));
      i := i + 1;
    }
    SqDistUpToNonNegative(p, c, |p|);
  }

  lemma SumCoordSnoc(ps: seq<Point>, p: Point, i: int)
    ensures SumCoord(ps + [p], i) == SumCoord(ps, i) + Coord(p, i)
  {
    assert (ps + [p])[..|ps|] == ps;
  }

  lemma SumSqSnoc(ps: seq<Point>, p: Point, c: Point)
    ensures SumSq(ps + [p], c) == SumSq(ps, c) + SqDist(p, c)
  {
    assert (ps + [p])[..|ps|] == ps;
  }

  lemma {:induction false} SqDistUpToNonNegative(p: Point, c: Point, n: nat)
    ensures SqDistUpTo(p, c, n) >= 0.0
  {
    if n > 0 {
      SqDistUpToNonNegative(p, c, n - 1);
      var d := Coord(p, n - 1) - Coord(c, n - 1);
      assert Square(d) >= 0.0 by {
        if d < 0.0 { assert Square(d) == (-d) * (-d); }
      }
    }
  }

  /** A sum of squared distances is never negative. */
  lemma {:induction false} SumSqNonNegative(ps: seq<Point>, c: Point)
    ensures SumSq(ps, c) >= 0.0
  {
    if ps != [] {
      SumSqNonNegative(ps[..|ps| - 1], c);
      SqDistUpToNonNegative(ps[|ps| - 1], c, |ps[|ps| - 1]|);
    }
  }

  // ---------------------------------------------------------------------
  // The mean is the point that minimises the sum of squared distances:
  // this is what makes the centroid the right reference point for WCSS.
  // ---------------------------------------------------------------------

  /** Sum over ps of the deviation of coordinate i from x. */
  function Dev(ps: seq<Point>, i: int, x: real): real
  {
    if ps == [] then 0.0 else Dev(ps[..|ps| - 1], i, x) + (Coord(ps[|ps| - 1], i) - x)
  }

  /** Sum over ps of the squared deviation of coordinate i from x. */
  function Col(ps: seq<Point>, i: int, x: real): real
  {
    if ps == [] then 0.0 else Col(ps[..|ps| - 1], i, x) + Square(Coord(ps[|ps| - 1], i) - x)
  }

  /** Column sums of squared deviations from c, for coordinates below n. */
  function ColSum(ps: seq<Point>, c: Point, n: nat): real
  {
    if n == 0 then 0.0 else ColSum(ps, c, n - 1) + Col(ps, n - 1, Coord(c, n - 1))
  }

  /** Sum over ps of the squared distance to c over the first n coordinates. */
  function SumSqUpTo(ps: seq<Point>, c: Point, n: nat): real
  {
    if ps == [] then 0.0 else SumSqUpTo(ps[..|ps| - 1], c, n) + SqDistUpTo(ps[|ps| - 1], c, n)
  }

  lemma {:induction false} DevTotal(ps: seq<Point>, i: int, x: real)
    ensures Dev(ps, i, x) == SumCoord(ps, i) - |ps| as real * x
  {
    if ps != [] {
      DevTotal(ps[..|ps| - 1], i, x);
    }
  }

  /** The deviations of the points from their mean cancel out, coordinate by
      coordinate. */
  lemma DeviationsFromMeanCancel(ps: seq<Point>, dim: nat, i: nat)
    requires ps != [] && i < dim
    ensures Dev(ps, i, Mean(ps, dim)[i]) == 0.0
  {
    var n := |ps| as real;
    var m := Mean(ps, dim)[i];
    DevTotal(ps, i, m);
    assert m * n == SumCoord(ps, i);
  }

  lemma SquareOfDifference(a: real, x: real, m: real)
    ensures Square(a - x) == Square(a - m) + 2.0 * (m - x) * (a - m) + Square(m - x)
  {
  }

  /** A product kept as a function application, so that equal products
      written over different but equal arguments are recognised as equal. */
  function Times(u: real, v: real): real
  {
    u * v
  }

  /** The inductive step of ColExpand over plain reals: cx and cm are the
      column sums with the last point a added, ci and cmi those without it. */
  lemma ExpandStep(cx: real, cm: real, ci: real, cmi: real, di: real, dps: real, ni: real, nps: real,
                   a: real, x: real, m: real)
    requires cx == ci + Square(a - x) && cm == cmi + Square(a - m)
    requires ci == cmi + 2.0 * Times(m - x, di) + Times(ni, Square(m - x))
    requires dps == di + (a - m) && nps == ni + 1.0
    ensures cx == cm + 2.0 * Times(m - x, dps) + Times(nps, Square(m - x))
  {
    SquareOfDifference(a, x, m);
  }

  lemma SquareNonNegative(d: real)
    ensures Square(d) >= 0.0
  {
    if d < 0.0 {
      assert Square(d) == (-d) * (-d);
    }
  }

  lemma ProductNonNegative(u: real, v: real)
    requires u >= 0.0 && v >= 0.0
    ensures u * v >= 0.0
  {
  }

  /** Expanding the squared deviations of coordinate i around m instead of x:
      Col(x) = Col(m) + 2(m - x) Dev(m) + |ps| (m - x)^2. */
  lemma {:induction false} ColExpand(ps: seq<Point>, i: int, x: real, m: real)
    ensures Col(ps, i, x) == Col(ps, i, m) + 2.0 * Times(m - x, Dev(ps, i, m)) + Times(|ps| as real, Square(m - x))
  {
    if ps != [] {
      ColExpand(ps[..|ps| - 1], i, x, m);
      ColExpandLast(ps, i, x, m);
    } else {
      ColExpandEmpty(ps, i, x, m);
    }
  }

  lemma ColExpandEmpty(ps: seq<Point>, i: int, x: real, m: real)
    requires ps == []
    ensures Col(ps, i, x) == Col(ps, i, m) + 2.0 * Times(m - x, Dev(ps, i, m)) + Times(|ps| as real, Square(m - x))
  {
  }

  lemma ColExpandLast(ps: seq<Point>, i: int, x: real, m: real)
    requires ps != []
    requires
      var init := ps[..|ps| - 1];
      Col(init, i, x) == Col(init, i, m) + 2.0 * Times(m - x, Dev(init, i, m)) + Times(|init| as real, Square(m - x))
    ensures Col(ps, i, x) == Col(ps, i, m) + 2.0 * Times(m - x, Dev(ps, i, m)) + Times(|ps| as real, Square(m - x))
  {
    var init := ps[..|ps| - 1];
    var a := Coord(ps[|ps| - 1], i);
    ExpandStep(Col(ps, i, x), Col(ps, i, m), Col(init, i, x), Col(init, i, m), Dev(init, i, m), Dev(ps, i, m),
               |init| as real, |ps| as real, a, x, m);
  }

  lemma ColAtMeanIsLeast(ps: seq<Point>, dim: nat, i: nat, x: real)
    requires ps != [] && i < dim
    ensures Col(ps, i, Mean(ps, dim)[i]) <= Col(ps, i, x)
  {
    var m := Mean(ps, dim)[i];
    ColExpand(ps, i, x, m);
    DeviationsFromMeanCancel(ps, dim, i);
    SquareNonNegative(m - x);
    ProductNonNegative(|ps| as real, Square(m - x));
  }

  lemma {:induction false} SumSqUpToStep(ps: seq<Point>, c: Point, n: nat)
    requires n > 0
    ensures SumSqUpTo(ps, c, n) == SumSqUpTo(ps, c, n - 1) + Col(ps, n - 1, Coord(c, n - 1))
  {
    if ps != [] {
      SumSqUpToStep(ps[..|ps| - 1], c, n);
    }
  }

  lemma {:induction false} SumSqUpToByColumns(ps: seq<Point>, c: Point, n: nat)
    ensures SumSqUpTo(ps, c, n) == ColSum(ps, c, n)
  {
    if n == 0 {
      SumSqUpToZero(ps, c);
    } else {
      SumSqUpToStep(ps, c, n);
      SumSqUpToByColumns(ps, c, n - 1);
    }
  }

  lemma {:induction false} SumSqUpToZero(ps: seq<Point>, c: Point)
    ensures SumSqUpTo(ps, c, 0) == 0.0
  {
    if ps != [] {
      SumSqUpToZero(ps[..|ps| - 1], c);
    }
  }

  lemma {:induction false} SumSqOfUniform(ps: seq<Point>, c: Point, dim: nat)
    requires forall j :: 0 <= j < |ps| ==> |ps[j]| == dim
    ensures SumSq(ps, c) == SumSqUpTo(ps, c, dim)
  {
    if ps != [] {
      SumSqOfUniform(ps[..|ps| - 1], c, dim);
    }
  }

  lemma {:induction false} ColSumMonotone(ps: seq<Point>, c: Point, q: Point, n: nat)
    requires forall i :: 0 <= i < n ==> Col(ps, i, Coord(c, i)) <= Col(ps, i, Coord(q, i))
    ensures ColSum(ps, c, n) <= ColSum(ps, q, n)
  {
    if n > 0 {
      ColSumMonotone(ps, c, q, n - 1);
    }
  }

  /** Among all candidate points q, the mean of ps minimises the sum of
      squared distances from ps: the centroid is the best representative of a
      cluster whose points share one dimension. */
  lemma MeanMinimisesSumSq(ps: seq<Point>, dim: nat, q: Point)
    requires ps != []
    requires forall j :: 0 <= j < |ps| ==> |ps[j]| == dim
    ensures SumSq(ps, Mean(ps, dim)) <= SumSq(ps, q)
  {
    var m := Mean(ps, dim);
    forall i | 0 <= i < dim
      ensures Col(ps, i, Coord(m, i)) <= Col(ps, i, Coord(q, i))
    {
      ColAtMeanIsLeast(ps, dim, i, Coord(q, i));
    }
    ColSumMonotone(ps, m, q, dim);
    SumSqOfUniform(ps, m, dim);
    SumSqOfUniform(ps, q, dim);
    SumSqUpToByColumns(ps, m, dim);
    SumSqUpToByColumns(ps, q, dim);
  }
}
