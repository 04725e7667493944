/** The within-cluster sum of squares of one clustering (`getWCSS_safe`).
    The clustering itself comes from a library and is an input here: a
    sequence of clusters, each a sequence of points, or None when the
    library call threw. */
module Wcss {
  import opened Options
  import opened Vectors

  type Cluster = seq<Point>

  /** The first point of the cluster that has at least one coordinate; its
      length is the dimension the cluster is measured in. */
  function FirstNonEmpty(cl: Cluster): Option<Point>
  {
    if cl == [] then None else if cl[0] != [] then Some(cl[0]) else FirstNonEmpty(cl[1..])
  }

  /** The points of cl that have exactly dim coordinates, in order; the
      others are skipped by both the centroid and the distance loops. */
  function Members(cl: Cluster, dim: nat): seq<Point>
  {
    if cl == [] then []
    else Members(cl[..|cl| - 1], dim) + (if |cl[|cl| - 1]| == dim then [cl[|cl| - 1]] else [])
  }

  /** The centroid of a cluster: the component-wise mean of its members in
      the first non-empty point's dimension, or None when it has no
      non-empty point. */
  function Centroid(cl: Cluster): Option<Point>
  {
    match FirstNonEmpty(cl)
    case None => None
    case Some(f) =>
      var ms := Members(cl, |f|);
      if ms == [] then None else Some(Mean(ms, |f|))
  }

  /** The squared distances of a cluster's members to its centroid; 0 for a
      cluster that has no centroid. */
  function ClusterSS(cl: Cluster): real
  {
    match Centroid(cl)
    case None => 0.0
    case Some(c) => SumSq(Members(cl, |c|), c)
  }

  /** The WCSS of a whole clustering: the sum over its clusters. */
  function TotalWcss(cs: seq<Cluster>): real
  {
    if cs == [] then 0.0 else TotalWcss(cs[..|cs| - 1]) + ClusterSS(cs[|cs| - 1])
  }

  /** What `getWCSS_safe(k, data)` returns, given the outcome of the library
      call: 0 without calling it for no data or k < 1, None when it threw. */
  function WcssOutcome(k: int, data: seq<Point>, run: Option<seq<Cluster>>): Option<real>
  {
    if data == [] || k < 1 then Some(0.0)
    else match run
      case None => None
      case Some(cs) => Some(TotalWcss(cs))
  }

  /** The centroid loops: find the first non-empty point, sum the points of
      its dimension into a zero-filled array, then divide by their number. */
  method ComputeCentroid(cl: Cluster) returns (c: Option<Point>)
    ensures c == Centroid(cl)
  {
    var first: Option<Point> := None;
    var j := 0;
    while j < |cl|
      invariant 0 <= j <= |cl|
      invariant FirstNonEmpty(cl) == FirstNonEmpty(cl[j..])
      invariant first.None?
    {
      if cl[j] != [] {
        first := Some(cl[j]);
        break;
      }
      assert cl[j..][1..] == cl[j + 1..];
      j := j + 1;
    }
    if first.None? {
      assert cl[j..] == [];
      return None;
    }
    assert cl[j..][0] == cl[j];
    assert FirstNonEmpty(cl) == first;
    var dim := |first.value|;
    var centroid := new real[dim](_ => 0.0);
    var pointCount := 0;
    ghost var ms: seq<Point> := [];
    j := 0;
    while j < |cl|
      invariant 0 <= j <= |cl|
      invariant ms == Members(cl[..j], dim)
      invariant pointCount == |ms|
      invariant forall d :: 0 <= d < dim ==> centroid[d] == SumCoord(ms, d)
    {
      var point := cl[j];
      assert cl[..j + 1][..j] == cl[..j];
      if |point| == dim {
        var i := 0;
        while i < dim
          invariant 0 <= i <= dim
          invariant forall d :: 0 <= d < i ==> centroid[d] == SumCoord(ms, d) + point[d]
          invariant forall d :: i <= d < dim ==> centroid[d] == SumCoord(ms, d)
        {
          centroid[i] := centroid[i] + point[i];
          i := i + 1;
        }
        forall d | 0 <= d < dim
          ensures centroid[d] == SumCoord(ms + [point], d)
        {
          SumCoordSnoc(ms, point, d);
        }
        ms := ms + [point];
        pointCount := pointCount + 1;
      }
      j := j + 1;
    }
    assert cl[..j] == cl;
    if pointCount == 0 {
      return None;
    }
    var i := 0;
    while i < dim
      invariant 0 <= i <= dim
      invariant forall d :: 0 <= d < i ==> centroid[d] == SumCoord(ms, d) / pointCount as real
      invariant forall d :: i <= d < dim ==> centroid[d] == SumCoord(ms, d)
    {
      centroid[i] := centroid[i] / pointCount as real;
      i := i + 1;
    }
    assert centroid[..] == Mean(ms, dim);
    c := Some(centroid[..]);
  }

  /** `getWCSS_safe`: 0 for no data or k < 1, None when the clustering call
      failed, and otherwise the sum over clusters with a centroid of the
      squared distances of their members to it. */
  method WcssSafe(k: int, data: seq<Point>, run: Option<seq<Cluster>>) returns (r: Option<real>)
    ensures r == WcssOutcome(k, data, run)
    ensures r.Some? ==> r.value >= 0.0
  {
    if data == [] || k < 1 {
      return Some(0.0);
    }
    if run.None? {
      return None;
    }
    var clusters := run.value;
    var total := 0.0;
    var c := 0;
    while c < |clusters|
      invariant 0 <= c <= |clusters|
      invariant total == TotalWcss(clusters[..c])
    {
      var cl := clusters[c];
      assert clusters[..c + 1][..c] == clusters[..c];
      c := c + 1;
      if cl == [] {
        continue;
      }
      var centroid := ComputeCentroid(cl);
      if centroid.None? {
        continue;
      }
      var dist := ClusterSumSq(cl, centroid.value);
      total := total + dist;
    }
    assert clusters[..c] == clusters;
    TotalWcssNonNegative(clusters);
    r := Some(total);
  }

  /** The distance loop of one cluster: the squared distances to the
      centroid c of the points of c's dimension. */
  method ClusterSumSq(cl: Cluster, c: Point) returns (s: real)
    ensures s == SumSq(Members(cl, |c|), c)
  {
    var dim := |c|;
    s := 0.0;
    var j := 0;
    while j < |cl|
      invariant 0 <= j <= |cl|
      invariant s == SumSq(Members(cl[..j], dim), c)
    {
      var point := cl[j];
      assert cl[..j + 1][..j] == cl[..j];
      if |point| == dim {
        var dist := SquaredDistance(point, c);
        assert Members(cl[..j + 1], dim) == Members(cl[..j], dim) + [point];
        SumSqSnoc(Members(cl[..j], dim), point, c);
        s := s + dist;
      } else {
        assert Members(cl[..j + 1], dim) == Members(cl[..j], dim);
      }
      j := j + 1;
    }
    assert cl[..j] == cl;
  }

  lemma {:induction false} TotalWcssNonNegative(cs: seq<Cluster>)
    ensures TotalWcss(cs) >= 0.0
  {
    if cs != [] {
      TotalWcssNonNegative(cs[..|cs| - 1]);
      var cl := cs[|cs| - 1];
      match Centroid(cl)
      case None =>
      case Some(c) => SumSqNonNegative(Members(cl, |c|), c);
    }
  }

  /** A WCSS that was computed is never negative. */
  lemma WcssOutcomeNonNegative(k: int, data: seq<Point>, run: Option<seq<Cluster>>)
    requires WcssOutcome(k, data, run).Some?
    ensures WcssOutcome(k, data, run).value >= 0.0
  {
    if !(data == [] || k < 1) {
      TotalWcssNonNegative(run.value);
    }
  }

  lemma {:induction false} MembersHaveDim(cl: Cluster, dim: nat)
    ensures forall j :: 0 <= j < |Members(cl, dim)| ==> |Members(cl, dim)[j]| == dim
  {
    if cl != [] {
      MembersHaveDim(cl[..|cl| - 1], dim);
    }
  }

  lemma {:induction false} MembersContain(cl: Cluster, dim: nat, p: Point)
    ensures p in Members(cl, dim) <==> p in cl && |p| == dim
  {
    if cl != [] {
      MembersContain(cl[..|cl| - 1], dim, p);
      assert cl == cl[..|cl| - 1] + [cl[|cl| - 1]];
    }
  }

  /** The search finds nothing iff every point is empty; otherwise it finds
      the first non-empty point: every point before it is empty. */
  lemma {:induction false} FirstNonEmptySpec(cl: Cluster)
    ensures FirstNonEmpty(cl).None? <==> forall j :: 0 <= j < |cl| ==> cl[j] == []
    ensures FirstNonEmpty(cl).Some? ==> FirstNonEmpty(cl).value in cl && FirstNonEmpty(cl).value != []
    ensures FirstNonEmpty(cl).Some? ==>
      exists j :: 0 <= j < |cl| && cl[j] == FirstNonEmpty(cl).value && forall i :: 0 <= i < j ==> cl[i] == []
  {
    if cl != [] && cl[0] == [] {
      FirstNonEmptySpec(cl[1..]);
      assert forall j :: 1 <= j < |cl| ==> cl[j] == cl[1..][j - 1];
      if FirstNonEmpty(cl).Some? {
        var j :| 0 <= j < |cl[1..]| && cl[1..][j] == FirstNonEmpty(cl).value && forall i :: 0 <= i < j ==> cl[1..][i] == [];
        assert cl[j + 1] == FirstNonEmpty(cl).value;
        assert forall i :: 0 <= i < j + 1 ==> cl[i] == [];
      }
    } else if cl != [] {
      assert cl[0] == FirstNonEmpty(cl).value;
    }
  }

  /** A cluster has a centroid exactly when it contains a non-empty point:
      the first non-empty point always counts among the points averaged, so
      the source's `$pointCount == 0` branch is never taken. */
  lemma CentroidDefined(cl: Cluster)
    ensures Centroid(cl).Some? <==> exists j :: 0 <= j < |cl| && cl[j] != []
  {
    FirstNonEmptySpec(cl);
    if FirstNonEmpty(cl).Some? {
      var f := FirstNonEmpty(cl).value;
      MembersContain(cl, |f|, f);
    }
  }

  /** The centroid is the mean of the cluster's members: no other point has
      a smaller sum of squared distances to them, so ClusterSS is the least
      such sum. */
  lemma CentroidMinimisesClusterSS(cl: Cluster, q: Point)
    requires Centroid(cl).Some?
    ensures ClusterSS(cl) <= SumSq(Members(cl, |Centroid(cl).value|), q)
  {
    var f := FirstNonEmpty(cl).value;
    MembersHaveDim(cl, |f|);
    MeanMinimisesSumSq(Members(cl, |f|), |f|, q);
  }

  lemma {:induction false} FirstNonEmptySnoc(cl: Cluster, p: Point)
    requires FirstNonEmpty(cl).Some?
    ensures FirstNonEmpty(cl + [p]) == FirstNonEmpty(cl)
  {
    if cl[0] == [] {
      assert (cl + [p])[1..] == cl[1..] + [p];
      FirstNonEmptySnoc(cl[1..], p);
    }
  }

  /** A point whose length differs from the cluster's dimension changes
      neither the centroid nor the cluster's sum of squares. */
  lemma WrongLengthPointIgnored(cl: Cluster, p: Point)
    requires FirstNonEmpty(cl).Some? && |p| != |FirstNonEmpty(cl).value|
    ensures Centroid(cl + [p]) == Centroid(cl)
    ensures ClusterSS(cl + [p]) == ClusterSS(cl)
  {
    FirstNonEmptySnoc(cl, p);
    var dim := |FirstNonEmpty(cl).value|;
    assert (cl + [p])[..|cl|] == cl;
    assert Members(cl + [p], dim) == Members(cl, dim);
  }

  lemma {:induction false} MembersOfUniform(cl: Cluster, dim: nat)
    requires forall j :: 0 <= j < |cl| ==> |cl[j]| == dim
    ensures Members(cl, dim) == cl
  {
    if cl != [] {
      MembersOfUniform(cl[..|cl| - 1], dim);
    }
  }

  /** With one cluster holding the whole data set of one positive dimension,
      the WCSS is the sum of squared distances to the global mean. */
  lemma SingleClusterWcss(data: seq<Point>, dim: nat)
    requires data != [] && dim > 0
    requires forall j :: 0 <= j < |data| ==> |data[j]| == dim
    ensures TotalWcss([data]) == SumSq(data, Mean(data, dim))
  {
    assert data[0] != [];
    assert FirstNonEmpty(data) == Some(data[0]);
    MembersOfUniform(data, dim);
    assert [data][..0] == [];
  }
}
