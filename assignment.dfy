/** Turning the library's clusters into one label per data row. The fast
    path numbers the rows consecutively, cluster by cluster; when that does
    not give as many labels as there are rows, every row is given the label
    of its nearest centroid instead. Labels are cluster positions plus one. */
module Assignment {
  import opened Options
  import opened Vectors
  import opened Wcss

  /** n copies of a label. */
  function Repeat(id: int, n: nat): (r: seq<int>)
    ensures |r| == n
    ensures forall j :: 0 <= j < n ==> r[j] == id
  {
    seq(n, _ => id)
  }

  /** The number of points over all clusters. */
  function TotalSize(cs: seq<Cluster>): nat
  {
    if cs == [] then 0 else TotalSize(cs[..|cs| - 1]) + |cs[|cs| - 1]|
  }

  /** The index at which the fast path starts numbering cluster c. */
  function Offset(cs: seq<Cluster>, c: nat): nat
    requires c <= |cs|
  {
    TotalSize(cs[..c])
  }

  /** The labels of the fast path: |cs[c]| copies of c + 1, cluster after
      cluster. */
  function FlattenLabels(cs: seq<Cluster>): seq<int>
  {
    if cs == [] then [] else FlattenLabels(cs[..|cs| - 1]) + Repeat(|cs|, |cs[|cs| - 1]|)
  }

  /** All points of all clusters, cluster after cluster. */
  function Concat(cs: seq<Cluster>): seq<Point>
  {
    if cs == [] then [] else Concat(cs[..|cs| - 1]) + cs[|cs| - 1]
  }

  /** The fast path: a running index, each point of cluster c labelled c + 1. */
  method Flatten(cs: seq<Cluster>) returns (assign: seq<int>)
    ensures assign == FlattenLabels(cs)
    ensures |assign| == TotalSize(cs)
    ensures forall c :: 0 <= c < |cs| ==>
      Offset(cs, c) + |cs[c]| <= |assign| && assign[Offset(cs, c)..Offset(cs, c) + |cs[c]|] == Repeat(c + 1, |cs[c]|)
    ensures forall i :: 0 <= i < |assign| ==> 1 <= assign[i] <= |cs|
  {
    assign := [];
    var currentIndex := 0;
    var c := 0;
    while c < |cs|
      invariant 0 <= c <= |cs|
      invariant assign == FlattenLabels(cs[..c])
      invariant currentIndex == |assign|
    {
      var clusterSize := |cs[c]|;
      var i := 0;
      while i < clusterSize
        invariant 0 <= i <= clusterSize
        invariant assign == FlattenLabels(cs[..c]) + Repeat(c + 1, i)
        invariant currentIndex == |assign|
      {
        // `$clusterAssignments[$currentIndex] = ...` with `$currentIndex` the next free index
        assign := assign + [c + 1];
        currentIndex := currentIndex + 1;
        i := i + 1;
      }
      assert cs[..c + 1][..c] == cs[..c];
      c := c + 1;
    }
    assert cs[..c] == cs;
    FlattenLabelsLength(cs);
    forall c | 0 <= c < |cs|
      ensures Offset(cs, c) + |cs[c]| <= |assign| && assign[Offset(cs, c)..Offset(cs, c) + |cs[c]|] == Repeat(c + 1, |cs[c]|)
    {
      FlattenLabelsBlock(cs, c);
    }
    FlattenLabelsRange(cs);
  }

  lemma {:induction false} FlattenLabelsLength(cs: seq<Cluster>)
    ensures |FlattenLabels(cs)| == TotalSize(cs)
  {
    if cs != [] {
      FlattenLabelsLength(cs[..|cs| - 1]);
    }
  }

  lemma {:induction false} FlattenLabelsPrefix(cs: seq<Cluster>, c: nat)
    requires c <= |cs|
    ensures FlattenLabels(cs[..c]) <= FlattenLabels(cs)
  {
    if c < |cs| {
      var init := cs[..|cs| - 1];
      assert init[..c] == cs[..c];
      FlattenLabelsPrefix(init, c);
    } else {
      assert cs[..c] == cs;
    }
  }

  /** The block of indices of cluster c, in cluster order, carries label
      c + 1. */
  lemma FlattenLabelsBlock(cs: seq<Cluster>, c: nat)
    requires c < |cs|
    ensures Offset(cs, c) + |cs[c]| <= |FlattenLabels(cs)|
    ensures FlattenLabels(cs)[Offset(cs, c)..Offset(cs, c) + |cs[c]|] == Repeat(c + 1, |cs[c]|)
  {
    var upto := cs[..c + 1];
    assert upto[..c] == cs[..c];
    FlattenLabelsLength(cs[..c]);
    FlattenLabelsLength(upto);
    FlattenLabelsPrefix(cs, c + 1);
    assert FlattenLabels(upto) == FlattenLabels(cs[..c]) + Repeat(c + 1, |cs[c]|);
  }

  /** Every fast-path label names a cluster. */
  lemma {:induction false} FlattenLabelsRange(cs: seq<Cluster>)
    ensures forall i :: 0 <= i < |FlattenLabels(cs)| ==> 1 <= FlattenLabels(cs)[i] <= |cs|
  {
    if cs != [] {
      FlattenLabelsRange(cs[..|cs| - 1]);
    }
  }

  lemma {:induction false} ConcatLength(cs: seq<Cluster>)
    ensures |Concat(cs)| == TotalSize(cs)
  {
    if cs != [] {
      ConcatLength(cs[..|cs| - 1]);
    }
  }

  /** When the clusters hold exactly the rows of the data set (as a
      partition such as k-means returns does), the fast path yields as many
      labels as rows, so the nearest-centroid pass never runs. */
  lemma FastPathTakenForPartition(dataset: seq<Point>, cs: seq<Cluster>)
    requires multiset(Concat(cs)) == multiset(dataset)
    ensures |FlattenLabels(cs)| == |dataset|
  {
    ConcatLength(cs);
    FlattenLabelsLength(cs);
    assert |multiset(Concat(cs))| == |Concat(cs)|;
    assert |multiset(dataset)| == |dataset|;
  }

  /** The fast path labels rows by position, not by membership: here the
      clusters partition the data set, yet row 0 gets label 1 although it
      lies in the second cluster. */
  lemma FastPathLabelsByPosition()
    ensures
      var dataset := [[0.0], [10.0]];
      var cs := [[[10.0]], [[0.0]]];
      multiset(Concat(cs)) == multiset(dataset) &&
      FlattenLabels(cs) == [1, 2] &&
      dataset[0] !in cs[0] && dataset[0] in cs[1]
  {
    var cs: seq<Cluster> := [[[10.0]], [[0.0]]];
    assert cs[..1] == [[[10.0]]];
    assert cs[..1][..0] == [];
    assert Concat(cs) == [[10.0], [0.0]];
    assert FlattenLabels(cs) == [1, 2];
  }

  // ---------------------------------------------------------------------
  // The nearest-centroid pass
  // ---------------------------------------------------------------------

  /** The centroids of the clusters, by position; None for a cluster with
      no centroid. */
  function Centroids(cs: seq<Cluster>): (r: seq<Option<Point>>)
    ensures |r| == |cs|
  {
    seq(|cs|, c requires 0 <= c < |cs| => Centroid(cs[c]))
  }

  /** label is the label of the nearest centroid to p: one plus the position
      of a centroid at least as close as every other and strictly closer
      than every earlier one; 1 when there is no centroid at all. */
  predicate IsNearestLabel(p: Point, cents: seq<Option<Point>>, id: int)
  {
    if forall c :: 0 <= c < |cents| ==> cents[c].None? then id == 1
    else
      1 <= id <= |cents| && cents[id - 1].Some? &&
      (forall c :: 0 <= c < |cents| && cents[c].Some? ==> SqDist(p, cents[id - 1].value) <= SqDist(p, cents[c].value)) &&
      (forall c :: 0 <= c < id - 1 && cents[c].Some? ==> SqDist(p, cents[id - 1].value) < SqDist(p, cents[c].value))
  }

  /** The centroid loop of the fallback, one cluster at a time. */
  method FallbackCentroids(cs: seq<Cluster>) returns (cents: seq<Option<Point>>)
    ensures cents == Centroids(cs)
  {
    cents := [];
    var c := 0;
    while c < |cs|
      invariant 0 <= c <= |cs|
      invariant cents == Centroids(cs[..c])
    {
      var centroid: Option<Point> := None;
      if cs[c] != [] {
        centroid := ComputeCentroid(cs[c]);
      }
      cents := cents + [centroid];
      c := c + 1;
    }
    assert cs[..c] == cs;
  }

  /** The scan for the nearest centroid, with the strict comparison that
      keeps the earliest of equally near centroids. */
  method NearestLabel(p: Point, cents: seq<Option<Point>>) returns (id: int)
    ensures IsNearestLabel(p, cents, id)
  {
    var minDistance: Option<real> := None;  // PHP_FLOAT_MAX: nothing seen yet
    id := 1;
    var c := 0;
    while c < |cents|
      invariant 0 <= c <= |cents|
      invariant minDistance.None? <==> forall c' :: 0 <= c' < c ==> cents[c'].None?
      invariant minDistance.None? ==> id == 1
      invariant minDistance.Some? ==>
        1 <= id <= c && cents[id - 1].Some? && minDistance.value == SqDist(p, cents[id - 1].value) &&
        (forall c' :: 0 <= c' < c && cents[c'].Some? ==> minDistance.value <= SqDist(p, cents[c'].value)) &&
        (forall c' :: 0 <= c' < id - 1 && cents[c'].Some? ==> minDistance.value < SqDist(p, cents[c'].value))
    {
      if cents[c].Some? {
        var distance := SquaredDistance(p, cents[c].value);
        if minDistance.None? || distance < minDistance.value {
          minDistance := Some(distance);
          id := c + 1;
        }
      }
      c := c + 1;
    }
  }

  /** The fallback: every row labelled with its nearest centroid. */
  method Fallback(dataset: seq<Point>, cs: seq<Cluster>) returns (assign: seq<int>)
    ensures |assign| == |dataset|
    ensures forall i :: 0 <= i < |dataset| ==> IsNearestLabel(dataset[i], Centroids(cs), assign[i])
  {
    var centroids := FallbackCentroids(cs);
    assign := [];
    var i := 0;
    while i < |dataset|
      invariant 0 <= i <= |dataset|
      invariant |assign| == i
      invariant forall j :: 0 <= j < i ==> IsNearestLabel(dataset[j], centroids, assign[j])
    {
      var id := NearestLabel(dataset[i], centroids);
      assign := assign + [id];
      i := i + 1;
    }
  }

  function Max(a: int, b: int): int
  {
    if a < b then b else a
  }

  /** The nearest label is well defined: two labels meeting the definition
      are the same. */
  lemma NearestLabelUnique(p: Point, cents: seq<Option<Point>>, id1: int, id2: int)
    requires IsNearestLabel(p, cents, id1) && IsNearestLabel(p, cents, id2)
    ensures id1 == id2
  {
  }

  /** Nearest labels name a cluster, or are 1 when there is no cluster. */
  lemma NearestLabelRange(p: Point, cents: seq<Option<Point>>, id: int)
    requires IsNearestLabel(p, cents, id)
    ensures 1 <= id <= Max(1, |cents|)
  {
  }

  /** The resolution step: the fast path when it labels exactly as many rows
      as there are, the nearest-centroid pass otherwise. Either way every
      row gets a label, and every label is in 1..max(1, |cs|). */
  method Resolve(dataset: seq<Point>, cs: seq<Cluster>) returns (assign: seq<int>)
    ensures |assign| == |dataset|
    ensures TotalSize(cs) == |dataset| ==> assign == FlattenLabels(cs)
    ensures TotalSize(cs) != |dataset| ==>
      forall i :: 0 <= i < |dataset| ==> IsNearestLabel(dataset[i], Centroids(cs), assign[i])
    ensures forall i :: 0 <= i < |assign| ==> 1 <= assign[i] <= Max(1, |cs|)
  {
    assign := Flatten(cs);
    if |assign| != |dataset| {
      assign := Fallback(dataset, cs);
      forall i | 0 <= i < |assign|
        ensures 1 <= assign[i] <= Max(1, |cs|)
      {
        NearestLabelRange(dataset[i], Centroids(cs), assign[i]);
      }
    }
  }
}
