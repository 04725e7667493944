/** The numbers behind the report sheets: label counts, per-cluster
    percentages and size categories, the output rows (each original row
    with its cluster label) and the centroids recomputed from the labels. */
module Report {
  import opened Vectors
  import opened Loader

  /** The number of rows labelled v. */
  function Count(assign: seq<int>, v: int): nat
  {
    if assign == [] then 0
    else Count(assign[..|assign| - 1], v) + (if assign[|assign| - 1] == v then 1 else 0)
  }

  /** counts is the tally of assign: one entry per label that occurs, holding
      the number of its occurrences. */
  predicate IsTally(counts: map<int, nat>, assign: seq<int>)
  {
    (forall v :: v in counts ==> v in assign) &&
    (forall v :: v in assign ==> v in counts) &&
    (forall v :: v in counts ==> counts[v] == Count(assign, v))
  }

  /** `array_count_values`: the tally of the labels. */
  method CountValues(assign: seq<int>) returns (counts: map<int, nat>)
    ensures IsTally(counts, assign)
  {
    counts := map[];
    var i := 0;
    while i < |assign|
      invariant 0 <= i <= |assign|
      invariant IsTally(counts, assign[..i])
    {
      var v := assign[i];
      assert assign[..i + 1][..i] == assign[..i];
      assert assign[..i + 1] == assign[..i] + [v];
      if v !in counts {
        CountAbsent(assign[..i], v);
      }
      counts := counts[v := (if v in counts then counts[v] else 0) + 1];
      i := i + 1;
    }
    assert assign[..i] == assign;
  }

  lemma {:induction false} CountAbsent(assign: seq<int>, v: int)
    requires v !in assign
    ensures Count(assign, v) == 0
  {
    if assign != [] {
      CountAbsent(assign[..|assign| - 1], v);
    }
  }

  /** The size of cluster i as the report reads it from the tally (0 for a
      label that never occurs). */
  function ClusterSize(counts: map<int, nat>, i: int): nat
  {
    if i in counts then counts[i] else 0
  }

  lemma ClusterSizeIsCount(counts: map<int, nat>, assign: seq<int>, i: int)
    requires IsTally(counts, assign)
    ensures ClusterSize(counts, i) == Count(assign, i)
  {
    if i !in counts {
      CountAbsent(assign, i);
    }
  }

  /** size as a percentage of total; 0 when there are no rows. */
  function Percentage(size: nat, total: nat): real
  {
    if total > 0 then (size as real / total as real) * 100.0 else 0.0
  }

  datatype Category = Majority | Medium | Minority | AllClusters

  /** The size category of a cluster by its percentage. */
  function CategoryOf(pct: real): (cat: Category)
    ensures cat == Majority <==> pct >= 50.0
    ensures cat == Medium <==> 30.0 <= pct < 50.0
    ensures cat == Minority <==> pct < 30.0
  {
    if pct >= 50.0 then Majority else if pct >= 30.0 then Medium else Minority
  }

  /** The first column of a statistics row: `Cluster i` or `TOTAL`. */
  datatype RowName = ClusterNo(n: int) | Total

  datatype DetailRow = DetailRow(name: RowName, size: nat, percentage: real, category: Category)

  datatype SummaryRow = SummaryRow(name: RowName, size: nat, percentage: real)

  /** The detailed statistics: one row per cluster 1..bestK with its size,
      percentage and category, then the TOTAL row. */
  method DetailedStatistics(assign: seq<int>, counts: map<int, nat>, totalData: nat, bestK: int)
    returns (rows: seq<DetailRow>)
    requires IsTally(counts, assign)
    ensures |rows| == (if bestK > 0 then bestK else 0) + 1
    ensures forall j :: 0 <= j < |rows| - 1 ==>
      rows[j].name == ClusterNo(j + 1) &&
      rows[j].size == Count(assign, j + 1) &&
      rows[j].percentage == Percentage(Count(assign, j + 1), totalData) &&
      rows[j].category == CategoryOf(rows[j].percentage)
    ensures rows[|rows| - 1] == DetailRow(Total, totalData, 100.0, AllClusters)
  {
    rows := [];
    var i := 1;
    while i <= bestK
      invariant 1 <= i <= (if bestK > 0 then bestK else 0) + 1
      invariant |rows| == i - 1
      invariant forall j :: 0 <= j < |rows| ==>
        rows[j].name == ClusterNo(j + 1) &&
        rows[j].size == Count(assign, j + 1) &&
        rows[j].percentage == Percentage(Count(assign, j + 1), totalData) &&
        rows[j].category == CategoryOf(rows[j].percentage)
    {
      var clusterSize := if i in counts then counts[i] else 0;
      ClusterSizeIsCount(counts, assign, i);
      var percentage := if totalData > 0 then (clusterSize as real / totalData as real) * 100.0 else 0.0;
      var category := if percentage >= 50.0 then Majority else if percentage >= 30.0 then Medium else Minority;
      rows := rows + [DetailRow(ClusterNo(i), clusterSize, percentage, category)];
      i := i + 1;
    }
    rows := rows + [DetailRow(Total, totalData, 100.0, AllClusters)];
  }

  /** The summary: per cluster 1..bestK its size and percentage, then the
      TOTAL row. */
  method SummaryStatistics(assign: seq<int>, counts: map<int, nat>, totalData: nat, bestK: int)
    returns (rows: seq<SummaryRow>)
    requires IsTally(counts, assign)
    ensures |rows| == (if bestK > 0 then bestK else 0) + 1
    ensures forall j :: 0 <= j < |rows| - 1 ==>
      rows[j] == SummaryRow(ClusterNo(j + 1), Count(assign, j + 1), Percentage(Count(assign, j + 1), totalData))
    ensures rows[|rows| - 1] == SummaryRow(Total, totalData, 100.0)
  {
    rows := [];
    var i := 1;
    while i <= bestK
      invariant 1 <= i <= (if bestK > 0 then bestK else 0) + 1
      invariant |rows| == i - 1
      invariant forall j :: 0 <= j < |rows| ==>
        rows[j] == SummaryRow(ClusterNo(j + 1), Count(assign, j + 1), Percentage(Count(assign, j + 1), totalData))
    {
      var clusterSize := if i in counts then counts[i] else 0;
      ClusterSizeIsCount(counts, assign, i);
      var percentage := if totalData > 0 then (clusterSize as real / totalData as real) * 100.0 else 0.0;
      rows := rows + [SummaryRow(ClusterNo(i), clusterSize, percentage)];
      i := i + 1;
    }
    rows := rows + [SummaryRow(Total, totalData, 100.0)];
  }

  /** The sizes of clusters 1..k together. */
  function SizesUpTo(assign: seq<int>, k: int): nat
  {
    if k <= 0 then 0 else SizesUpTo(assign, k - 1) + Count(assign, k)
  }

  /** The percentages of clusters 1..k together. */
  function PercentagesUpTo(assign: seq<int>, total: nat, k: int): real
  {
    if k <= 0 then 0.0 else PercentagesUpTo(assign, total, k - 1) + Percentage(Count(assign, k), total)
  }

  lemma {:induction false} SizesUpToSnoc(assign: seq<int>, v: int, k: int)
    ensures SizesUpTo(assign + [v], k) == SizesUpTo(assign, k) + (if 1 <= v <= k then 1 else 0)
  {
    assert (assign + [v])[..|assign|] == assign;
    if k > 0 {
      SizesUpToSnoc(assign, v, k - 1);
    }
  }

  /** When every label lies in 1..k, the sizes of clusters 1..k add up to
      the number of rows. */
  lemma {:induction false} SizesAddUp(assign: seq<int>, k: int)
    requires forall i :: 0 <= i < |assign| ==> 1 <= assign[i] <= k
    ensures SizesUpTo(assign, k) == |assign|
  {
    if assign == [] {
      SizesOfEmpty(k);
    } else {
      var init := assign[..|assign| - 1];
      SizesAddUp(init, k);
      SizesUpToSnoc(init, assign[|assign| - 1], k);
      assert init + [assign[|assign| - 1]] == assign;
    }
  }

  lemma {:induction false} SizesOfEmpty(k: int)
    ensures SizesUpTo([], k) == 0
  {
    if k > 0 {
      SizesOfEmpty(k - 1);
    }
  }

  lemma ScaledSum(a: real, b: real, t: real)
    requires t > 0.0
    ensures (a / t) * 100.0 + (b / t) * 100.0 == ((a + b) / t) * 100.0
  {
  }

  lemma WholeIsHundred(t: real)
    requires t > 0.0
    ensures (t / t) * 100.0 == 100.0
  {
  }

  lemma {:induction false} PercentagesAreScaledSizes(assign: seq<int>, total: nat, k: int)
    requires total > 0
    ensures PercentagesUpTo(assign, total, k) == (SizesUpTo(assign, k) as real / total as real) * 100.0
  {
    if k > 0 {
      PercentagesAreScaledSizes(assign, total, k - 1);
      var t := total as real;
      var a := SizesUpTo(assign, k - 1) as real;
      var b := Count(assign, k) as real;
      ScaledSum(a, b, t);
    }
  }

  /** The cluster percentages of the statistics add up to 100 when every row
      is labelled with one of the clusters 1..k. */
  lemma PercentagesAddUpTo100(assign: seq<int>, k: int)
    requires |assign| > 0
    requires forall i :: 0 <= i < |assign| ==> 1 <= assign[i] <= k
    ensures PercentagesUpTo(assign, |assign|, k) == 100.0
  {
    SizesAddUp(assign, k);
    PercentagesAreScaledSizes(assign, |assign|, k);
    WholeIsHundred(|assign| as real);
  }

  // ---------------------------------------------------------------------
  // Output rows
  // ---------------------------------------------------------------------

  /** A cell of an output row: a cell of the original row, or the appended
      cluster number. */
  datatype Field = Original(cell: Cell) | ClusterNumber(n: int)

  /** The output rows: each original row followed by its label, 0 for a row
      without one. */
  method OutputRows(original: seq<Row>, assign: seq<int>) returns (rows: seq<seq<Field>>)
    ensures |rows| == |original|
    ensures forall i :: 0 <= i < |original| ==>
      |rows[i]| == |original[i]| + 1 &&
      (forall j :: 0 <= j < |original[i]| ==> rows[i][j] == Original(original[i][j])) &&
      rows[i][|original[i]|] == ClusterNumber(if i < |assign| then assign[i] else 0)
  {
    rows := [];
    var dataIndex := 0;
    while dataIndex < |original|
      invariant 0 <= dataIndex <= |original|
      invariant |rows| == dataIndex
      invariant forall i :: 0 <= i < dataIndex ==>
        |rows[i]| == |original[i]| + 1 &&
        (forall j :: 0 <= j < |original[i]| ==> rows[i][j] == Original(original[i][j])) &&
        rows[i][|original[i]|] == ClusterNumber(if i < |assign| then assign[i] else 0)
    {
      var originalRow := original[dataIndex];
      var clusterNumber := if dataIndex < |assign| then assign[dataIndex] else 0;
      var outputRow := seq(|originalRow|, j requires 0 <= j < |originalRow| => Original(originalRow[j])) + [ClusterNumber(clusterNumber)];
      rows := rows + [outputRow];
      dataIndex := dataIndex + 1;
    }
  }

  // ---------------------------------------------------------------------
  // Centroids from the final labels
  // ---------------------------------------------------------------------

  /** The rows labelled c, in data-set order. */
  function MembersOf(dataset: seq<Point>, assign: seq<int>, c: int): seq<Point>
  {
    if dataset == [] then []
    else
      var n := |dataset| - 1;
      MembersOf(dataset[..n], assign, c) + (if n < |assign| && assign[n] == c then [dataset[n]] else [])
  }

  datatype CentroidRow = CentroidRow(cluster: int, centroid: Point)

  /** The centroid rows for clusters 1..k: one for each cluster with at least
      one row, the mean of its rows in the first row's dimension. */
  function CentroidRows(dataset: seq<Point>, assign: seq<int>, k: int): seq<CentroidRow>
  {
    if k <= 0 then []
    else
      var ms := MembersOf(dataset, assign, k);
      CentroidRows(dataset, assign, k - 1) + (if ms == [] then [] else [CentroidRow(k, Mean(ms, |ms[0]|))])
  }

  /** The loop that gathers the rows labelled c. */
  method CollectMembers(dataset: seq<Point>, assign: seq<int>, c: int) returns (clusterPoints: seq<Point>)
    ensures clusterPoints == MembersOf(dataset, assign, c)
  {
    clusterPoints := [];
    var dataIndex := 0;
    while dataIndex < |dataset|
      invariant 0 <= dataIndex <= |dataset|
      invariant clusterPoints == MembersOf(dataset[..dataIndex], assign, c)
    {
      assert dataset[..dataIndex + 1][..dataIndex] == dataset[..dataIndex];
      if dataIndex < |assign| && assign[dataIndex] == c {
        clusterPoints := clusterPoints + [dataset[dataIndex]];
      }
      dataIndex := dataIndex + 1;
    }
    assert dataset[..dataIndex] == dataset;
  }

  /** The centroid arithmetic: sum the points into a zero-filled array, then
      divide by their number. */
  method MeanOfPoints(ps: seq<Point>) returns (c: Point)
    requires ps != []
    ensures c == Mean(ps, |ps[0]|)
  {
    var dim := |ps[0]|;
    var centroid := new real[dim](_ => 0.0);
    var j := 0;
    while j < |ps|
      invariant 0 <= j <= |ps|
      invariant forall d :: 0 <= d < dim ==> centroid[d] == SumCoord(ps[..j], d)
    {
      var point := ps[j];
      assert ps[..j + 1] == ps[..j] + [point];
      var i := 0;
      while i < dim
        invariant 0 <= i <= dim
        invariant forall d :: 0 <= d < i ==> centroid[d] == SumCoord(ps[..j], d) + Coord(point, d)
        invariant forall d :: i <= d < dim ==> centroid[d] == SumCoord(ps[..j], d)
      {
        centroid[i] := centroid[i] + Coord(point, i);
        i := i + 1;
      }
      forall d | 0 <= d < dim
        ensures centroid[d] == SumCoord(ps[..j + 1], d)
      {
        SumCoordSnoc(ps[..j], point, d);
      }
      j := j + 1;
    }
    assert ps[..j] == ps;
    var i := 0;
    while i < dim
      invariant 0 <= i <= dim
      invariant forall d :: 0 <= d < i ==> centroid[d] == SumCoord(ps, d) / |ps| as real
      invariant forall d :: i <= d < dim ==> centroid[d] == SumCoord(ps, d)
    {
      centroid[i] := centroid[i] / |ps| as real;
      i := i + 1;
    }
    c := centroid[..];
    assert c == Mean(ps, dim);
  }

  /** The centroid sheet's rows for clusters 1..bestK. */
  method AssignmentCentroids(dataset: seq<Point>, assign: seq<int>, bestK: int) returns (rows: seq<CentroidRow>)
    ensures rows == CentroidRows(dataset, assign, bestK)
  {
    rows := [];
    var clusterNum := 1;
    while clusterNum <= bestK
      invariant 1 <= clusterNum <= (if bestK > 0 then bestK else 0) + 1
      invariant rows == CentroidRows(dataset, assign, clusterNum - 1)
    {
      var clusterPoints := CollectMembers(dataset, assign, clusterNum);
      assert CentroidRows(dataset, assign, clusterNum) == CentroidRows(dataset, assign, clusterNum - 1) +
        (if clusterPoints == [] then [] else [CentroidRow(clusterNum, Mean(clusterPoints, |clusterPoints[0]|))]);
      if clusterPoints != [] {
        var centroid := MeanOfPoints(clusterPoints);
        rows := rows + [CentroidRow(clusterNum, centroid)];
      }
      clusterNum := clusterNum + 1;
    }
  }

  /** The rows labelled c are as many as the count of c, when every row has a
      label. */
  lemma {:induction false} MembersOfCount(dataset: seq<Point>, assign: seq<int>, c: int)
    requires |assign| == |dataset|
    ensures |MembersOf(dataset, assign, c)| == Count(assign, c)
  {
    if dataset != [] {
      var n := |dataset| - 1;
      MembersOfPrefix(dataset[..n], assign, c);
      MembersOfCount(dataset[..n], assign[..n], c);
    }
  }

  /** Only the first |dataset| labels matter to MembersOf. */
  lemma {:induction false} MembersOfPrefix(dataset: seq<Point>, assign: seq<int>, c: int)
    requires |dataset| < |assign|
    ensures MembersOf(dataset, assign, c) == MembersOf(dataset, assign[..|dataset|], c)
  {
    if dataset != [] {
      var n := |dataset| - 1;
      assert assign[..|dataset|][..n] == assign[..n];
      MembersOfPrefix(dataset[..n], assign, c);
      MembersOfPrefix(dataset[..n], assign[..|dataset|], c);
    }
  }

  /** Each row of the centroid sheet is for a cluster in 1..k that has at
      least one row, and is the mean of those rows; clusters appear in
      increasing order. */
  lemma {:induction false} CentroidRowsSound(dataset: seq<Point>, assign: seq<int>, k: int)
    ensures forall j :: 0 <= j < |CentroidRows(dataset, assign, k)| ==>
      var r := CentroidRows(dataset, assign, k)[j];
      var ms := MembersOf(dataset, assign, r.cluster);
      1 <= r.cluster <= k && ms != [] && r.centroid == Mean(ms, |ms[0]|)
    ensures forall i, j :: 0 <= i < j < |CentroidRows(dataset, assign, k)| ==>
      CentroidRows(dataset, assign, k)[i].cluster < CentroidRows(dataset, assign, k)[j].cluster
  {
    if k > 0 {
      CentroidRowsSound(dataset, assign, k - 1);
    }
  }

  /** Every cluster in 1..k with at least one row has a centroid row. */
  lemma {:induction false} CentroidRowsComplete(dataset: seq<Point>, assign: seq<int>, k: int, c: int)
    requires 1 <= c <= k && MembersOf(dataset, assign, c) != []
    ensures exists j :: 0 <= j < |CentroidRows(dataset, assign, k)| && CentroidRows(dataset, assign, k)[j].cluster == c
  {
    var rs := CentroidRows(dataset, assign, k);
    if c == k {
      assert rs[|rs| - 1].cluster == c;
    } else {
      CentroidRowsComplete(dataset, assign, k - 1, c);
      var j :| 0 <= j < |CentroidRows(dataset, assign, k - 1)| && CentroidRows(dataset, assign, k - 1)[j].cluster == c;
      assert rs[j] == CentroidRows(dataset, assign, k - 1)[j];
    }
  }
}
