/** The script from start to end: load the rows, sweep K = 1..8, choose K by
    the elbow rule, label every row from the final clustering and build the
    four report sheets. The clustering library's outcomes are inputs: one per
    K of the sweep, and one for the final clustering with the chosen K. */
module Pipeline {
  import opened Options
  import opened Loader
  import opened Wcss
  import opened Elbow
  import opened Assignment
  import opened Report

  /** The four sheets: labelled rows, detailed statistics, summary and
      centroids. */
  datatype Sheets = Sheets(
    labels: seq<int>,
    assignments: seq<seq<Field>>,
    details: seq<DetailRow>,
    summary: seq<SummaryRow>,
    centroids: seq<CentroidRow>)

  /** What one run produces: the WCSS of every K, the chosen K, and the sheets
      unless the final clustering failed. */
  datatype Outcome = Outcome(wcss: seq<Option<real>>, bestK: int, sheets: Option<Sheets>)

  method RunScript(data: seq<Row>, sweepRuns: seq<Option<seq<Cluster>>>, finalRun: Option<seq<Cluster>>)
    returns (out: Outcome)
    requires |sweepRuns| == MaxK
    ensures |out.wcss| == MaxK
    ensures forall j :: 0 <= j < MaxK ==> out.wcss[j] == WcssOutcome(j + 1, Dataset(data), sweepRuns[j])
    ensures out.bestK == ElbowK(out.wcss) && 1 <= out.bestK <= MaxK - 1
    ensures out.sheets.Some? <==> finalRun.Some?
    ensures out.sheets.Some? ==>
      var s := out.sheets.value;
      var kept := KeptRows(data);
      var cs := finalRun.value;
      |s.labels| == |kept| &&
      (forall i :: 0 <= i < |kept| ==> 1 <= s.labels[i] <= Max(1, |cs|)) &&
      (TotalSize(cs) == |kept| ==> s.labels == FlattenLabels(cs)) &&
      (TotalSize(cs) != |kept| ==>
        forall i :: 0 <= i < |kept| ==> IsNearestLabel(Dataset(data)[i], Centroids(cs), s.labels[i])) &&
      |s.assignments| == |kept| &&
      (forall i :: 0 <= i < |kept| ==>
        |s.assignments[i]| == |kept[i]| + 1 &&
        (forall j :: 0 <= j < |kept[i]| ==> s.assignments[i][j] == Original(kept[i][j])) &&
        s.assignments[i][|kept[i]|] == ClusterNumber(s.labels[i])) &&
      s.centroids == CentroidRows(Dataset(data), s.labels, out.bestK)
    ensures out.sheets.Some? ==>
      var s := out.sheets.value;
      var total := |KeptRows(data)|;
      |s.details| == out.bestK + 1 &&
      (forall j :: 0 <= j < out.bestK ==>
        s.details[j] == DetailRow(ClusterNo(j + 1), Count(s.labels, j + 1), Percentage(Count(s.labels, j + 1), total),
                                  CategoryOf(Percentage(Count(s.labels, j + 1), total)))) &&
      s.details[out.bestK] == DetailRow(Total, total, 100.0, AllClusters)
    ensures out.sheets.Some? ==>
      var s := out.sheets.value;
      var total := |KeptRows(data)|;
      |s.summary| == out.bestK + 1 &&
      (forall j :: 0 <= j < out.bestK ==>
        s.summary[j] == SummaryRow(ClusterNo(j + 1), Count(s.labels, j + 1), Percentage(Count(s.labels, j + 1), total))) &&
      s.summary[out.bestK] == SummaryRow(Total, total, 100.0)
  {
    var dataset, originalData := LoadRows(data);
    var wcssResults := Sweep(dataset, sweepRuns);
    var bestK := SelectK(wcssResults);
    ElbowKOfSweep(wcssResults);
    if finalRun.None? {
      return Outcome(wcssResults, bestK, None);
    }
    var clusters := finalRun.value;
    var clusterAssignments := Resolve(dataset, clusters);
    var totalData := |dataset|;
    var clusterCounts := CountValues(clusterAssignments);
    var details := DetailedStatistics(clusterAssignments, clusterCounts, totalData, bestK);
    var summary := SummaryStatistics(clusterAssignments, clusterCounts, totalData, bestK);
    var outputRows := OutputRows(originalData, clusterAssignments);
    var centroidRows := AssignmentCentroids(dataset, clusterAssignments, bestK);
    out := Outcome(wcssResults, bestK, Some(Sheets(clusterAssignments, outputRows, details, summary, centroidRows)));
  }
}
