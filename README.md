# K-means clustering report: a verified model of its arithmetic

`test-excel.php` is a batch script. It reads a wine-quality sheet and runs a
k-means library for K = 1..8. It chooses K with an elbow rule, labels every data
row with a cluster, and writes a four-sheet spreadsheet: the labelled rows,
detailed statistics, a summary and the centroids. This project models the
script's own logic in Dafny and proves what that logic guarantees. The
library's clustering outcome is an input to the model: a sequence of clusters,
each a sequence of points, or `None` when the library call threw.

All numbers are exact `real`s. Distances are compared squared: `sqrt` is
strictly increasing, so the nearest centroid is the same either way. A spreadsheet cell is
`Loader.Cell(text, num)`. `text` decides whether the cell is blank (PHP's `strlen`) and `num` is its
numeric reading (`floatval`, 0 for non-numeric text). PHP reads a missing array index as
null, which counts as 0 in arithmetic. `Vectors.Coord` models that read, and both the fallback
distance and the assignment-based centroids use it.

Modules, in dependency order:

- `Options`: the `Option` type.
- `Vectors`: sums, means and squared distances. It also proves that the mean minimises the sum of squared distances.
- `Loader`: the blank-row filter and feature extraction (lines 28-44).
- `Wcss`: `getWCSS_safe` and the centroid computation it shares with the fallback (lines 52-127, 198-237).
- `Elbow`: the sweep over K and the elbow search (lines 134-165).
- `Assignment`: the flatten fast path, the nearest-centroid fallback and the choice between them (lines 178-259).
- `Report`: the tally and the statistics rows, the output rows and the assignment-based centroids (lines 264-287, 316-321, 399-416, 439-468).
- `Pipeline`: the script from loading to the sheets.

Where the code does something other than a reader might expect, the model follows the code:

- A reader might expect the default K of 3 to be kept when fewer than three WCSS values are usable. The code's guard `count($wcssResults) > 2` counts every entry of the sweep, including failed ones, so it is always true for eight entries. Two adjacent usable values then leave the default when the second is the larger, because the single reduction is negative and so below half of itself (`Elbow.RisingPairSelectsOne`). When the second is the smaller, the single reduction is positive, not below half of itself, and K stays 3 (`Elbow.FallingPairKeepsDefault`).
- A reader might take nearest-centroid assignment to be the authoritative path. The code tries the flatten fast path first and uses its labels whenever their number equals the number of rows. That always holds when the clusters partition the data (`Assignment.FastPathTakenForPartition`). In that case rows are labelled by position in the concatenated clusters, not by membership (`Assignment.FastPathLabelsByPosition`). The model keeps the code's order of the two paths.
- The "no valid point" branch after the centroid sum (`$pointCount == 0`, lines 99-101 and 231) cannot be taken. The first non-empty point always has the cluster's dimension (`Wcss.CentroidDefined`). The model keeps the branch.

## Model

| member | source | states |
|---|---|---|
| `Loader.LoadRows` | test-excel.php:28-44 | the kept rows are exactly the non-blank rows in order; the feature list has the same length, and entry i is kept row i without its last column |
| `Loader.Features` | test-excel.php:35-40 | a feature vector has one coordinate fewer than its row, and coordinate j is the numeric reading of cell j |
| `Loader.Dataset` | test-excel.php:42 | there is one feature vector per kept row |
| `Loader.FilledCellsZero` | test-excel.php:30 | a row has no filled cell exactly when every cell has empty text |
| `Loader.KeptRowsMembers` | test-excel.php:28-32 | a row is kept iff it occurs in the data, is non-empty and has a cell with non-empty text |
| `Loader.KeptRowsAppend` | test-excel.php:28-44 | filtering distributes over concatenation, so kept rows keep their relative order |
| `Loader.KeptRowsWidth` | test-excel.php:35 | on a sheet whose rows all have width w, every kept row has width w and its feature vector has w - 1 coordinates |
| `Vectors.SquaredDistance` | test-excel.php:245-248 | the distance loop over the point's coordinates computes the squared Euclidean distance, which is non-negative |
| `Vectors.SumSqNonNegative` | test-excel.php:113-117 | a sum of squared distances is never negative |
| `Vectors.DeviationsFromMeanCancel` | test-excel.php:103-105 | the deviations of the points from their mean sum to zero in each coordinate |
| `Vectors.MeanMinimisesSumSq` | test-excel.php:84-118 | for points of one dimension, no point has a smaller sum of squared distances to them than their mean |
| `Wcss.ComputeCentroid` | test-excel.php:71-105 | the centroid loops give None when no point is non-empty; otherwise they give the component-wise mean of exactly the points whose length equals the first non-empty point's length |
| `Wcss.ClusterSumSq` | test-excel.php:107-118 | the distance loop sums the squared distances to the centroid over exactly the points of the centroid's dimension |
| `Wcss.WcssSafe` | test-excel.php:52-127 | returns 0 for no data or k < 1, None when the clustering call failed, and otherwise the clusters' total sum of squares, which is non-negative |
| `Wcss.WcssOutcomeNonNegative` | test-excel.php:54-121 | any WCSS that was computed is non-negative |
| `Wcss.TotalWcssNonNegative` | test-excel.php:62-121 | the accumulated total over the clusters is non-negative |
| `Wcss.FirstNonEmptySpec` | test-excel.php:71-77 | there is no first non-empty point iff every point is empty; otherwise it is the non-empty point at some index with every earlier point empty |
| `Wcss.CentroidDefined` | test-excel.php:79-101 | a cluster has a centroid iff it contains a non-empty point, so the zero-count branch is never taken |
| `Wcss.CentroidMinimisesClusterSS` | test-excel.php:84-118 | a cluster's sum of squares is the least possible over its members: no other reference point does better than the centroid |
| `Wcss.WrongLengthPointIgnored` | test-excel.php:88-118 | adding a point with the wrong length changes neither the centroid nor the cluster's sum of squares |
| `Wcss.SingleClusterWcss` | test-excel.php:62-121 | with one cluster holding the whole data set, WCSS is the sum of squared distances to the global mean |
| `Elbow.Sweep` | test-excel.php:134-144 | entry k-1 of the sweep is the WCSS outcome for K = k, for k = 1..8 |
| `Elbow.CollectReductions` | test-excel.php:148-154 | the loop records exactly the reductions of the specification, in increasing K |
| `Elbow.AverageReduction` | test-excel.php:157 | the average is the sum of the recorded reductions divided by their number |
| `Elbow.SelectK` | test-excel.php:134-165 | the search returns the elbow choice, which is the default 3 or a K in 1..maxK-1 |
| `Elbow.ReductionsSound` | test-excel.php:149-154 | every recorded reduction is for a K in 2..maxK with both neighbours present and non-zero, and equals WCSS(K-1) - WCSS(K); the Ks strictly increase |
| `Elbow.ReductionsComplete` | test-excel.php:149-154 | every K in 2..maxK whose two neighbours are present and non-zero has its reduction recorded |
| `Elbow.FirstBelowSpec` | test-excel.php:158-163 | the search finds nothing iff no reduction is below the threshold; otherwise it finds the earliest such reduction |
| `Elbow.FirstBelowAt` | test-excel.php:158-163 | a reduction below the threshold with none below it earlier is the one the search finds |
| `Elbow.ElbowKAtFirstBelow` | test-excel.php:147-165 | when the first reduction below half the mean is for K, the choice is K-1 |
| `Elbow.ElbowKDefault` | test-excel.php:147-165 | with at most two sweep entries, no recorded reduction, or none below half the mean, the choice is 3 |
| `Elbow.ElbowKRange` | test-excel.php:156-163 | a chosen K is the default or lies in 1..maxK-1 |
| `Elbow.ElbowKOfSweep` | test-excel.php:134-165 | for the eight-value sweep, the chosen K is in 1..7 |
| `Elbow.NoUsableKeepsDefault` | test-excel.php:136-165 | with no present non-zero WCSS (for example an empty data set), K stays 3 |
| `Elbow.SharpDropSelectsTwo` | test-excel.php:147-165 | any sweep with WCSS values 500, 10, 8, 7, 6, 5, 4, 3 selects K = 2 |
| `Elbow.RisingPairSelectsOne` | test-excel.php:147-165 | a sweep whose only values are 1 then 2, with the other six runs failed, selects K = 1 and not the default |
| `Elbow.FallingPairKeepsDefault` | test-excel.php:147-165 | a sweep whose only values are 2 then 1, with the other six runs failed, keeps the default K = 3 |
| `Assignment.Flatten` | test-excel.php:179-190 | the fast path yields one label per clustered point; the block of cluster c, in cluster order, carries label c+1; labels lie in 1..number of clusters |
| `Assignment.FlattenLabelsBlock` | test-excel.php:182-188 | the indices of cluster c's block start at the size of the clusters before it and all carry c+1 |
| `Assignment.FlattenLabelsRange` | test-excel.php:186 | every fast-path label is between 1 and the number of clusters |
| `Assignment.FastPathTakenForPartition` | test-excel.php:193 | when the clusters hold exactly the data rows, the fast path yields one label per row, so the fallback never runs |
| `Assignment.FastPathLabelsByPosition` | test-excel.php:182-193 | a concrete partition where the fast path gives row 0 label 1 although the row lies in cluster 2 |
| `Assignment.FallbackCentroids` | test-excel.php:198-237 | the fallback gives each cluster its centroid, and None to a cluster without valid points |
| `Assignment.NearestLabel` | test-excel.php:240-255 | the label is 1 when there is no centroid; otherwise it is c+1 for a centroid c at least as close as every centroid and strictly closer than every earlier one |
| `Assignment.Fallback` | test-excel.php:239-258 | every row index gets a label, and it is the nearest-centroid label of that row |
| `Assignment.NearestLabelUnique` | test-excel.php:251-254 | the nearest-centroid label with earliest-on-ties is unique |
| `Assignment.NearestLabelRange` | test-excel.php:242-253 | a nearest-centroid label lies in 1..max(1, number of clusters) |
| `Assignment.Resolve` | test-excel.php:178-259 | every row gets a label in 1..max(1, number of clusters); when the fast path yields one label per row those are its labels, otherwise each row's nearest-centroid label |
| `Report.CountValues` | test-excel.php:265 | the tally holds exactly the labels that occur, each with its number of occurrences |
| `Report.ClusterSizeIsCount` | test-excel.php:270 | the size read from the tally, 0 when a label is absent, equals the number of rows with that label |
| `Report.CategoryOf` | test-excel.php:277 | MAJORITY iff the percentage is at least 50, MEDIUM iff it is in [30, 50), MINORITY iff it is below 30 |
| `Report.DetailedStatistics` | test-excel.php:268-287 | there is one row per cluster 1..bestK with its row count, its percentage of the total (0 for no data) and its category, then a TOTAL row with the total count, 100 and ALL CLUSTERS |
| `Report.SummaryStatistics` | test-excel.php:399-416 | there is one row per cluster 1..bestK with its row count and percentage, then a TOTAL row with the total count and 100 |
| `Report.SizesAddUp` | test-excel.php:264-270 | when every label is in 1..k, the sizes of clusters 1..k add up to the number of rows |
| `Report.PercentagesAddUpTo100` | test-excel.php:269-279 | when every row has a label in 1..k, the cluster percentages add up to exactly 100 |
| `Report.OutputRows` | test-excel.php:316-321 | there is one output row per original row: its cells, then its label, or 0 when the row has none |
| `Report.CollectMembers` | test-excel.php:440-447 | gathers exactly the rows labelled with the cluster number, in data order |
| `Report.MeanOfPoints` | test-excel.php:453-464 | the centroid arithmetic gives the component-wise mean in the first point's dimension |
| `Report.AssignmentCentroids` | test-excel.php:439-468 | the centroid sheet rows are those of the specification for clusters 1..bestK |
| `Report.CentroidRowsSound` | test-excel.php:439-468 | each centroid row is for a cluster in 1..bestK that has rows, and is the mean of them; the clusters increase |
| `Report.CentroidRowsComplete` | test-excel.php:449-451 | every cluster in 1..bestK with at least one row has a centroid row |
| `Report.MembersOfCount` | test-excel.php:443-447 | when every row has a label, a cluster's centroid is taken over as many rows as its count in the statistics |
| `Pipeline.RunScript` | test-excel.php:28-468 | runs the whole script: each K's WCSS, the elbow choice in 1..7, and no sheets iff the final clustering failed; otherwise every kept row gets a label (the flatten labels when their number matches, else its nearest-centroid label), and its output row is its original cells followed by that label; the detail and summary sheets hold, for each cluster 1..K, its label count, its percentage of the kept rows and (details) its category, then the TOTAL row; the centroid sheet is the centroid rows of the labelling |

## Left out

- Spreadsheet input and output are left out because they are library calls: `IOFactory::load`, the header row (`array_shift`, the header columns of the sheets), the Xlsx writer, sheet titles, styles, category colours, auto-sizing and the `0.0000` number format.
- The k-means algorithm (`KMeans::cluster`) is an opaque library. Its outcome for each K and for the final clustering is an input.
- The missing-file check (`die`), the console output, the timestamped file name and the closing WCSS listing are I/O. The console preview of cluster percentages divides by the row count without a guard; it is console output and is not modelled.
- Floating point is left out: PHP float rounding, `pow`, `sqrt` and `PHP_FLOAT_MAX` are not modelled. The model uses exact reals, compares squared distances, and treats the initial `PHP_FLOAT_MAX` as "no centroid seen yet". A distance that overflows to at least `PHP_FLOAT_MAX` is therefore not modelled.
- PHP type checks (`is_array` on clusters and points) are not modelled because points are typed sequences. The numeric reading of a cell (`floatval`) is part of the cell value.
- Exceptions are reduced to `None`: a failing clustering call yields a `None` WCSS, or a run without sheets. Exception propagation itself is not modelled.
- Column letters (`chr(65 + n - 1)`) and the `number_format` percentage strings are cosmetic. The model keeps the numeric percentage, and the TOTAL rows' `100%` as 100.
- Cluster keys are taken to be the positions 0..K-1 of the library's result, as the script's `$clusterIndex + 1` labels assume.
