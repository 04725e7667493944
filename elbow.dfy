/** Choosing K by the elbow heuristic: the WCSS sweep for K = 1..MaxK, the
    reductions between successive usable WCSS values and the search for the
    first reduction below half their mean. */
module Elbow {
  import opened Options
  import opened Vectors
  import opened Wcss

  /** The largest K of the sweep (`$maxK`). */
  const MaxK: nat := 8
  /** The K kept when no elbow is found. */
  const DefaultK: int := 3

  /** The sweep: w[k - 1] is the WCSS for K = k, given the outcome runs[k - 1]
      of the clustering library for that K. */
  method Sweep(data: seq<Point>, runs: seq<Option<seq<Cluster>>>) returns (w: seq<Option<real>>)
    requires |runs| == MaxK
    ensures |w| == MaxK
    ensures forall j :: 0 <= j < MaxK ==> w[j] == WcssOutcome(j + 1, data, runs[j])
  {
    w := [];
    var k := 1;
    while k <= MaxK
      invariant 1 <= k <= MaxK + 1
      invariant |w| == k - 1
      invariant forall j :: 0 <= j < k - 1 ==> w[j] == WcssOutcome(j + 1, data, runs[j])
    {
      var wcss := WcssSafe(k, data, runs[k - 1]);
      w := w + [wcss];
      k := k + 1;
    }
  }

  /** A WCSS value the reduction step accepts: present and not zero (PHP's
      `isset` and truthiness). */
  predicate Usable(v: Option<real>)
  {
    v.Some? && v.value != 0.0
  }

  /** A recorded reduction: WCSS(k - 1) - WCSS(k). */
  datatype Reduction = Reduction(k: int, amount: real)

  /** The reductions for K = 2..|w|, in increasing K, where both WCSS(K - 1)
      and WCSS(K) are usable. */
  function Reductions(w: seq<Option<real>>): seq<Reduction>
  {
    if |w| < 2 then []
    else
      Reductions(w[..|w| - 1]) +
      (if Usable(w[|w| - 2]) && Usable(w[|w| - 1])
       then [Reduction(|w|, w[|w| - 2].value - w[|w| - 1].value)]
       else [])
  }

  function TotalAmount(rs: seq<Reduction>): real
  {
    if rs == [] then 0.0 else TotalAmount(rs[..|rs| - 1]) + rs[|rs| - 1].amount
  }

  function MeanReduction(rs: seq<Reduction>): real
    requires rs != []
  {
    TotalAmount(rs) / |rs| as real
  }

  /** The K of the first reduction below t, if any. */
  function FirstBelow(rs: seq<Reduction>, t: real): Option<int>
  {
    if rs == [] then None
    else if rs[0].amount < t then Some(rs[0].k)
    else FirstBelow(rs[1..], t)
  }

  /** The K the script chooses from the sweep results w, w[k - 1] being WCSS(k). */
  function ElbowK(w: seq<Option<real>>): int
  {
    if |w| <= 2 then DefaultK
    else
      var rs := Reductions(w);
      if rs == [] then DefaultK
      else match FirstBelow(rs, MeanReduction(rs) * 0.5)
        case None => DefaultK
        case Some(k) => k - 1
  }

  /** The loop that records the reductions for K = 2..|w|. */
  method CollectReductions(w: seq<Option<real>>) returns (reductions: seq<Reduction>)
    ensures reductions == Reductions(w)
  {
    reductions := [];
    if |w| < 2 {
      return;
    }
    var k := 2;
    while k <= |w|
      invariant 2 <= k <= |w| + 1
      invariant reductions == Reductions(w[..k - 1])
    {
      assert w[..k][..k - 1] == w[..k - 1];
      if w[k - 2].Some? && w[k - 1].Some? && w[k - 2].value != 0.0 && w[k - 1].value != 0.0 {
        reductions := reductions + [Reduction(k, w[k - 2].value - w[k - 1].value)];
      }
      k := k + 1;
    }
    assert w[..k - 1] == w;
  }

  /** The elbow search: record the reductions, average them, and take K - 1
      for the first K whose reduction is below half the average. */
  /** The loop that sums the recorded reductions, then their average. */
  method AverageReduction(reductions: seq<Reduction>) returns (avgReduction: real)
    requires reductions != []
    ensures avgReduction == MeanReduction(reductions)
  {
    var sum := 0.0;
    var i := 0;
    while i < |reductions|
      invariant 0 <= i <= |reductions|
      invariant sum == TotalAmount(reductions[..i])
    {
      assert reductions[..i + 1][..i] == reductions[..i];
      sum := sum + reductions[i].amount;
      i := i + 1;
    }
    assert reductions[..i] == reductions;
    avgReduction := sum / |reductions| as real;
  }

  method SelectK(w: seq<Option<real>>) returns (bestK: int)
    ensures bestK == ElbowK(w)
    ensures bestK == DefaultK || 1 <= bestK < |w|
  {
    ElbowKRange(w);
    bestK := DefaultK;
    if |w| > 2 {
      var reductions := CollectReductions(w);
      if reductions != [] {
        var avgReduction := AverageReduction(reductions);
        var i := 0;
        while i < |reductions|
          invariant 0 <= i <= |reductions|
          invariant FirstBelow(reductions, avgReduction * 0.5) == FirstBelow(reductions[i..], avgReduction * 0.5)
          invariant bestK == DefaultK
        {
          if reductions[i].amount < avgReduction * 0.5 {
            bestK := reductions[i].k - 1;
            break;
          }
          assert reductions[i..][1..] == reductions[i + 1..];
          i := i + 1;
        }
        assert i == |reductions| ==> reductions[i..] == [];
      }
    }
  }

  /** Every recorded reduction is for some K in 2..|w| where both neighbours
      are usable, and it is WCSS(K - 1) - WCSS(K); the Ks increase. */
  lemma {:induction false} ReductionsSound(w: seq<Option<real>>)
    ensures forall j :: 0 <= j < |Reductions(w)| ==>
      var r := Reductions(w)[j];
      2 <= r.k <= |w| && Usable(w[r.k - 2]) && Usable(w[r.k - 1]) && r.amount == w[r.k - 2].value - w[r.k - 1].value
    ensures forall i, j :: 0 <= i < j < |Reductions(w)| ==> Reductions(w)[i].k < Reductions(w)[j].k
  {
    if |w| >= 2 {
      var init := w[..|w| - 1];
      ReductionsSound(init);
      assert forall k :: 0 <= k < |init| ==> init[k] == w[k];
    }
  }

  /** Every K in 2..|w| whose neighbours are both usable has its reduction
      recorded. */
  lemma {:induction false} ReductionsComplete(w: seq<Option<real>>, k: int)
    requires 2 <= k <= |w| && Usable(w[k - 2]) && Usable(w[k - 1])
    ensures exists j :: 0 <= j < |Reductions(w)| && Reductions(w)[j].k == k
  {
    var rs := Reductions(w);
    if k == |w| {
      assert rs[|rs| - 1].k == k;
    } else {
      var init := w[..|w| - 1];
      assert init[k - 2] == w[k - 2] && init[k - 1] == w[k - 1];
      ReductionsComplete(init, k);
      var j :| 0 <= j < |Reductions(init)| && Reductions(init)[j].k == k;
      assert rs[j] == Reductions(init)[j];
    }
  }

  /** FirstBelow finds the earliest reduction below t, and finds none only
      when no reduction is below t. */
  lemma {:induction false} FirstBelowSpec(rs: seq<Reduction>, t: real)
    ensures FirstBelow(rs, t).None? <==> forall j :: 0 <= j < |rs| ==> rs[j].amount >= t
    ensures FirstBelow(rs, t).Some? ==>
      exists j :: 0 <= j < |rs| && rs[j].amount < t && rs[j].k == FirstBelow(rs, t).value &&
        forall i :: 0 <= i < j ==> rs[i].amount >= t
  {
    if rs != [] && rs[0].amount >= t {
      FirstBelowSpec(rs[1..], t);
      assert forall j :: 1 <= j < |rs| ==> rs[j] == rs[1..][j - 1];
      if FirstBelow(rs[1..], t).Some? {
        var j :| 0 <= j < |rs[1..]| && rs[1..][j].amount < t && rs[1..][j].k == FirstBelow(rs[1..], t).value &&
          forall i :: 0 <= i < j ==> rs[1..][i].amount >= t;
        assert forall i :: 0 <= i < j + 1 ==> rs[i].amount >= t by {
          forall i | 0 <= i < j + 1 ensures rs[i].amount >= t {
            if i > 0 { assert rs[i] == rs[1..][i - 1]; }
          }
        }
      }
    }
  }

  lemma {:induction false} FirstBelowAt(rs: seq<Reduction>, t: real, j: nat)
    requires j < |rs| && rs[j].amount < t
    requires forall i :: 0 <= i < j ==> rs[i].amount >= t
    ensures FirstBelow(rs, t) == Some(rs[j].k)
  {
    if j > 0 {
      assert forall i :: 0 <= i < j - 1 ==> rs[1..][i] == rs[i + 1];
      FirstBelowAt(rs[1..], t, j - 1);
    }
  }

  /** The elbow choice when some reduction is below half the mean: K - 1 for
      the first such reduction's K. */
  lemma ElbowKAtFirstBelow(w: seq<Option<real>>, j: nat)
    requires |w| > 2 && j < |Reductions(w)|
    requires Reductions(w)[j].amount < MeanReduction(Reductions(w)) * 0.5
    requires forall i :: 0 <= i < j ==> Reductions(w)[i].amount >= MeanReduction(Reductions(w)) * 0.5
    ensures ElbowK(w) == Reductions(w)[j].k - 1
  {
    FirstBelowAt(Reductions(w), MeanReduction(Reductions(w)) * 0.5, j);
  }

  /** The elbow choice is the default 3 when there are at most two sweep
      results, no reduction, or no reduction below half the mean. */
  lemma ElbowKDefault(w: seq<Option<real>>)
    requires |w| <= 2 || Reductions(w) == [] ||
      forall j :: 0 <= j < |Reductions(w)| ==> Reductions(w)[j].amount >= MeanReduction(Reductions(w)) * 0.5
    ensures ElbowK(w) == DefaultK
  {
    if |w| > 2 && Reductions(w) != [] {
      FirstBelowSpec(Reductions(w), MeanReduction(Reductions(w)) * 0.5);
    }
  }

  /** A chosen elbow is a K of the sweep short of the last one. */
  lemma ElbowKRange(w: seq<Option<real>>)
    ensures ElbowK(w) == DefaultK || 1 <= ElbowK(w) < |w|
  {
    var rs := Reductions(w);
    if |w| > 2 && rs != [] {
      var t := MeanReduction(rs) * 0.5;
      FirstBelowSpec(rs, t);
      ReductionsSound(w);
    }
  }

  /** For the script's sweep of eight values, the chosen K is always one of
      1..7. */
  lemma ElbowKOfSweep(w: seq<Option<real>>)
    requires |w| == MaxK
    ensures 1 <= ElbowK(w) <= MaxK - 1
  {
    ElbowKRange(w);
  }

  lemma {:induction false} NoUsableNoReductions(w: seq<Option<real>>)
    requires forall j :: 0 <= j < |w| ==> !Usable(w[j])
    ensures Reductions(w) == []
  {
    if |w| >= 2 {
      NoUsableNoReductions(w[..|w| - 1]);
    }
  }

  /** With no usable WCSS value (all failed or zero, as for an empty data
      set, where every WCSS is 0) the default K is kept. */
  lemma NoUsableKeepsDefault(w: seq<Option<real>>)
    requires forall j :: 0 <= j < |w| ==> !Usable(w[j])
    ensures ElbowK(w) == DefaultK
  {
    NoUsableNoReductions(w);
  }

  lemma ReductionsStep(w: seq<Option<real>>, n: nat)
    requires 2 <= n <= |w|
    ensures Reductions(w[..n]) == Reductions(w[..n - 1]) +
      (if Usable(w[n - 2]) && Usable(w[n - 1]) then [Reduction(n, w[n - 2].value - w[n - 1].value)] else [])
  {
    assert w[..n][..n - 1] == w[..n - 1];
  }

  lemma TotalAmountStep(rs: seq<Reduction>, n: nat)
    requires 1 <= n <= |rs|
    ensures TotalAmount(rs[..n]) == TotalAmount(rs[..n - 1]) + rs[n - 1].amount
  {
    assert rs[..n][..n - 1] == rs[..n - 1];
  }

  /** A sharp drop after K = 2 followed by a flat tail selects K = 2: the
      reductions are 490, 2, 1, 1, 1, 1, 1, their mean is 71, and the first
      below 35.5 is the one for K = 3. */
  lemma SharpDropSelectsTwo(w: seq<Option<real>>)
    requires |w| == 8
    requires w[0] == Some(500.0) && w[1] == Some(10.0) && w[2] == Some(8.0) && w[3] == Some(7.0)
    requires w[4] == Some(6.0) && w[5] == Some(5.0) && w[6] == Some(4.0) && w[7] == Some(3.0)
    ensures ElbowK(w) == 2
  {
    var rs := [Reduction(2, 490.0), Reduction(3, 2.0), Reduction(4, 1.0), Reduction(5, 1.0),
               Reduction(6, 1.0), Reduction(7, 1.0), Reduction(8, 1.0)];
    assert Reductions(w[..1]) == [];
    for n := 2 to 9
      invariant Reductions(w[..n - 1]) == rs[..n - 2]
    {
      ReductionsStep(w, n);
      assert rs[..n - 1] == rs[..n - 2] + [rs[n - 2]];
    }
    assert w[..8] == w && rs[..7] == rs;
    assert TotalAmount(rs[..0]) == 0.0;
    for n := 1 to 8
      invariant TotalAmount(rs[..n - 1]) == (if n == 1 then 0.0 else 490.0 + (if n == 2 then 0.0 else 2.0) + (if n <= 3 then 0.0 else (n - 3) as real))
    {
      TotalAmountStep(rs, n);
    }
    assert MeanReduction(rs) * 0.5 == 35.5;
    ElbowKAtFirstBelow(w, 1);
  }

  /** Two usable WCSS values are enough to leave the default: when the second
      is larger than the first, the only reduction is negative, hence below
      half of itself, and K = 1 is chosen. */
  lemma RisingPairSelectsOne(w: seq<Option<real>>)
    requires |w| == 8 && w[0] == Some(1.0) && w[1] == Some(2.0)
    requires forall j :: 2 <= j < 8 ==> w[j] == None
    ensures ElbowK(w) == 1
  {
    var rs := [Reduction(2, -1.0)];
    assert Reductions(w[..1]) == [];
    for n := 2 to 9
      invariant Reductions(w[..n - 1]) == if n == 2 then [] else rs
    {
      ReductionsStep(w, n);
    }
    assert w[..8] == w;
    assert rs[..0] == [];
    assert MeanReduction(rs) == -1.0;
    ElbowKAtFirstBelow(w, 0);
  }

  /** When the second of two usable WCSS values is the smaller, the single
      reduction is positive and not below half of itself, so K stays 3. */
  lemma FallingPairKeepsDefault(w: seq<Option<real>>)
    requires |w| == 8 && w[0] == Some(2.0) && w[1] == Some(1.0)
    requires forall j :: 2 <= j < 8 ==> w[j] == None
    ensures ElbowK(w) == DefaultK
  {
    var rs := [Reduction(2, 1.0)];
    assert Reductions(w[..1]) == [];
    for n := 2 to 9
      invariant Reductions(w[..n - 1]) == if n == 2 then [] else rs
    {
      ReductionsStep(w, n);
    }
    assert w[..8] == w;
    assert rs[..0] == [];
    assert MeanReduction(rs) == 1.0;
    ElbowKDefault(w);
  }
}
