/**
 * Bucketing a number into intervals, as `pd.cut(x, bins=edges, labels=[0..])`
 * does with its defaults `right=True, include_lowest=False`: bin i is the
 * right-closed interval (edges[i], edges[i+1]], and a value in no bin gets NaN
 * (modelled as None).
 */
module Binning {
  import opened Wrappers

  /** `pd.cut` demands monotonically increasing bin edges. */
  predicate Increasing(edges: seq<real>) {
    forall i, j :: 0 <= i < j < |edges| ==> edges[i] < edges[j]
  }

  /** Bin i of `edges` holds x. */
  predicate InBin(x: real, edges: seq<real>, i: nat) {
    i + 1 < |edges| && edges[i] < x <= edges[i + 1]
  }

  /** Scans the bins from `i` on for the one holding x; x already lies above edges[i] unless i == 0. */
  function CutFrom(x: real, edges: seq<real>, i: nat): (r: Option<nat>)
    requires Increasing(edges)
    requires 0 < i < |edges| ==> edges[i] < x
    ensures r.Some? ==> i <= r.value && InBin(x, edges, r.value)
    ensures r.None? <==> i + 1 >= |edges| || x <= edges[i] || edges[|edges| - 1] < x
    decreases |edges| - i
  {
    if i + 1 >= |edges| || x <= edges[i] then None
    else if x <= edges[i + 1] then Some(i)
    else CutFrom(x, edges, i + 1)
  }

  /** The label of the bin holding x, or None when x lies outside (edges[0], edges[last]]. */
  function Cut(x: real, edges: seq<real>): (r: Option<nat>)
    requires Increasing(edges)
    ensures r.Some? ==> InBin(x, edges, r.value)
    ensures r.None? <==> |edges| < 2 || x <= edges[0] || edges[|edges| - 1] < x
  {
    CutFrom(x, edges, 0)
  }

  /** Bins do not overlap: the bin holding x is the label `Cut` returns. */
  lemma CutIn(x: real, edges: seq<real>, i: nat)
    requires Increasing(edges)
    requires InBin(x, edges, i)
    ensures Cut(x, edges) == Some(i)
  {
    assert edges[0] <= edges[i] && edges[i + 1] <= edges[|edges| - 1];
  }

  const AgeEdges: seq<real> := [0.0, 40.0, 55.0, 70.0, 100.0]
  const AgeLevels: nat := 4
  const CholEdges: seq<real> := [0.0, 200.0, 240.0, 600.0]
  const CholLevels: nat := 3

  /** `pd.cut(df['age'], bins=[0,40,55,70,100], labels=[0,1,2,3])`. */
  function AgeBin(age: real): (r: Option<nat>)
    ensures r.Some? ==> r.value < AgeLevels && AgeEdges[r.value] < age <= AgeEdges[r.value + 1]
    ensures r.None? <==> age <= 0.0 || 100.0 < age
  {
    Cut(age, AgeEdges)
  }

  /** `pd.cut(df['chol'], bins=[0,200,240,600], labels=[0,1,2])`. */
  function CholBin(chol: real): (r: Option<nat>)
    ensures r.Some? ==> r.value < CholLevels && CholEdges[r.value] < chol <= CholEdges[r.value + 1]
    ensures r.None? <==> chol <= 0.0 || 600.0 < chol
  {
    Cut(chol, CholEdges)
  }

  /** The four age bins are (0,40], (40,55], (55,70] and (70,100]; other ages get no bin. */
  lemma AgeBinIntervals(age: real)
    ensures AgeBin(age) == Some(0) <==> 0.0 < age <= 40.0
    ensures AgeBin(age) == Some(1) <==> 40.0 < age <= 55.0
    ensures AgeBin(age) == Some(2) <==> 55.0 < age <= 70.0
    ensures AgeBin(age) == Some(3) <==> 70.0 < age <= 100.0
    ensures AgeBin(age) == None <==> age <= 0.0 || 100.0 < age
    ensures AgeBin(age).Some? ==> AgeBin(age).value < AgeLevels
  {
    if 0.0 < age <= 40.0 { CutIn(age, AgeEdges, 0); }
    else if 40.0 < age <= 55.0 { CutIn(age, AgeEdges, 1); }
    else if 55.0 < age <= 70.0 { CutIn(age, AgeEdges, 2); }
    else if 70.0 < age <= 100.0 { CutIn(age, AgeEdges, 3); }
  }

  /** The three cholesterol bins are (0,200], (200,240] and (240,600]; other values get no bin. */
  lemma CholBinIntervals(chol: real)
    ensures CholBin(chol) == Some(0) <==> 0.0 < chol <= 200.0
    ensures CholBin(chol) == Some(1) <==> 200.0 < chol <= 240.0
    ensures CholBin(chol) == Some(2) <==> 240.0 < chol <= 600.0
    ensures CholBin(chol) == None <==> chol <= 0.0 || 600.0 < chol
    ensures CholBin(chol).Some? ==> CholBin(chol).value < CholLevels
  {
    if 0.0 < chol <= 200.0 { CutIn(chol, CholEdges, 0); }
    else if 200.0 < chol <= 240.0 { CutIn(chol, CholEdges, 1); }
    else if 240.0 < chol <= 600.0 { CutIn(chol, CholEdges, 2); }
  }

  /** Boundary values fall into the lower bin; 0 and values past the top edge fall into none. */
  lemma BinBoundaries()
    ensures AgeBin(40.0) == Some(0) && AgeBin(55.0) == Some(1) && AgeBin(70.0) == Some(2)
    ensures AgeBin(100.0) == Some(3) && AgeBin(63.0) == Some(2)
    ensures AgeBin(0.0) == None && AgeBin(100.5) == None
    ensures CholBin(200.0) == Some(0) && CholBin(240.0) == Some(1) && CholBin(600.0) == Some(2)
    ensures CholBin(233.0) == Some(1) && CholBin(0.0) == None && CholBin(601.0) == None
  {
    AgeBinIntervals(40.0);
    AgeBinIntervals(55.0);
    AgeBinIntervals(70.0);
    AgeBinIntervals(100.0);
    AgeBinIntervals(63.0);
    AgeBinIntervals(0.0);
    AgeBinIntervals(100.5);
    CholBinIntervals(200.0);
    CholBinIntervals(240.0);
    CholBinIntervals(600.0);
    CholBinIntervals(233.0);
    CholBinIntervals(0.0);
    CholBinIntervals(601.0);
  }
}
