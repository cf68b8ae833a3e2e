/** The four key figures shown above the charts (update_graphs). */
module Kpis {
  import opened Wrappers
  import opened Hierarchy

  /**
   * Total cost, number of regions (distinct Level2), number of divisions
   * (distinct Level4) and the mean cost, which pandas reports as NaN (here
   * None) for an empty table.
   */
  datatype Kpis = Kpis(totalCost: real, regionCount: nat, divisionCount: nat, avgCost: Option<real>)

  /** `Cost.sum()`, `Level2.nunique()`, `Level4.nunique()`, `Cost.mean()`. */
  function ComputeKpis(rows: seq<Row>): (k: Kpis)
    ensures k.avgCost.Some? <==> rows != []
    ensures k.avgCost.Some? ==> k.avgCost.value * |rows| as real == k.totalCost
    ensures k.regionCount <= |rows| && k.divisionCount <= |rows|
    ensures rows != [] <==> k.regionCount > 0
    ensures rows != [] <==> k.divisionCount > 0
  {
    DistinctBounds(rows, 2);
    DistinctBounds(rows, 4);
    var total := TotalCost(rows);
    Kpis(total, |Distinct(rows, 2)|, |Distinct(rows, 4)|,
         if rows == [] then None else Some(total / |rows| as real))
  }

  /** The total is the sum of the costs of the filtered rows, one term per row. */
  lemma {:induction false} TotalIsSumOfRows(a: seq<Row>, b: seq<Row>)
    ensures TotalCost(a + b) == TotalCost(a) + TotalCost(b)
  {
    if a != [] {
      TotalIsSumOfRows(a[1..], b);
      assert (a + b)[1..] == a[1..] + b;
    } else {
      assert a + b == b;
    }
  }

  /**
   * Narrowing the filters never increases the region or division count, nor,
   * when costs are non-negative, the total.
   */
  lemma NarrowerKpis(narrow: seq<Row>, wide: seq<Row>)
    requires IsSubsequence(narrow, wide)
    ensures ComputeKpis(narrow).regionCount <= ComputeKpis(wide).regionCount
    ensures ComputeKpis(narrow).divisionCount <= ComputeKpis(wide).divisionCount
    ensures (forall i :: 0 <= i < |wide| ==> wide[i].cost >= 0.0) ==>
      ComputeKpis(narrow).totalCost <= ComputeKpis(wide).totalCost
  {
    SubsequenceDistinct(narrow, wide, 2);
    SubsequenceDistinct(narrow, wide, 4);
    if forall i :: 0 <= i < |wide| ==> wide[i].cost >= 0.0 {
      SubsequenceCostsLess(narrow, wide);
    }
  }
}
