/**
 * update_graphs as a whole, for the part with behaviour: filter the table,
 * then compute the key figures and the flow diagram's lists from the
 * filtered rows. The other charts are rendering and are not modelled.
 */
module Dashboard {
  import opened Wrappers
  import opened Hierarchy
  import opened Filters
  import opened Kpis
  import opened Grouping
  import opened Sankey

  datatype GraphData = GraphData(sankey: SankeyData, kpis: Kpis)

  method UpdateGraphs(rows: seq<Row>, fs: FilterSet) returns (r: Result<GraphData, FilterError>)
    ensures r.Err? <==> Raises(fs)
    ensures r.Err? ==> r.error == FirstError(fs)
    ensures r.Ok? ==> r.value.kpis == ComputeKpis(Select(rows, fs))
    ensures r.Ok? ==> Describes(r.value.sankey, Visits(Select(rows, fs)), Links(Select(rows, fs)))
    ensures r.Ok? ==> forall l :: l in r.value.sankey.allNodes <==> IsLabelOf(Select(rows, fs), l)
  {
    var filtered :- FilterRows(rows, fs);
    var kpis := ComputeKpis(filtered);
    var sankey := CreateSankey(filtered);
    return Ok(GraphData(sankey, kpis));
  }

  /**
   * The flow shown in every tier of the diagram equals the total cost shown
   * in the key figures.
   */
  lemma FlowMatchesTotal(rows: seq<Row>, fs: FilterSet, a: TierIndex)
    ensures SumValues(TierLinks(Tier(Select(rows, fs), a), TierColor(a))) == ComputeKpis(Select(rows, fs)).totalCost
  {
    TierConservation(Select(rows, fs), a, TierColor(a));
  }

  /** Two rows sharing the path A > B > C > D and ending in E (cost 100) and F (cost 50). */
  function TwoLeafRows(): seq<Row>
  {
    [Row("A", "B", "C", "D", "E", 100.0), Row("A", "B", "C", "D", "F", 50.0)]
  }

  /** Their key figures: a total of 150 over one region and one division, a mean of 75. */
  lemma TwoLeafKpis(rows: seq<Row>)
    requires rows == TwoLeafRows()
    ensures ComputeKpis(rows) == Kpis(150.0, 1, 1, Some(75.0))
  {
    forall k: LevelIndex | k <= 4 ensures Distinct(rows, k) == {LevelValue(rows[0], k)} {
      assert rows[0] in rows;
      forall row | row in rows ensures LevelValue(row, k) == LevelValue(rows[0], k) {}
    }
  }

  /** Two entries with the same pair aggregate into one group. */
  lemma SamePairGroups(l: string, r: string, x: real, y: real)
    ensures GroupBy([Entry(l, r, x), Entry(l, r, y)]) == [Group(l, r, x + y)]
  {
    var es := [Entry(l, r, x), Entry(l, r, y)];
    assert es[1..] == [Entry(l, r, y)] && es[1..][1..] == [];
    assert GroupBy(es[1..]) == [Group(l, r, y)];
  }

  /** In tiers 1 .. 3 both rows share the pair, so each of them is one link of 150. */
  lemma TwoLeafSharedTier(rows: seq<Row>, a: TierIndex)
    requires rows == TwoLeafRows() && a <= 3
    ensures Tier(rows, a) == [Group(LevelValue(rows[0], a), LevelValue(rows[0], a + 1), 150.0)]
  {
    var l, r := LevelValue(rows[0], a), LevelValue(rows[0], a + 1);
    assert Project(rows, a) == [Entry(l, r, 100.0), Entry(l, r, 50.0)];
    SamePairGroups(l, r, 100.0, 50.0);
  }

  /** In tier 4 the flow from D splits into 100 to E and 50 to F, E sorting first. */
  lemma TwoLeafSplitTier(rows: seq<Row>)
    requires rows == TwoLeafRows()
    ensures Tier(rows, 4) == [Group("D", "E", 100.0), Group("D", "F", 50.0)]
  {
    var es := [Entry("D", "E", 100.0), Entry("D", "F", 50.0)];
    assert Project(rows, 4) == es;
    assert es[1..] == [Entry("D", "F", 50.0)] && es[1..][1..] == [];
    assert GroupBy(es[1..]) == [Group("D", "F", 50.0)];
    assert StringOrder.Less("E", "F");
    assert StringOrder.PairLess(("D", "E"), ("D", "F"));
  }

  lemma TwoLeafTiers(rows: seq<Row>)
    requires rows == TwoLeafRows()
    ensures Tier(rows, 1) == [Group("A", "B", 150.0)]
    ensures Tier(rows, 2) == [Group("B", "C", 150.0)]
    ensures Tier(rows, 3) == [Group("C", "D", 150.0)]
    ensures Tier(rows, 4) == [Group("D", "E", 100.0), Group("D", "F", 50.0)]
  {
    TwoLeafSharedTier(rows, 1);
    TwoLeafSharedTier(rows, 2);
    TwoLeafSharedTier(rows, 3);
    TwoLeafSplitTier(rows);
  }

  /** A tier of one group yields one link. */
  lemma OneGroupLinks(g: Group, color: string)
    ensures TierLinks([g], color) == [Link(g.left, g.right, g.total, color)]
  {
  }

  /** A tier of two groups yields their two links, in order. */
  lemma TwoGroupLinks(g: Group, h: Group, color: string)
    ensures TierLinks([g, h], color) == [Link(g.left, g.right, g.total, color), Link(h.left, h.right, h.total, color)]
  {
  }

  /** Rows whose four tiers are those of the two-leaf table. */
  ghost predicate TwoLeafShaped(rows: seq<Row>)
  {
    Tier(rows, 1) == [Group("A", "B", 150.0)]
    && Tier(rows, 2) == [Group("B", "C", 150.0)]
    && Tier(rows, 3) == [Group("C", "D", 150.0)]
    && Tier(rows, 4) == [Group("D", "E", 100.0), Group("D", "F", 50.0)]
  }

  lemma ShapedLinks(rows: seq<Row>)
    requires TwoLeafShaped(rows)
    ensures Links(rows) ==
      [Link("A", "B", 150.0, TierColor(1)), Link("B", "C", 150.0, TierColor(2)),
       Link("C", "D", 150.0, TierColor(3)), Link("D", "E", 100.0, TierColor(4)),
       Link("D", "F", 50.0, TierColor(4))]
  {
    OneGroupLinks(Group("A", "B", 150.0), TierColor(1));
    OneGroupLinks(Group("B", "C", 150.0), TierColor(2));
    OneGroupLinks(Group("C", "D", 150.0), TierColor(3));
    TwoGroupLinks(Group("D", "E", 100.0), Group("D", "F", 50.0), TierColor(4));
  }

  /** Their five links: one per shared tier, and the split at D. */
  lemma TwoLeafLinks(rows: seq<Row>)
    requires rows == TwoLeafRows()
    ensures Links(rows) ==
      [Link("A", "B", 150.0, TierColor(1)), Link("B", "C", 150.0, TierColor(2)),
       Link("C", "D", 150.0, TierColor(3)), Link("D", "E", 100.0, TierColor(4)),
       Link("D", "F", 50.0, TierColor(4))]
  {
    TwoLeafTiers(rows);
    ShapedLinks(rows);
  }

  lemma OneGroupVisits(g: Group, withSource: bool)
    ensures TierVisits([g], withSource) == if withSource then [g.left, g.right] else [g.right]
  {
    assert [g][..0] == [];
  }

  lemma TwoGroupVisits(g: Group, h: Group)
    ensures TierVisits([g, h], false) == [g.right, h.right]
  {
    assert [g, h][..1] == [g];
    OneGroupVisits(g, false);
  }

  lemma ShapedNodes(rows: seq<Row>)
    requires TwoLeafShaped(rows)
    ensures Visits(rows) == ["A", "B", "C", "D", "E", "F"]
  {
    OneGroupVisits(Group("A", "B", 150.0), true);
    OneGroupVisits(Group("B", "C", 150.0), false);
    OneGroupVisits(Group("C", "D", 150.0), false);
    TwoGroupVisits(Group("D", "E", 100.0), Group("D", "F", 50.0));
  }

  lemma SixLabelsDistinct(v: seq<string>)
    requires v == ["A", "B", "C", "D", "E", "F"]
    ensures NoDuplicates(v)
  {
    forall i, j | 0 <= i < j < |v| ensures v[i] != v[j] {
      assert v[i][0] != v[j][0];
    }
  }

  /** Their six nodes, in first-seen order. */
  lemma TwoLeafNodes(rows: seq<Row>)
    requires rows == TwoLeafRows()
    ensures Dedup(Visits(rows)) == ["A", "B", "C", "D", "E", "F"]
  {
    TwoLeafTiers(rows);
    ShapedNodes(rows);
    SixLabelsDistinct(Visits(rows));
    DedupDistinct(Visits(rows));
  }

  /** A sequence without duplicates is its own first-seen list. */
  lemma {:induction false} DedupDistinct(s: seq<string>)
    requires NoDuplicates(s)
    ensures Dedup(s) == s
  {
    if s != [] {
      var p := s[..|s| - 1];
      DedupDistinct(p);
      DedupFacts(p);
      assert s == p + [s[|s| - 1]];
    }
  }
}
