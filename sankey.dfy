/**
 * The node and link lists behind the flow diagram (create_sankey): four
 * passes over the aggregated tiers (Level1, Level2) .. (Level4, Level5).
 * Labels are not namespaced by level, so one string used at two levels is
 * one node.
 */
module Sankey {
  import opened Hierarchy
  import opened Grouping

  /** The link colour of each tier. */
  function TierColor(a: TierIndex): string
  {
    match a
    case 1 => "rgba(0, 24, 168, 0.3)"
    case 2 => "rgba(0, 191, 255, 0.3)"
    case 3 => "rgba(65, 105, 225, 0.3)"
    case 4 => "rgba(135, 206, 235, 0.3)"
  }

  /** One link as the diagram reads it: endpoint labels, value and colour. */
  datatype Link = Link(left: string, right: string, value: real, color: string)

  /**
   * The lists create_sankey builds: `all_nodes`, `node_dict` and the four
   * parallel lists `links_source`, `links_target`, `links_value`, `links_color`.
   */
  datatype SankeyData = SankeyData(
    allNodes: seq<string>,
    nodeDict: map<string, nat>,
    linksSource: seq<nat>,
    linksTarget: seq<nat>,
    linksValue: seq<real>,
    linksColor: seq<string>)

  predicate NoDuplicates(s: seq<string>)
  {
    forall i, j :: 0 <= i < j < |s| ==> s[i] != s[j]
  }

  /** The labels of `s` in the order they are first seen. */
  function Dedup(s: seq<string>): seq<string>
  {
    if s == [] then []
    else
      var d := Dedup(s[..|s| - 1]);
      if s[|s| - 1] in d then d else d + [s[|s| - 1]]
  }

  lemma {:induction false} DedupFacts(s: seq<string>)
    ensures NoDuplicates(Dedup(s))
    ensures forall x :: x in Dedup(s) <==> x in s
  {
    if s != [] {
      var p := s[..|s| - 1];
      DedupFacts(p);
      assert s == p + [s[|s| - 1]];
    }
  }

  /**
   * The labels one tier looks up, in order: in tier 1 the left then the right
   * label of each group, in tiers 2 .. 4 only the right label.
   */
  function TierVisits(gs: seq<Group>, withSource: bool): seq<string>
  {
    if gs == [] then []
    else
      var g := gs[|gs| - 1];
      TierVisits(gs[..|gs| - 1], withSource) + (if withSource then [g.left, g.right] else [g.right])
  }

  lemma {:induction false} TierVisitsMembers(gs: seq<Group>, withSource: bool, x: string)
    ensures x in TierVisits(gs, withSource) <==>
      exists j :: 0 <= j < |gs| && (gs[j].right == x || (withSource && gs[j].left == x))
  {
    if gs != [] {
      var p := gs[..|gs| - 1];
      TierVisitsMembers(p, withSource, x);
      if exists j :: 0 <= j < |gs| && (gs[j].right == x || (withSource && gs[j].left == x)) {
        var j :| 0 <= j < |gs| && (gs[j].right == x || (withSource && gs[j].left == x));
        if j < |p| {
          assert p[j] == gs[j];
        }
      }
      if x in TierVisits(p, withSource) {
        var j :| 0 <= j < |p| && (p[j].right == x || (withSource && p[j].left == x));
        assert gs[j] == p[j];
      }
    }
  }

  /** The links one tier appends. */
  function TierLinks(gs: seq<Group>, color: string): seq<Link>
  {
    seq(|gs|, i requires 0 <= i < |gs| => Link(gs[i].left, gs[i].right, gs[i].total, color))
  }

  /** Every label the four passes look up, in pass order. */
  function Visits(rows: seq<Row>): seq<string>
  {
    TierVisits(Tier(rows, 1), true) + TierVisits(Tier(rows, 2), false)
    + TierVisits(Tier(rows, 3), false) + TierVisits(Tier(rows, 4), false)
  }

  /** The links of the four tiers, in pass order. */
  function Links(rows: seq<Row>): seq<Link>
  {
    TierLinks(Tier(rows, 1), TierColor(1)) + TierLinks(Tier(rows, 2), TierColor(2))
    + TierLinks(Tier(rows, 3), TierColor(3)) + TierLinks(Tier(rows, 4), TierColor(4))
  }

  /**
   * `d` holds the first-seen labels of `visited` without duplicates,
   * `node_dict[l]` is the position of `l` in `all_nodes`, and the four link
   * lists are parallel and spell out `links`, their endpoints given as
   * positions in `all_nodes`.
   */
  ghost predicate Describes(d: SankeyData, visited: seq<string>, links: seq<Link>)
  {
    && d.allNodes == Dedup(visited)
    && (forall l :: l in d.nodeDict <==> l in d.allNodes)
    && (forall l :: l in d.nodeDict ==> d.nodeDict[l] < |d.allNodes| && d.allNodes[d.nodeDict[l]] == l)
    && |d.linksSource| == |links| && |d.linksTarget| == |links|
    && |d.linksValue| == |links| && |d.linksColor| == |links|
    && (forall i :: 0 <= i < |links| ==>
          && d.linksSource[i] < |d.allNodes| && d.allNodes[d.linksSource[i]] == links[i].left
          && d.linksTarget[i] < |d.allNodes| && d.allNodes[d.linksTarget[i]] == links[i].right
          && d.linksValue[i] == links[i].value && d.linksColor[i] == links[i].color)
  }

  /**
   * Register a label the first time it is seen: it gets the next position in
   * `all_nodes` and that position in `node_dict`.
   */
  method Register(d: SankeyData, node: string, ghost visited: seq<string>, ghost links: seq<Link>)
    returns (d': SankeyData)
    requires Describes(d, visited, links)
    ensures Describes(d', visited + [node], links)
    ensures node in d'.nodeDict
    ensures forall l :: l in d.nodeDict ==> l in d'.nodeDict
  {
    assert (visited + [node])[..|visited|] == visited;
    DedupFacts(visited);
    if node in d.nodeDict {
      d' := d;
    } else {
      d' := d.(allNodes := d.allNodes + [node], nodeDict := d.nodeDict[node := |d.allNodes|]);
    }
  }

  /** Append the link of one group: endpoint positions looked up in `node_dict`, the summed cost and the tier colour. */
  method AppendLink(d: SankeyData, g: Group, color: string, ghost visited: seq<string>, ghost links: seq<Link>)
    returns (d': SankeyData)
    requires Describes(d, visited, links)
    requires g.left in d.nodeDict && g.right in d.nodeDict
    ensures Describes(d', visited, links + [Link(g.left, g.right, g.total, color)])
    ensures d'.allNodes == d.allNodes && d'.nodeDict == d.nodeDict
  {
    d' := d.(linksSource := d.linksSource + [d.nodeDict[g.left]],
             linksTarget := d.linksTarget + [d.nodeDict[g.right]],
             linksValue := d.linksValue + [g.total],
             linksColor := d.linksColor + [color]);
  }

  lemma TierStep(gs: seq<Group>, i: int, withSource: bool, color: string, visited: seq<string>, links: seq<Link>)
    requires 0 <= i < |gs|
    ensures visited + TierVisits(gs[..i + 1], withSource) ==
      visited + TierVisits(gs[..i], withSource) + TierVisits([gs[i]], withSource)
    ensures links + TierLinks(gs[..i + 1], color) ==
      links + TierLinks(gs[..i], color) + [Link(gs[i].left, gs[i].right, gs[i].total, color)]
  {
    assert gs[..i + 1][..i] == gs[..i];
    assert [gs[i]][..0] == [];
    assert TierLinks(gs[..i + 1], color) == TierLinks(gs[..i], color) + [Link(gs[i].left, gs[i].right, gs[i].total, color)];
  }

  /**
   * The body of a pass for one group: register the labels (the source label
   * only in tier 1), then append the link.
   */
  method AddGroup(d: SankeyData, g: Group, color: string, withSource: bool,
                  ghost visited: seq<string>, ghost links: seq<Link>)
    returns (d': SankeyData)
    requires Describes(d, visited, links)
    requires !withSource ==> g.left in d.nodeDict
    ensures Describes(d', visited + TierVisits([g], withSource), links + [Link(g.left, g.right, g.total, color)])
    ensures forall l :: l in d.nodeDict ==> l in d'.nodeDict
  {
    assert [g][..0] == [];
    ghost var seen := visited;
    d' := d;
    if withSource {
      d' := Register(d', g.left, seen, links);
      seen := seen + [g.left];
    }
    d' := Register(d', g.right, seen, links);
    seen := seen + [g.right];
    assert seen == visited + TierVisits([g], withSource);
    d' := AppendLink(d', g, color, seen, links);
  }

  /**
   * One pass of create_sankey over the groups of a tier: register the labels
   * (the source label only in tier 1), then append one link per group. In
   * tiers 2 .. 4 the source label is looked up without registering it, which
   * raises KeyError unless it is already a node.
   */
  method AddTier(d: SankeyData, gs: seq<Group>, color: string, withSource: bool,
                 ghost visited: seq<string>, ghost links: seq<Link>)
    returns (d': SankeyData)
    requires Describes(d, visited, links)
    requires !withSource ==> forall g :: g in gs ==> g.left in d.nodeDict
    ensures Describes(d', visited + TierVisits(gs, withSource), links + TierLinks(gs, color))
  {
    d' := d;
    ghost var seen := visited;
    ghost var done := links;
    var i := 0;
    while i < |gs|
      invariant 0 <= i <= |gs|
      invariant seen == visited + TierVisits(gs[..i], withSource)
      invariant done == links + TierLinks(gs[..i], color)
      invariant Describes(d', seen, done)
      invariant forall l :: l in d.nodeDict ==> l in d'.nodeDict
    {
      TierStep(gs, i, withSource, color, visited, links);
      assert gs[i] in gs;
      d' := AddGroup(d', gs[i], color, withSource, seen, done);
      seen := seen + TierVisits([gs[i]], withSource);
      done := done + [Link(gs[i].left, gs[i].right, gs[i].total, color)];
      i := i + 1;
    }
    assert gs[..i] == gs;
  }

  /**
   * create_sankey without the figure: the node list holds each label once,
   * in first-seen order, `node_dict` indexes it, and the link lists are the
   * four tiers' groups with valid endpoint indices.
   */
  method CreateSankey(rows: seq<Row>) returns (d: SankeyData)
    ensures Describes(d, Visits(rows), Links(rows))
    ensures NoDuplicates(d.allNodes)
    ensures forall l :: l in d.allNodes <==> IsLabelOf(rows, l)
    ensures |d.linksSource| == |d.linksTarget| == |d.linksValue| == |d.linksColor| == |Links(rows)|
  {
    var t1, t2, t3, t4 := Tier(rows, 1), Tier(rows, 2), Tier(rows, 3), Tier(rows, 4);
    d := SankeyData([], map[], [], [], [], []);
    d := AddTier(d, t1, TierColor(1), true, [], []);
    ghost var v, ls := TierVisits(t1, true), TierLinks(t1, TierColor(1));
    assert [] + v == v && [] + ls == ls;
    SourcesSeen(rows, 1, v);
    Registered(d, v, ls, t2);
    d := AddTier(d, t2, TierColor(2), false, v, ls);
    v, ls := v + TierVisits(t2, false), ls + TierLinks(t2, TierColor(2));
    SourcesSeen(rows, 2, v);
    Registered(d, v, ls, t3);
    d := AddTier(d, t3, TierColor(3), false, v, ls);
    v, ls := v + TierVisits(t3, false), ls + TierLinks(t3, TierColor(3));
    SourcesSeen(rows, 3, v);
    Registered(d, v, ls, t4);
    d := AddTier(d, t4, TierColor(4), false, v, ls);
    v, ls := v + TierVisits(t4, false), ls + TierLinks(t4, TierColor(4));
    VisitsAreLabels(rows);
    DedupFacts(v);
  }

  /** A label already looked up is a key of `node_dict`. */
  lemma Registered(d: SankeyData, visited: seq<string>, links: seq<Link>, gs: seq<Group>)
    requires Describes(d, visited, links)
    requires forall g :: g in gs ==> g.left in visited
    ensures forall g :: g in gs ==> g.left in d.nodeDict
  {
    DedupFacts(visited);
  }

  /**
   * The source label of every group of tier a + 1 is the target label of a
   * group of tier a (both come from the same row), so the lookups of tiers
   * 2 .. 4 never miss.
   */
  lemma SourcesSeen(rows: seq<Row>, a: TierIndex, seen: seq<string>)
    requires a <= 3
    requires forall x :: x in TierVisits(Tier(rows, a), a == 1) ==> x in seen
    ensures forall g :: g in Tier(rows, a + 1) ==> g.left in seen
  {
    var next := Tier(rows, a + 1);
    TierFacts(rows, a);
    TierFacts(rows, a + 1);
    forall g | g in next ensures g.left in seen {
      assert (g.left, g.right) in Keys(next);
      var r :| 0 <= r < |rows| && LevelValue(rows[r], a + 1) == g.left && LevelValue(rows[r], a + 2) == g.right;
      var l := LevelValue(rows[r], a);
      assert (l, g.left) in Keys(Tier(rows, a));
      var h :| h in Tier(rows, a) && Key(h) == (l, g.left);
      var j :| 0 <= j < |Tier(rows, a)| && Tier(rows, a)[j] == h;
      TierVisitsMembers(Tier(rows, a), a == 1, g.left);
    }
  }

  /** A label is visited exactly when it is the value of some row at some level. */
  lemma VisitsAreLabels(rows: seq<Row>)
    ensures forall l :: l in Visits(rows) <==> IsLabelOf(rows, l)
  {
    forall l ensures l in Visits(rows) <==> IsLabelOf(rows, l) {
      if l in Visits(rows) {
        VisitedIsLabel(rows, l);
      }
      if IsLabelOf(rows, l) {
        LabelIsVisited(rows, l);
      }
    }
  }

  lemma GroupOfTier(rows: seq<Row>, a: TierIndex, j: int) returns (r: int)
    requires 0 <= j < |Tier(rows, a)|
    ensures 0 <= r < |rows|
    ensures LevelValue(rows[r], a) == Tier(rows, a)[j].left && LevelValue(rows[r], a + 1) == Tier(rows, a)[j].right
  {
    TierFacts(rows, a);
    var g := Tier(rows, a)[j];
    assert g in Tier(rows, a);
    assert (g.left, g.right) in Keys(Tier(rows, a));
    r :| 0 <= r < |rows| && LevelValue(rows[r], a) == g.left && LevelValue(rows[r], a + 1) == g.right;
  }

  lemma TierOfRow(rows: seq<Row>, a: TierIndex, r: int) returns (j: int)
    requires 0 <= r < |rows|
    ensures 0 <= j < |Tier(rows, a)|
    ensures Tier(rows, a)[j].left == LevelValue(rows[r], a) && Tier(rows, a)[j].right == LevelValue(rows[r], a + 1)
  {
    TierFacts(rows, a);
    var q := (LevelValue(rows[r], a), LevelValue(rows[r], a + 1));
    assert q in Keys(Tier(rows, a));
    var h :| h in Tier(rows, a) && Key(h) == q;
    j :| 0 <= j < |Tier(rows, a)| && Tier(rows, a)[j] == h;
  }

  lemma VisitedIsLabel(rows: seq<Row>, l: string)
    requires l in Visits(rows)
    ensures IsLabelOf(rows, l)
  {
    var t1, t2, t3, t4 := Tier(rows, 1), Tier(rows, 2), Tier(rows, 3), Tier(rows, 4);
    var r: int, k: LevelIndex;
    if l in TierVisits(t1, true) {
      TierVisitsMembers(t1, true, l);
      var j :| 0 <= j < |t1| && (t1[j].right == l || t1[j].left == l);
      r := GroupOfTier(rows, 1, j);
      k := if t1[j].left == l then 1 else 2;
    } else if l in TierVisits(t2, false) {
      TierVisitsMembers(t2, false, l);
      var j :| 0 <= j < |t2| && t2[j].right == l;
      r := GroupOfTier(rows, 2, j);
      k := 3;
    } else if l in TierVisits(t3, false) {
      TierVisitsMembers(t3, false, l);
      var j :| 0 <= j < |t3| && t3[j].right == l;
      r := GroupOfTier(rows, 3, j);
      k := 4;
    } else {
      TierVisitsMembers(t4, false, l);
      var j :| 0 <= j < |t4| && t4[j].right == l;
      r := GroupOfTier(rows, 4, j);
      k := 5;
    }
    assert LevelValue(rows[r], k) == l;
  }

  lemma LabelIsVisited(rows: seq<Row>, l: string)
    requires IsLabelOf(rows, l)
    ensures l in Visits(rows)
  {
    var r, k: LevelIndex :| 0 <= r < |rows| && LevelValue(rows[r], k) == l;
    var a: TierIndex := if k == 1 then 1 else k - 1;
    var j := TierOfRow(rows, a, r);
    TierVisitsMembers(Tier(rows, a), a == 1, l);
  }

  function SumValues(links: seq<Link>): real
  {
    if links == [] then 0.0 else links[0].value + SumValues(links[1..])
  }

  /**
   * Conservation of flow: in every tier the link values add up to the total
   * cost of the filtered rows.
   */
  lemma TierConservation(rows: seq<Row>, a: TierIndex, color: string)
    ensures SumValues(TierLinks(Tier(rows, a), color)) == TotalCost(rows)
  {
    TierFacts(rows, a);
    LinkSums(Tier(rows, a), color);
  }

  lemma {:induction false} LinkSums(gs: seq<Group>, color: string)
    ensures SumValues(TierLinks(gs, color)) == SumTotals(gs)
  {
    if gs != [] {
      assert TierLinks(gs, color)[1..] == TierLinks(gs[1..], color);
      LinkSums(gs[1..], color);
    }
  }

  /**
   * A tier has exactly one link per distinct adjacent-level pair of the rows,
   * and each link's value is the summed cost of the rows with that pair.
   */
  lemma TierLinksArePairs(rows: seq<Row>, a: TierIndex, color: string)
    ensures |TierLinks(Tier(rows, a), color)| == |Keys(Tier(rows, a))|
    ensures forall i, j :: 0 <= i < j < |TierLinks(Tier(rows, a), color)| ==>
      (TierLinks(Tier(rows, a), color)[i].left, TierLinks(Tier(rows, a), color)[i].right)
      != (TierLinks(Tier(rows, a), color)[j].left, TierLinks(Tier(rows, a), color)[j].right)
    ensures forall i :: 0 <= i < |TierLinks(Tier(rows, a), color)| ==>
      TierLinks(Tier(rows, a), color)[i].value == KeyCost(Project(rows, a), Key(Tier(rows, a)[i]))
  {
    var gs := Tier(rows, a);
    TierFacts(rows, a);
    SortedKeyCount(gs);
    GroupTotals(Project(rows, a));
    forall i, j | 0 <= i < j < |gs| ensures Key(gs[i]) != Key(gs[j]) {
      SortedKeysDistinct(gs, i, j);
    }
  }

  /** An empty filtered table yields no node and no link. */
  lemma EmptyTable()
    ensures Visits([]) == [] && Links([]) == []
  {
    assert forall a: TierIndex :: Project([], a) == [];
  }
}
