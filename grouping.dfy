/**
 * `df.groupby([left, right])['Cost'].sum().reset_index()`: one group per
 * distinct (left, right) pair present in the rows, iterated in sorted key
 * order (pandas sorts group keys by default), carrying the summed cost.
 */
module Grouping {
  import opened Hierarchy
  import opened StringOrder

  /** The two grouping columns and the cost of one row. */
  datatype Entry = Entry(left: string, right: string, cost: real)

  /** One row of the aggregated frame. */
  datatype Group = Group(left: string, right: string, total: real)

  function Key(g: Group): (string, string)
  {
    (g.left, g.right)
  }

  function EntryKey(e: Entry): (string, string)
  {
    (e.left, e.right)
  }

  /** Group keys strictly increase, so no pair is listed twice. */
  predicate Sorted(gs: seq<Group>)
  {
    forall i, j :: 0 <= i < j < |gs| ==> PairLess(Key(gs[i]), Key(gs[j]))
  }

  function Keys(gs: seq<Group>): set<(string, string)>
  {
    set g | g in gs :: Key(g)
  }

  function EntryKeys(es: seq<Entry>): set<(string, string)>
  {
    set e | e in es :: EntryKey(e)
  }

  function SumTotals(gs: seq<Group>): real
  {
    if gs == [] then 0.0 else gs[0].total + SumTotals(gs[1..])
  }

  function EntriesCost(es: seq<Entry>): real
  {
    if es == [] then 0.0 else es[0].cost + EntriesCost(es[1..])
  }

  /** The summed cost of the entries whose pair is `q`. */
  function KeyCost(es: seq<Entry>, q: (string, string)): real
  {
    if es == [] then 0.0
    else (if EntryKey(es[0]) == q then es[0].cost else 0.0) + KeyCost(es[1..], q)
  }

  /** The total of the first group keyed `q`, 0 when there is none. */
  function Lookup(gs: seq<Group>, q: (string, string)): real
  {
    if gs == [] then 0.0 else if Key(gs[0]) == q then gs[0].total else Lookup(gs[1..], q)
  }

  lemma {:induction false} LookupAbsent(gs: seq<Group>, q: (string, string))
    requires q !in Keys(gs)
    ensures Lookup(gs, q) == 0.0
  {
    if gs != [] {
      assert Keys(gs[1..]) <= Keys(gs);
      LookupAbsent(gs[1..], q);
    }
  }

  lemma KeysCons(g: Group, gs: seq<Group>)
    ensures Keys([g] + gs) == {Key(g)} + Keys(gs)
  {
    var r := [g] + gs;
    forall x | x in Keys(r) ensures x in {Key(g)} + Keys(gs) {
      var h :| h in r && Key(h) == x;
      if h != g {
        assert h in gs;
      }
    }
    assert Keys(gs) <= Keys(r) by {
      forall x | x in Keys(gs) ensures x in Keys(r) {
        var h :| h in gs && Key(h) == x;
        assert h in r;
      }
    }
  }

  /** A key below the first of a sorted list is below all of them, so absent. */
  lemma BelowSorted(gs: seq<Group>, q: (string, string))
    requires Sorted(gs) && gs != [] && PairLess(q, Key(gs[0]))
    ensures forall j :: 0 <= j < |gs| ==> PairLess(q, Key(gs[j]))
    ensures q !in Keys(gs)
  {
    forall j | 0 < j < |gs| ensures PairLess(q, Key(gs[j])) {
      PairLessTransitive(q, Key(gs[0]), Key(gs[j]));
    }
    if q in Keys(gs) {
      var h :| h in gs && Key(h) == q;
      var j :| 0 <= j < |gs| && gs[j] == h;
      PairLessIrreflexive(q);
      assert false;
    }
  }

  /** Prepending a key below every key of a sorted list keeps it sorted. */
  lemma ConsSorted(g: Group, rest: seq<Group>)
    requires Sorted(rest)
    requires forall j :: 0 <= j < |rest| ==> PairLess(Key(g), Key(rest[j]))
    ensures Sorted([g] + rest)
  {
    var r := [g] + rest;
    forall i, j | 0 <= i < j < |r| ensures PairLess(Key(r[i]), Key(r[j])) {
      if i > 0 {
        assert r[i] == rest[i - 1] && r[j] == rest[j - 1];
      } else {
        assert r[j] == rest[j - 1];
      }
    }
  }

  lemma ConsSums(g: Group, rest: seq<Group>)
    ensures SumTotals([g] + rest) == g.total + SumTotals(rest)
    ensures forall p :: Lookup([g] + rest, p) == if Key(g) == p then g.total else Lookup(rest, p)
  {
    assert ([g] + rest)[1..] == rest;
  }

  /** Every key of `rest` lies above the head of `gs` when it comes from `gs`'s tail or is above it. */
  lemma AboveHead(gs: seq<Group>, q: (string, string), rest: seq<Group>)
    requires Sorted(gs) && gs != [] && PairLess(Key(gs[0]), q)
    requires Keys(rest) == Keys(gs[1..]) + {q}
    ensures forall j :: 0 <= j < |rest| ==> PairLess(Key(gs[0]), Key(rest[j]))
  {
    forall j | 0 <= j < |rest| ensures PairLess(Key(gs[0]), Key(rest[j])) {
      assert rest[j] in rest;
      var x := Key(rest[j]);
      assert x in Keys(rest);
      if x != q {
        var h :| h in gs[1..] && Key(h) == x;
        var m :| 0 <= m < |gs[1..]| && gs[1..][m] == h;
        assert gs[m + 1] == h;
      }
    }
  }

  /** Add the cost `c` of one entry keyed `q` to the aggregation. */
  function AddCost(gs: seq<Group>, q: (string, string), c: real): (r: seq<Group>)
    requires Sorted(gs)
    ensures Sorted(r)
    ensures Keys(r) == Keys(gs) + {q}
    ensures SumTotals(r) == SumTotals(gs) + c
    ensures forall p :: Lookup(r, p) == Lookup(gs, p) + (if p == q then c else 0.0)
  {
    if gs == [] then
      KeysCons(Group(q.0, q.1, c), []);
      ConsSums(Group(q.0, q.1, c), []);
      [Group(q.0, q.1, c)]
    else if Key(gs[0]) == q then
      var g := Group(q.0, q.1, gs[0].total + c);
      KeysCons(g, gs[1..]);
      KeysCons(gs[0], gs[1..]);
      ConsSums(g, gs[1..]);
      ConsSums(gs[0], gs[1..]);
      assert gs == [gs[0]] + gs[1..];
      ConsSorted(g, gs[1..]);
      [g] + gs[1..]
    else if PairLess(q, Key(gs[0])) then
      var g := Group(q.0, q.1, c);
      BelowSorted(gs, q);
      LookupAbsent(gs, q);
      KeysCons(g, gs);
      ConsSums(g, gs);
      ConsSorted(g, gs);
      [g] + gs
    else
      PairLessTotal(q, Key(gs[0]));
      var rest := AddCost(gs[1..], q, c);
      KeysCons(gs[0], gs[1..]);
      KeysCons(gs[0], rest);
      ConsSums(gs[0], rest);
      ConsSums(gs[0], gs[1..]);
      assert gs == [gs[0]] + gs[1..];
      AboveHead(gs, q, rest);
      ConsSorted(gs[0], rest);
      [gs[0]] + rest
  }

  /** The aggregated frame of a sequence of entries. */
  function GroupBy(es: seq<Entry>): (gs: seq<Group>)
    ensures Sorted(gs)
    ensures Keys(gs) == EntryKeys(es)
    ensures SumTotals(gs) == EntriesCost(es)
    ensures forall q :: Lookup(gs, q) == KeyCost(es, q)
  {
    if es == [] then []
    else
      var gs := AddCost(GroupBy(es[1..]), EntryKey(es[0]), es[0].cost);
      assert EntryKeys(es) == EntryKeys(es[1..]) + {EntryKey(es[0])} by {
        assert es == [es[0]] + es[1..];
        forall x | x in EntryKeys(es) ensures x in EntryKeys(es[1..]) + {EntryKey(es[0])} {
          var e :| e in es && EntryKey(e) == x;
          if e != es[0] {
            assert e in es[1..];
          }
        }
      }
      gs
  }

  /** In a sorted list the lookup of a group's key finds that group. */
  lemma {:induction false} LookupSorted(gs: seq<Group>, i: int)
    requires Sorted(gs) && 0 <= i < |gs|
    ensures Lookup(gs, Key(gs[i])) == gs[i].total
  {
    if i > 0 {
      assert PairLess(Key(gs[0]), Key(gs[i]));
      PairLessIrreflexive(Key(gs[0]));
      assert Sorted(gs[1..]);
      LookupSorted(gs[1..], i - 1);
    }
  }

  /**
   * Each group's total is the exact sum of the costs of the entries with its
   * pair: no entry is dropped or counted twice.
   */
  lemma GroupTotals(es: seq<Entry>)
    ensures forall i :: 0 <= i < |GroupBy(es)| ==> GroupBy(es)[i].total == KeyCost(es, Key(GroupBy(es)[i]))
  {
    var gs := GroupBy(es);
    forall i | 0 <= i < |gs| ensures gs[i].total == KeyCost(es, Key(gs[i])) {
      LookupSorted(gs, i);
    }
  }

  /** The entries of one tier: columns `Level<a>` and `Level<a+1>` with the cost. */
  function Project(rows: seq<Row>, a: TierIndex): seq<Entry>
  {
    seq(|rows|, i requires 0 <= i < |rows| => Entry(LevelValue(rows[i], a), LevelValue(rows[i], a + 1), rows[i].cost))
  }

  /** The aggregated frame of tier `a` of the flow diagram. */
  function Tier(rows: seq<Row>, a: TierIndex): seq<Group>
  {
    GroupBy(Project(rows, a))
  }

  /**
   * The tier's groups are exactly the adjacent-level pairs that occur in the
   * rows, and their totals add up to the total cost of the rows.
   */
  lemma {:induction false} TierFacts(rows: seq<Row>, a: TierIndex)
    ensures Sorted(Tier(rows, a))
    ensures forall l, r :: (l, r) in Keys(Tier(rows, a)) <==>
      exists i :: 0 <= i < |rows| && LevelValue(rows[i], a) == l && LevelValue(rows[i], a + 1) == r
    ensures SumTotals(Tier(rows, a)) == TotalCost(rows)
  {
    var es := Project(rows, a);
    forall l, r
      ensures (l, r) in EntryKeys(es) <==>
        exists i :: 0 <= i < |rows| && LevelValue(rows[i], a) == l && LevelValue(rows[i], a + 1) == r
    {
      if (l, r) in EntryKeys(es) {
        var e :| e in es && EntryKey(e) == (l, r);
        var i :| 0 <= i < |es| && es[i] == e;
        assert LevelValue(rows[i], a) == l && LevelValue(rows[i], a + 1) == r;
      }
      if exists i :: 0 <= i < |rows| && LevelValue(rows[i], a) == l && LevelValue(rows[i], a + 1) == r {
        var i :| 0 <= i < |rows| && LevelValue(rows[i], a) == l && LevelValue(rows[i], a + 1) == r;
        assert es[i] in es;
        assert EntryKey(es[i]) == (l, r);
      }
    }
    ProjectCost(rows, a);
  }

  lemma {:induction false} ProjectCost(rows: seq<Row>, a: TierIndex)
    ensures EntriesCost(Project(rows, a)) == TotalCost(rows)
  {
    if rows != [] {
      assert Project(rows, a)[1..] == Project(rows[1..], a);
      ProjectCost(rows[1..], a);
    }
  }

  lemma SortedKeysDistinct(gs: seq<Group>, i: int, j: int)
    requires Sorted(gs) && 0 <= i < j < |gs|
    ensures Key(gs[i]) != Key(gs[j])
  {
    PairLessIrreflexive(Key(gs[i]));
  }

  /** A sorted aggregation lists each key once. */
  lemma {:induction false} SortedKeyCount(gs: seq<Group>)
    requires Sorted(gs)
    ensures |Keys(gs)| == |gs|
  {
    if gs != [] {
      assert Sorted(gs[1..]);
      SortedKeyCount(gs[1..]);
      KeysCons(gs[0], gs[1..]);
      assert gs == [gs[0]] + gs[1..];
      if Key(gs[0]) in Keys(gs[1..]) {
        var h :| h in gs[1..] && Key(h) == Key(gs[0]);
        var m :| 0 <= m < |gs[1..]| && gs[1..][m] == h;
        assert PairLess(Key(gs[0]), Key(gs[m + 1]));
        PairLessIrreflexive(Key(gs[0]));
      }
    }
  }

}
