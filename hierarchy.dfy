/**
 * The cost table: one row per leaf cost entry with five hierarchy levels
 * (Level1 .. Level5) and a Cost column.
 */
module Hierarchy {

  /** A hierarchy level, 1 (the root) to 5 (the service). */
  type LevelIndex = k: int | 1 <= k <= 5 witness 1

  /** A tier of the flow diagram: the adjacent level pair (a, a + 1). */
  type TierIndex = a: int | 1 <= a <= 4 witness 1

  datatype Row = Row(level1: string, level2: string, level3: string, level4: string, level5: string, cost: real)

  /** The value of `row` in column `Level<k>`. */
  function LevelValue(row: Row, k: LevelIndex): string
  {
    match k
    case 1 => row.level1
    case 2 => row.level2
    case 3 => row.level3
    case 4 => row.level4
    case 5 => row.level5
  }

  /** `df['Cost'].sum()`: the sum of the Cost column. */
  function TotalCost(rows: seq<Row>): real
  {
    if rows == [] then 0.0 else rows[0].cost + TotalCost(rows[1..])
  }

  /** `df['Level<k>'].unique()` as a set. */
  function Distinct(rows: seq<Row>, k: LevelIndex): set<string>
  {
    set row | row in rows :: LevelValue(row, k)
  }

  /** The labels that occur at any level of any row. */
  ghost predicate IsLabelOf(rows: seq<Row>, l: string)
  {
    exists i, k: LevelIndex :: 0 <= i < |rows| && LevelValue(rows[i], k) == l
  }

  /** `a` is an order-preserving subsequence of `b`. */
  predicate IsSubsequence<T(==)>(a: seq<T>, b: seq<T>)
  {
    a == [] || (b != [] && ((a[0] == b[0] && IsSubsequence(a[1..], b[1..])) || IsSubsequence(a, b[1..])))
  }

  lemma {:induction false} SubsequenceTrans<T>(a: seq<T>, b: seq<T>, c: seq<T>)
    requires IsSubsequence(a, b) && IsSubsequence(b, c)
    ensures IsSubsequence(a, c)
    decreases |c|
  {
    if a != [] {
      if IsSubsequence(b, c[1..]) {
        SubsequenceTrans(a, b, c[1..]);
      } else if a[0] == b[0] && IsSubsequence(a[1..], b[1..]) {
        SubsequenceTrans(a[1..], b[1..], c[1..]);
      } else {
        SubsequenceTrans(a, b[1..], c[1..]);
      }
    }
  }

  /** Every element of a subsequence is an element of the sequence. */
  lemma {:induction false} SubsequenceMembers<T>(a: seq<T>, b: seq<T>)
    requires IsSubsequence(a, b)
    ensures forall x :: x in a ==> x in b
    decreases |b|
  {
    if a != [] {
      if IsSubsequence(a, b[1..]) {
        SubsequenceMembers(a, b[1..]);
      } else {
        SubsequenceMembers(a[1..], b[1..]);
        assert a == [a[0]] + a[1..];
      }
    }
  }

  /**
   * With non-negative costs a subsequence never costs more: narrowing a
   * filter never raises the displayed total.
   */
  lemma {:induction false} SubsequenceCostsLess(a: seq<Row>, b: seq<Row>)
    requires IsSubsequence(a, b)
    requires forall i :: 0 <= i < |b| ==> b[i].cost >= 0.0
    ensures TotalCost(a) <= TotalCost(b)
    decreases |b|
  {
    if a == [] {
      NonNegativeTotal(b);
    } else if IsSubsequence(a, b[1..]) {
      SubsequenceCostsLess(a, b[1..]);
    } else {
      SubsequenceCostsLess(a[1..], b[1..]);
    }
  }

  lemma {:induction false} NonNegativeTotal(rows: seq<Row>)
    requires forall i :: 0 <= i < |rows| ==> rows[i].cost >= 0.0
    ensures TotalCost(rows) >= 0.0
  {
    if rows != [] {
      NonNegativeTotal(rows[1..]);
    }
  }

  /** A subsequence has no level value the sequence lacks. */
  lemma SubsequenceDistinct(a: seq<Row>, b: seq<Row>, k: LevelIndex)
    requires IsSubsequence(a, b)
    ensures Distinct(a, k) <= Distinct(b, k)
    ensures |Distinct(a, k)| <= |Distinct(b, k)|
  {
    SubsequenceMembers(a, b);
    assert Distinct(a, k) <= Distinct(b, k);
    SubsetCard(Distinct(a, k), Distinct(b, k));
  }

  lemma SubsetCard<T>(s: set<T>, t: set<T>)
    requires s <= t
    ensures |s| <= |t|
  {
    assert t == s + (t - s);
  }

  /** There are never more distinct values than rows, and at least one when there are rows. */
  lemma {:induction false} DistinctBounds(rows: seq<Row>, k: LevelIndex)
    ensures |Distinct(rows, k)| <= |rows|
    ensures rows != [] <==> |Distinct(rows, k)| > 0
  {
    if rows != [] {
      DistinctBounds(rows[1..], k);
      assert Distinct(rows, k) == {LevelValue(rows[0], k)} + Distinct(rows[1..], k) by {
        forall v | v in Distinct(rows, k)
          ensures v in {LevelValue(rows[0], k)} + Distinct(rows[1..], k)
        {
          var row :| row in rows && LevelValue(row, k) == v;
          if row != rows[0] {
            assert row in rows[1..];
          }
        }
      }
      assert LevelValue(rows[0], k) in Distinct(rows, k);
    }
  }
}
