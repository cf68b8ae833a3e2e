/**
 * The level filters of the dashboard (update_graphs): each of the Level2 ..
 * Level5 dropdowns narrows the table in turn, unless its value means "all".
 */
module Filters {
  import opened Wrappers
  import opened Hierarchy

  /**
   * The value of one multi-select dropdown: None, a plain string (the
   * initial value is the string 'ALL') or a list of selected labels.
   */
  datatype Selection = Absent | Text(text: string) | Values(values: seq<string>)

  /** The four dropdown values handed to the callbacks. */
  datatype FilterSet = FilterSet(level2: Selection, level3: Selection, level4: Selection, level5: Selection)
  {
    /** The dropdown for level `k`; level 1 has none. */
    function At(k: LevelIndex): Selection
    {
      match k
      case 1 => Absent
      case 2 => level2
      case 3 => level3
      case 4 => level4
      case 5 => level5
    }

    /** Only the dropdowns of levels 2 .. n take effect (the cascade's view). */
    function UpTo(n: LevelIndex): FilterSet
    {
      FilterSet(if n >= 2 then level2 else Absent,
                if n >= 3 then level3 else Absent,
                if n >= 4 then level4 else Absent,
                if n >= 5 then level5 else Absent)
    }
  }

  /** `Series.isin` rejects a plain string with a TypeError. */
  datatype FilterError = NotListLike(level: LevelIndex, text: string)

  /** Python's `p in s` for two strings: a substring test. */
  predicate ContainsText(s: string, p: string)
  {
    p <= s || (s != [] && ContainsText(s[1..], p))
  }

  /** The guard `sel and sel != 'ALL' and 'ALL' not in sel`. */
  predicate Active(sel: Selection)
  {
    match sel
    case Absent => false
    case Text(s) => s != "" && s != "ALL" && !ContainsText(s, "ALL")
    case Values(vs) => vs != [] && "ALL" !in vs
  }

  /** `df[df['Level<k>'].isin(values)]`: the rows whose level-`k` value is selected, in table order. */
  function Narrow(rows: seq<Row>, k: LevelIndex, values: seq<string>): (r: seq<Row>)
    ensures IsSubsequence(r, rows)
    ensures forall row :: row in r <==> row in rows && LevelValue(row, k) in values
  {
    if rows == [] then []
    else if LevelValue(rows[0], k) in values then [rows[0]] + Narrow(rows[1..], k, values)
    else Narrow(rows[1..], k, values)
  }

  /** `isin` keeps every copy of a selected row and drops every copy of the others. */
  lemma {:induction false} NarrowCounts(rows: seq<Row>, k: LevelIndex, values: seq<string>, row: Row)
    ensures multiset(Narrow(rows, k, values))[row] == if LevelValue(row, k) in values then multiset(rows)[row] else 0
  {
    if rows != [] {
      NarrowCounts(rows[1..], k, values, row);
      assert rows == [rows[0]] + rows[1..];
    }
  }

  /** `isin` called with the dropdown value itself. */
  function Isin(rows: seq<Row>, k: LevelIndex, sel: Selection): Result<seq<Row>, FilterError>
    requires !sel.Absent?
  {
    if sel.Values? then Ok(Narrow(rows, k, sel.values)) else Err(NotListLike(k, sel.text))
  }

  /** Whether the dropdown value lets the level value `v` through. */
  predicate Admits(sel: Selection, v: string)
  {
    !Active(sel) || (sel.Values? && v in sel.values)
  }

  predicate Passes(fs: FilterSet, row: Row)
  {
    Admits(fs.level2, row.level2) && Admits(fs.level3, row.level3)
    && Admits(fs.level4, row.level4) && Admits(fs.level5, row.level5)
  }

  /** A dropdown whose value would reach `isin` as a plain string. */
  predicate RaisesAt(sel: Selection)
  {
    Active(sel) && sel.Text?
  }

  predicate Raises(fs: FilterSet)
  {
    RaisesAt(fs.level2) || RaisesAt(fs.level3) || RaisesAt(fs.level4) || RaisesAt(fs.level5)
  }

  /** The error of the first (lowest) level that raises. */
  function FirstError(fs: FilterSet): FilterError
    requires Raises(fs)
  {
    if RaisesAt(fs.level2) then NotListLike(2, fs.level2.text)
    else if RaisesAt(fs.level3) then NotListLike(3, fs.level3.text)
    else if RaisesAt(fs.level4) then NotListLike(4, fs.level4.text)
    else NotListLike(5, fs.level5.text)
  }

  /**
   * The reference meaning of the filters: one pass over the table keeping
   * exactly the rows that every level's selection admits, in order.
   */
  function Select(rows: seq<Row>, fs: FilterSet): (r: seq<Row>)
    ensures IsSubsequence(r, rows)
    ensures forall row :: row in r <==> row in rows && Passes(fs, row)
  {
    if rows == [] then []
    else if Passes(fs, rows[0]) then [rows[0]] + Select(rows[1..], fs)
    else Select(rows[1..], fs)
  }

  /**
   * update_graphs lines 990-1002: rebind the filtered table level by level.
   * The result is the one-pass selection, or the TypeError of the first
   * dropdown holding a non-empty plain string that does not contain 'ALL'
   * as a substring.
   */
  method FilterRows(rows: seq<Row>, fs: FilterSet) returns (r: Result<seq<Row>, FilterError>)
    ensures r.Err? <==> Raises(fs)
    ensures r.Err? ==> r.error == FirstError(fs)
    ensures r.Ok? ==> r.value == Select(rows, fs)
  {
    var filtered := rows;
    SelectNone(rows, fs.UpTo(1));
    if Active(fs.level2) {
      filtered :- Isin(filtered, 2, fs.level2);
    }
    SelectStep(rows, fs, 2);
    if Active(fs.level3) {
      filtered :- Isin(filtered, 3, fs.level3);
    }
    SelectStep(rows, fs, 3);
    if Active(fs.level4) {
      filtered :- Isin(filtered, 4, fs.level4);
    }
    SelectStep(rows, fs, 4);
    if Active(fs.level5) {
      filtered :- Isin(filtered, 5, fs.level5);
    }
    SelectStep(rows, fs, 5);
    assert fs.UpTo(5) == fs;
    return Ok(filtered);
  }

  /** With every dropdown meaning "all", nothing is filtered out. */
  lemma {:induction false} SelectNone(rows: seq<Row>, fs: FilterSet)
    requires !Active(fs.level2) && !Active(fs.level3) && !Active(fs.level4) && !Active(fs.level5)
    ensures Select(rows, fs) == rows
  {
    if rows != [] {
      SelectNone(rows[1..], fs);
    }
  }

  /** Two filter sets that admit the same rows select the same rows. */
  lemma {:induction false} SelectSame(rows: seq<Row>, fs: FilterSet, fs': FilterSet)
    requires forall row :: Passes(fs', row) <==> Passes(fs, row)
    ensures Select(rows, fs) == Select(rows, fs')
  {
    if rows != [] {
      SelectSame(rows[1..], fs, fs');
    }
  }

  /** Narrowing a selection on one more level is selecting with that level's values added. */
  lemma {:induction false} SelectNarrow(rows: seq<Row>, fs: FilterSet, fs': FilterSet, k: LevelIndex, values: seq<string>)
    requires forall row :: Passes(fs', row) <==> Passes(fs, row) && LevelValue(row, k) in values
    ensures Narrow(Select(rows, fs), k, values) == Select(rows, fs')
  {
    if rows != [] {
      SelectNarrow(rows[1..], fs, fs', k, values);
      if Passes(fs, rows[0]) {
        assert ([rows[0]] + Select(rows[1..], fs))[1..] == Select(rows[1..], fs);
      }
    }
  }

  /** The table after the filter step of level `k` is the selection by levels 2 .. k. */
  lemma SelectStep(rows: seq<Row>, fs: FilterSet, k: LevelIndex)
    requires k >= 2
    ensures !Active(fs.At(k)) ==> Select(rows, fs.UpTo(k - 1)) == Select(rows, fs.UpTo(k))
    ensures Active(fs.At(k)) && fs.At(k).Values? ==>
      Narrow(Select(rows, fs.UpTo(k - 1)), k, fs.At(k).values) == Select(rows, fs.UpTo(k))
  {
    if !Active(fs.At(k)) {
      SelectSame(rows, fs.UpTo(k - 1), fs.UpTo(k));
    } else if fs.At(k).Values? {
      SelectNarrow(rows, fs.UpTo(k - 1), fs.UpTo(k), k, fs.At(k).values);
    }
  }

  /**
   * Each row keeps its multiplicity when it passes every selection and
   * disappears otherwise.
   */
  lemma {:induction false} SelectCounts(rows: seq<Row>, fs: FilterSet, row: Row)
    ensures multiset(Select(rows, fs))[row] == if Passes(fs, row) then multiset(rows)[row] else 0
  {
    if rows != [] {
      SelectCounts(rows[1..], fs, row);
      assert rows == [rows[0]] + rows[1..];
    }
  }

  /**
   * A stricter filter set yields a subsequence of what a looser one yields:
   * adding a selection only ever narrows the table.
   */
  lemma {:induction false} StricterSelectsLess(rows: seq<Row>, strict: FilterSet, loose: FilterSet)
    requires forall row :: Passes(strict, row) ==> Passes(loose, row)
    ensures IsSubsequence(Select(rows, strict), Select(rows, loose))
  {
    if rows != [] {
      StricterSelectsLess(rows[1..], strict, loose);
      var s, l := Select(rows[1..], strict), Select(rows[1..], loose);
      if Passes(strict, rows[0]) {
        assert ([rows[0]] + s)[1..] == s && ([rows[0]] + l)[1..] == l;
      } else if Passes(loose, rows[0]) {
        assert ([rows[0]] + l)[1..] == l;
      }
    }
  }

  /** The values the guard treats as "all": None, '', 'ALL', [] and any list holding 'ALL'. */
  lemma AllValuesAreInactive(sel: Selection)
    requires sel == Absent || sel == Text("") || sel == Text("ALL") || sel == Values([])
          || (sel.Values? && "ALL" in sel.values)
    ensures !Active(sel)
    ensures forall v :: Admits(sel, v)
  {
  }
}
