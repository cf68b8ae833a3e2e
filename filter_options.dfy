/**
 * The cascading dropdowns (update_filter_options): the options of levels
 * 3, 4 and 5 are rebuilt from the table narrowed by the selections above.
 */
module FilterOptions {
  import opened Wrappers
  import opened Hierarchy
  import opened Filters
  import opened StringOrder

  /** One `{'label': ..., 'value': ...}` entry of a dropdown. */
  datatype DropdownOption = DropdownOption(caption: string, value: string)

  /** The "all" entry every option list starts with. */
  const AllOption := DropdownOption("Alle", "ALL")

  /** The option lists of the Level3, Level4 and Level5 dropdowns. */
  datatype CascadeOptions = CascadeOptions(level3: seq<DropdownOption>, level4: seq<DropdownOption>, level5: seq<DropdownOption>)

  /** `df['Level<k>']` as a column of values. */
  function Column(rows: seq<Row>, k: LevelIndex): seq<string>
  {
    seq(|rows|, i requires 0 <= i < |rows| => LevelValue(rows[i], k))
  }

  /**
   * `[{'label': 'Alle', 'value': 'ALL'}] + [{'label': i, 'value': i} for i in
   * sorted(df['Level<k>'].unique())]`: the "all" entry, then every value of the
   * column once, in increasing order, each labelled by itself.
   */
  function OptionsFor(rows: seq<Row>, k: LevelIndex): (opts: seq<DropdownOption>)
    ensures opts != [] && opts[0] == AllOption
    ensures forall i :: 1 <= i < |opts| ==> opts[i].caption == opts[i].value
    ensures forall i, j :: 1 <= i < j < |opts| ==> Less(opts[i].value, opts[j].value)
    ensures forall i :: 1 <= i < |opts| ==> opts[i].value in Distinct(rows, k)
    ensures forall v :: v in Distinct(rows, k) ==> exists i :: 1 <= i < |opts| && opts[i].value == v
  {
    var values := SortedUnique(Column(rows, k));
    var opts := [AllOption] + seq(|values|, i requires 0 <= i < |values| => DropdownOption(values[i], values[i]));
    assert forall i :: 1 <= i < |opts| ==> opts[i].value == values[i - 1];
    forall v | v in Distinct(rows, k) ensures exists i :: 1 <= i < |opts| && opts[i].value == v {
      var row :| row in rows && LevelValue(row, k) == v;
      var r :| 0 <= r < |rows| && rows[r] == row;
      assert Column(rows, k)[r] == v;
      assert v in Column(rows, k);
      assert v in values;
      var j :| 0 <= j < |values| && values[j] == v;
      assert opts[j + 1].value == v;
    }
    forall i | 1 <= i < |opts| ensures opts[i].value in Distinct(rows, k) {
      assert values[i - 1] in Column(rows, k);
      var r :| 0 <= r < |rows| && Column(rows, k)[r] == values[i - 1];
      assert rows[r] in rows;
    }
    opts
  }

  /**
   * update_filter_options: level 3 is offered the values of the rows the
   * Level2 selection admits, level 4 those admitted by Level2 and Level3,
   * level 5 those admitted by Level2 .. Level4; a dropdown holding a
   * non-empty plain string that does not contain 'ALL' as a substring makes
   * `isin` raise.
   */
  method UpdateFilterOptions(rows: seq<Row>, level2: Selection, level3: Selection, level4: Selection)
    returns (r: Result<CascadeOptions, FilterError>)
    ensures r.Err? <==> Raises(FilterSet(level2, level3, level4, Absent))
    ensures r.Ok? ==> r.value.level3 == OptionsFor(Select(rows, FilterSet(level2, Absent, Absent, Absent)), 3)
    ensures r.Ok? ==> r.value.level4 == OptionsFor(Select(rows, FilterSet(level2, level3, Absent, Absent)), 4)
    ensures r.Ok? ==> r.value.level5 == OptionsFor(Select(rows, FilterSet(level2, level3, level4, Absent)), 5)
  {
    ghost var fs := FilterSet(level2, level3, level4, Absent);
    var filtered := rows;
    SelectNone(rows, fs.UpTo(1));
    if Active(level2) {
      filtered :- Isin(filtered, 2, level2);
    }
    SelectStep(rows, fs, 2);
    var options3 := OptionsFor(filtered, 3);
    if Active(level3) {
      filtered :- Isin(filtered, 3, level3);
    }
    SelectStep(rows, fs, 3);
    var options4 := OptionsFor(filtered, 4);
    if Active(level4) {
      filtered :- Isin(filtered, 4, level4);
    }
    SelectStep(rows, fs, 4);
    var options5 := OptionsFor(filtered, 5);
    return Ok(CascadeOptions(options3, options4, options5));
  }

  /**
   * No option leads nowhere: choosing any offered Level3 option, with the
   * Level2 selection unchanged, leaves at least one row for the charts.
   */
  lemma OfferedLevel3OptionSelectsRows(rows: seq<Row>, level2: Selection, i: int)
    requires 1 <= i < |OptionsFor(Select(rows, FilterSet(level2, Absent, Absent, Absent)), 3)|
    ensures Select(rows, FilterSet(level2, Values([OptionsFor(Select(rows, FilterSet(level2, Absent, Absent, Absent)), 3)[i].value]), Absent, Absent)) != []
  {
    var narrowed := Select(rows, FilterSet(level2, Absent, Absent, Absent));
    var v := OptionsFor(narrowed, 3)[i].value;
    var row :| row in narrowed && LevelValue(row, 3) == v;
    assert row in Select(rows, FilterSet(level2, Values([v]), Absent, Absent));
  }
}
