/** The chart payload of the server (`aggregate_for_chart` in
    `backend/analysis/utils.py`): which column gives the year, which give
    price and demand, and one label, price and demand entry per year in
    ascending order. The mean and the sum are parameters: the floating-point
    arithmetic and rounding are not modelled. */
module ChartAggregate {
  import opened Wrappers
  import opened Text
  import opened Seqs
  import opened Frames

  /** What a group's cells reduce to; None stands for NaN. */
  type Aggregator = seq<Cell> -> Option<real>

  datatype Chart = Chart(
    labels: seq<string>,
    price: seq<real>,
    demand: seq<real>,
    priceCol: string,
    demandCol: string)

  // ---------------------------------------------------------------------
  // Resolving the columns

  /** Where the grouping year comes from: an existing column, the year of
      the first `datetime64` column, or nowhere (a column of missing
      values). */
  datatype YearSource = Named(col: string) | FromDate(col: string) | Missing

  predicate IsYearName(name: string) {
    Lower(name) == "year"
  }

  predicate IsDatetime(c: Column) {
    c.kind == DatetimeKind
  }

  /** The first `datetime64` column, searched from the left. */
  function FirstDatetime(cols: seq<Column>): (r: Option<string>)
    ensures r.None? <==> forall i :: 0 <= i < |cols| ==> !IsDatetime(cols[i])
    ensures r.Some? ==> exists i :: 0 <= i < |cols| && IsDatetime(cols[i]) && cols[i].name == r.value
  {
    if cols == [] then None
    else if IsDatetime(cols[0]) then Some(cols[0].name)
    else
      var r := FirstDatetime(cols[1..]);
      assert forall i :: 1 <= i < |cols| ==> cols[i] == cols[1..][i - 1];
      r
  }

  function YearSourceOf(cols: seq<Column>): YearSource {
    var names := Names(cols);
    if "year" in names then Named("year")
    else
      var possible := Filter(names, IsYearName);
      if possible != [] then Named(possible[0])
      else match FirstDatetime(cols)
        case Some(c) => FromDate(c)
        case None => Missing
  }

  /** The column names once a year derived from a date has been added. */
  function NamesAfterYear(cols: seq<Column>, src: YearSource): seq<string> {
    if src.FromDate? then Names(cols) + ["year"] else Names(cols)
  }

  predicate PriceLike(name: string) {
    var lc := Lower(name);
    Contains(lc, "price") || Contains(lc, "rate") || Contains(lc, "weighted average")
  }

  predicate DemandLike(name: string) {
    var lc := Lower(name);
    Contains(lc, "demand") || Contains(lc, "sold") || Contains(lc, "units") || Contains(lc, "total sold")
  }

  /** The requested column when it exists, else the first column passing
      the name test, else none. */
  function Resolve(names: seq<string>, preferred: string, test: string -> bool): (r: Option<string>)
    ensures preferred in names ==> r == Some(preferred)
    ensures preferred !in names ==> (r.None? <==> forall i :: 0 <= i < |names| ==> !test(names[i]))
    ensures r.Some? ==> r.value in names && (r.value == preferred || test(r.value))
  {
    if preferred in names then Some(preferred)
    else
      var found := Filter(names, test);
      FilterAll(names, test);
      if found != [] then Some(found[0])
      else
        FilterKeepsNone(names, test);
        None
  }

  lemma FilterKeepsNone(names: seq<string>, test: string -> bool)
    requires Filter(names, test) == []
    ensures forall i :: 0 <= i < |names| ==> !test(names[i])
  {
    forall i | 0 <= i < |names| ensures !test(names[i]) {
      FilterMembership(names, test, names[i]);
    }
  }

  function PriceColumn(cols: seq<Column>): Option<string> {
    Resolve(NamesAfterYear(cols, YearSourceOf(cols)), "price", PriceLike)
  }

  function DemandColumn(cols: seq<Column>): Option<string> {
    Resolve(NamesAfterYear(cols, YearSourceOf(cols)), "demand", DemandLike)
  }

  // ---------------------------------------------------------------------
  // Grouping by year

  /** A row's year after `pd.to_numeric(..., errors="coerce")`; a date's
      year is read from its leading four digits. */
  function YearOf(src: YearSource, row: Row): Option<int> {
    match src
    case Named(c) => (var cell := CellAt(row, c); if cell.Val? then ParseInt(cell.text) else None)
    case FromDate(c) => (var cell := CellAt(row, c); if cell.Val? then ParseInt(Take(cell.text, 4)) else None)
    case Missing => None
  }

  predicate Ascending(r: seq<int>) {
    forall i, j :: 0 <= i < j < |r| ==> r[i] < r[j]
  }

  /** A key added to an ascending list of keys, in its place, once. */
  function Insert(y: int, r: seq<int>): (r': seq<int>)
    requires Ascending(r)
    ensures Ascending(r')
    ensures forall x :: x in r' <==> x == y || x in r
  {
    if r == [] then [y]
    else
      HeadLeast(r);
      assert r == [r[0]] + r[1..];
      if y < r[0] then ConsAscending(y, r); [y] + r
      else if y == r[0] then r
      else
        var rest := Insert(y, r[1..]);
        ConsAscending(r[0], rest);
        [r[0]] + rest
  }

  /** The head of an ascending list is below everything after it. */
  lemma HeadLeast(r: seq<int>)
    requires Ascending(r) && r != []
    ensures forall x :: x in r[1..] ==> r[0] < x
    ensures Ascending(r[1..])
  {
    forall x | x in r[1..] ensures r[0] < x {
      var i :| 0 <= i < |r[1..]| && r[1..][i] == x;
      assert x == r[i + 1];
    }
  }

  lemma ConsAscending(a: int, rest: seq<int>)
    requires Ascending(rest) && forall x :: x in rest ==> a < x
    ensures Ascending([a] + rest)
  {
    var s := [a] + rest;
    forall i, j | 0 <= i < j < |s| ensures s[i] < s[j] {
      assert s[j] == rest[j - 1] && rest[j - 1] in rest;
      if i > 0 { assert s[i] == rest[i - 1]; }
    }
  }

  /** The distinct present keys of a list of optional keys, ascending. */
  function SortedKeys(ys: seq<Option<int>>): (r: seq<int>)
    ensures Ascending(r)
    ensures forall x :: x in r <==> Some(x) in ys
  {
    if ys == [] then []
    else
      var init := ys[..|ys| - 1];
      var r := SortedKeys(init);
      var last := ys[|ys| - 1];
      assert ys == init + [last];
      if last.Some? then Insert(last.value, r) else r
  }

  /** The years of the rows, in row order. */
  function YearsOf(src: YearSource, rows: seq<Row>): (ys: seq<Option<int>>)
    ensures |ys| == |rows| && forall k :: 0 <= k < |rows| ==> ys[k] == YearOf(src, rows[k])
  {
    seq(|rows|, k requires 0 <= k < |rows| => YearOf(src, rows[k]))
  }

  /** The group keys in ascending order, as `groupby` leaves them: every
      year some row has, once. */
  function SortedYears(src: YearSource, rows: seq<Row>): (r: seq<int>)
    ensures Ascending(r)
    ensures forall y :: y in r <==> exists k :: 0 <= k < |rows| && YearOf(src, rows[k]) == Some(y)
  {
    SortedKeys(YearsOf(src, rows))
  }

  function InYear(src: YearSource, y: int): Row -> bool {
    row => YearOf(src, row) == Some(y)
  }

  /** One group's cells of a column, in row order. */
  function GroupCells(src: YearSource, rows: seq<Row>, col: string, y: int): (cells: seq<Cell>) {
    var group := Filter(rows, InYear(src, y));
    seq(|group|, k requires 0 <= k < |group| => CellAt(group[k], col))
  }

  /** One aggregated list: the group value per year, NaN becoming 0; all
      zeros when the column does not exist. */
  function Agg(src: YearSource, rows: seq<Row>, col: Option<string>, f: Aggregator, years: seq<int>): (r: seq<real>)
    ensures |r| == |years|
  {
    seq(|years|, i requires 0 <= i < |years| =>
      if col.Some? then f(GroupCells(src, rows, col.value, years[i])).GetOr(0.0) else 0.0)
  }

  /** The chart payload the function evidently intends: a missing price or
      demand column gives zeros, not an empty chart. */
  function Aggregated(df: Frame, mean: Aggregator, sum: Aggregator): Chart {
    var src := YearSourceOf(df.columns);
    var priceCol := PriceColumn(df.columns);
    var demandCol := DemandColumn(df.columns);
    var years := SortedYears(src, df.rows);
    Chart(seq(|years|, i requires 0 <= i < |years| => IntToString(years[i])),
          Agg(src, df.rows, priceCol, mean, years),
          Agg(src, df.rows, demandCol, sum, years),
          priceCol.GetOr(""), demandCol.GetOr(""))
  }

  /** The payload as the code computes it: the stand-in aggregation of a
      missing column still names a column that does not exist, the grouping
      raises, and the fallback frame leaves every list empty. */
  function AggregatedAsWritten(df: Frame, mean: Aggregator, sum: Aggregator): Chart {
    var priceCol := PriceColumn(df.columns);
    var demandCol := DemandColumn(df.columns);
    if priceCol.None? || demandCol.None? then Chart([], [], [], priceCol.GetOr(""), demandCol.GetOr(""))
    else Aggregated(df, mean, sum)
  }

  // ---------------------------------------------------------------------
  // The procedure

  /** `aggregate_for_chart(df)` with the default column names, as the code
      computes it: when the price or the demand column is not resolved, the
      stand-in aggregation names a missing column, the grouping raises and
      the lists stay empty. */
  method AggregateForChart(df: Frame, mean: Aggregator, sum: Aggregator) returns (chart: Chart)
    ensures chart == AggregatedAsWritten(df, mean, sum)
  {
    var src, names := FindYear(df.columns);
    var priceCol := PickColumn(names, "price", PriceLike);
    var demandCol := PickColumn(names, "demand", DemandLike);
    assert priceCol == PriceColumn(df.columns) && demandCol == DemandColumn(df.columns);
    if priceCol.None? || demandCol.None? {
      return Chart([], [], [], priceCol.GetOr(""), demandCol.GetOr(""));
    }
    var years := SortedYears(src, df.rows);
    chart := Chart(seq(|years|, i requires 0 <= i < |years| => IntToString(years[i])),
                   Agg(src, df.rows, priceCol, mean, years),
                   Agg(src, df.rows, demandCol, sum, years),
                   priceCol.GetOr(""), demandCol.GetOr(""));
  }

  /** The year column: "year", a column named so in another case, or the
      first `datetime64` column, whose year is then added as "year". */
  method FindYear(cols: seq<Column>) returns (src: YearSource, names: seq<string>)
    ensures src == YearSourceOf(cols) && names == NamesAfterYear(cols, src)
  {
    names := Names(cols);
    src := Named("year");
    if "year" !in names {
      var possible := Filter(names, IsYearName);
      if possible != [] {
        src := Named(possible[0]);
      } else {
        src := Missing;
        var i := 0;
        while i < |cols|
          invariant 0 <= i <= |cols|
          invariant src == Missing && FirstDatetime(cols) == FirstDatetime(cols[i..])
        {
          assert cols[i..][1..] == cols[i + 1..];
          if cols[i].kind == DatetimeKind {
            src := FromDate(cols[i].name);
            names := names + ["year"];
            break;
          }
          i := i + 1;
        }
      }
    }
  }

  /** The requested column or the first one passing the name test. */
  method PickColumn(names: seq<string>, preferred: string, test: string -> bool) returns (col: Option<string>)
    ensures col == Resolve(names, preferred, test)
  {
    col := Some(preferred);
    if preferred !in names {
      var candidates: seq<string> := [];
      var i := 0;
      while i < |names|
        invariant 0 <= i <= |names|
        invariant candidates == Filter(names[..i], test)
      {
        assert names[..i + 1][..i] == names[..i];
        if test(names[i]) {
          candidates := candidates + [names[i]];
        }
        i := i + 1;
      }
      assert names[..|names|] == names;
      col := if candidates != [] then Some(candidates[0]) else None;
    }
  }

  // ---------------------------------------------------------------------
  // What the payload promises

  /** The three lists have one entry per year, the labels read back as
      strictly ascending years, each the year of some row, and every row's
      year is labelled. */
  lemma {:induction false} LabelsAreSortedYears(df: Frame, mean: Aggregator, sum: Aggregator)
    ensures var c := Aggregated(df, mean, sum);
      && |c.labels| == |c.price| == |c.demand|
      && (forall i :: 0 <= i < |c.labels| ==> ParseInt(c.labels[i]).Some?)
      && (forall i, j :: 0 <= i < j < |c.labels| ==> ParseInt(c.labels[i]).value < ParseInt(c.labels[j]).value)
      && (forall i :: 0 <= i < |c.labels| ==>
            exists r :: 0 <= r < |df.rows| && YearOf(YearSourceOf(df.columns), df.rows[r]) == ParseInt(c.labels[i]))
      && (forall r :: 0 <= r < |df.rows| && YearOf(YearSourceOf(df.columns), df.rows[r]).Some? ==>
            exists i :: 0 <= i < |c.labels| && ParseInt(c.labels[i]) == YearOf(YearSourceOf(df.columns), df.rows[r]))
  {
    var c := Aggregated(df, mean, sum);
    var src := YearSourceOf(df.columns);
    var years := SortedYears(src, df.rows);
    forall i | 0 <= i < |years| ensures ParseInt(c.labels[i]) == Some(years[i]) {
      ParseIntToString(years[i]);
    }
    forall i | 0 <= i < |years|
      ensures exists r :: 0 <= r < |df.rows| && YearOf(src, df.rows[r]) == ParseInt(c.labels[i])
    {
      assert years[i] in years;
      var k :| 0 <= k < |df.rows| && YearOf(src, df.rows[k]) == Some(years[i]);
    }
    forall r | 0 <= r < |df.rows| && YearOf(src, df.rows[r]).Some?
      ensures exists i :: 0 <= i < |c.labels| && ParseInt(c.labels[i]) == YearOf(src, df.rows[r])
    {
      var y := YearOf(src, df.rows[r]).value;
      assert y in years;
      var i :| 0 <= i < |years| && years[i] == y;
      assert ParseInt(c.labels[i]) == Some(y);
    }
  }

  /** As written, the same holds of the chart the code returns; when the
      price and the demand column are both resolved, it is the intended
      chart, and otherwise it has no labels and keeps the resolved names. */
  lemma LabelsAreSortedYearsAsWritten(df: Frame, mean: Aggregator, sum: Aggregator)
    ensures var c := AggregatedAsWritten(df, mean, sum);
      && |c.labels| == |c.price| == |c.demand|
      && (forall i :: 0 <= i < |c.labels| ==> ParseInt(c.labels[i]).Some?)
      && (forall i, j :: 0 <= i < j < |c.labels| ==> ParseInt(c.labels[i]).value < ParseInt(c.labels[j]).value)
      && (forall i :: 0 <= i < |c.labels| ==>
            exists r :: 0 <= r < |df.rows| && YearOf(YearSourceOf(df.columns), df.rows[r]) == ParseInt(c.labels[i]))
      && (PriceColumn(df.columns).Some? && DemandColumn(df.columns).Some? ==> c == Aggregated(df, mean, sum))
      && (PriceColumn(df.columns).None? || DemandColumn(df.columns).None? ==>
            c.labels == [] && c.priceCol == PriceColumn(df.columns).GetOr("")
            && c.demandCol == DemandColumn(df.columns).GetOr(""))
  {
    LabelsAreSortedYears(df, mean, sum);
  }

  /** Each entry is the group's mean or sum with NaN read as 0; a column
      that cannot be resolved gives 0 everywhere and the name "". */
  lemma MissingAggregatesAreZero(df: Frame, mean: Aggregator, sum: Aggregator, i: nat)
    requires i < |Aggregated(df, mean, sum).labels|
    ensures var c := Aggregated(df, mean, sum);
      var src := YearSourceOf(df.columns);
      var y := SortedYears(src, df.rows)[i];
      && (PriceColumn(df.columns).Some? ==>
            c.price[i] == mean(GroupCells(src, df.rows, PriceColumn(df.columns).value, y)).GetOr(0.0))
      && (PriceColumn(df.columns).None? ==> c.price[i] == 0.0 && c.priceCol == "")
      && (DemandColumn(df.columns).Some? ==>
            c.demand[i] == sum(GroupCells(src, df.rows, DemandColumn(df.columns).value, y)).GetOr(0.0))
      && (DemandColumn(df.columns).None? ==> c.demand[i] == 0.0 && c.demandCol == "")
  {
    var src := YearSourceOf(df.columns);
    var years := SortedYears(src, df.rows);
    var c := Aggregated(df, mean, sum);
    assert c.price == Agg(src, df.rows, PriceColumn(df.columns), mean, years);
    assert c.demand == Agg(src, df.rows, DemandColumn(df.columns), sum, years);
  }

  /** A column literally named "price" or "demand" is used as it is. */
  lemma PreferredNamesWin(cols: seq<Column>)
    ensures "price" in Names(cols) ==> PriceColumn(cols) == Some("price")
    ensures "demand" in Names(cols) ==> DemandColumn(cols) == Some("demand")
  {
  }

  /** Without a year, a date or a "year"-named column there is nothing to
      group by and every list is empty. */
  lemma NoYearNoEntries(df: Frame, mean: Aggregator, sum: Aggregator)
    requires YearSourceOf(df.columns) == Missing
    ensures Aggregated(df, mean, sum).labels == []
  {
    NoKeys(YearsOf(Missing, df.rows));
  }

  lemma {:induction false} NoKeys(ys: seq<Option<int>>)
    requires forall k :: 0 <= k < |ys| ==> ys[k].None?
    ensures SortedKeys(ys) == []
  {
    if ys != [] {
      NoKeys(ys[..|ys| - 1]);
    }
  }

  /** As written, a frame with a dated row but without a resolvable price
      (or demand) column yields an empty chart, where zeros per year are
      evidently intended. */
  lemma AsWrittenDropsYears(df: Frame, mean: Aggregator, sum: Aggregator, r: nat)
    requires PriceColumn(df.columns).None? || DemandColumn(df.columns).None?
    requires r < |df.rows| && YearOf(YearSourceOf(df.columns), df.rows[r]).Some?
    ensures AggregatedAsWritten(df, mean, sum).labels == []
    ensures |Aggregated(df, mean, sum).labels| > 0
  {
    LabelsAreSortedYears(df, mean, sum);
  }
}
