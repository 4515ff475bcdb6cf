/** The server's locality search (`backend/analysis/utils.py`): which
    columns may hold locality names, which locality values a query
    mentions, and the row filter with its `top` cap and fallbacks. Pandas'
    `str.contains` is read as plain substring search. */
module AnalysisUtils {
  import opened Wrappers
  import opened Text
  import opened Seqs
  import opened Frames

  // ---------------------------------------------------------------------
  // Candidate locality columns

  /** A column name that suggests locality names. */
  predicate NamesLocation(name: string) {
    var lc := Lower(name);
    Contains(lc, "location") || Contains(lc, "area") || Contains(lc, "locality")
    || Contains(lc, "final location") || Contains(lc, "place")
  }

  predicate IsObject(c: Column) {
    c.kind == ObjectKind
  }

  /** The candidate columns: the locality-like names in column order, or
      when there are none, every `object` column. */
  function LocationColumns(cols: seq<Column>): seq<string> {
    var named := Filter(Names(cols), NamesLocation);
    if named != [] then named else Names(Filter(cols, IsObject))
  }

  lemma NamesMembership(cols: seq<Column>, x: string)
    ensures x in Names(cols) <==> exists i :: 0 <= i < |cols| && cols[i].name == x
  {
    if x in Names(cols) {
      var i :| 0 <= i < |Names(cols)| && Names(cols)[i] == x;
      assert cols[i].name == x;
    }
  }

  /** A column is a candidate exactly when its name is locality-like, or,
      when no name is, exactly when it is an `object` column. */
  lemma LocationColumnsIff(cols: seq<Column>, x: string)
    ensures (exists i :: 0 <= i < |cols| && NamesLocation(cols[i].name)) ==>
      (x in LocationColumns(cols) <==> NamesLocation(x) && exists i :: 0 <= i < |cols| && cols[i].name == x)
    ensures (forall i :: 0 <= i < |cols| ==> !NamesLocation(cols[i].name)) ==>
      (x in LocationColumns(cols) <==> exists i :: 0 <= i < |cols| && cols[i].name == x && IsObject(cols[i]))
  {
    var named := Filter(Names(cols), NamesLocation);
    FilterMembership(Names(cols), NamesLocation, x);
    NamesMembership(cols, x);
    if exists i :: 0 <= i < |cols| && NamesLocation(cols[i].name) {
      var i :| 0 <= i < |cols| && NamesLocation(cols[i].name);
      FilterMembership(Names(cols), NamesLocation, cols[i].name);
      assert named != [];
    } else {
      FilterNone(Names(cols), NamesLocation);
      var objs := Filter(cols, IsObject);
      NamesMembership(objs, x);
      if x in Names(objs) {
        var j :| 0 <= j < |objs| && objs[j].name == x;
        FilterMembership(cols, IsObject, objs[j]);
      }
      if exists i :: 0 <= i < |cols| && cols[i].name == x && IsObject(cols[i]) {
        var i :| 0 <= i < |cols| && cols[i].name == x && IsObject(cols[i]);
        FilterMembership(cols, IsObject, cols[i]);
        var j :| 0 <= j < |objs| && objs[j] == cols[i];
        assert Names(objs)[j] == x;
      }
    }
  }

  lemma {:induction false} ContainsSuffix(h: string, a: string, b: string)
    requires Contains(h, a + b)
    ensures Contains(h, b)
  {
    ContainsIff(h, a + b);
    var i :| OccursAt(h, a + b, i);
    assert h[i + |a|..i + |a| + |b|] == (a + b)[|a|..];
    assert OccursAt(h, b, i + |a|);
    ContainsIff(h, b);
  }

  /** The "final location" test adds nothing: such a name already contains
      "location". */
  lemma FinalLocationRedundant(name: string)
    ensures NamesLocation(name) <==>
      var lc := Lower(name);
      Contains(lc, "location") || Contains(lc, "area") || Contains(lc, "locality") || Contains(lc, "place")
  {
    var lc := Lower(name);
    if Contains(lc, "final location") {
      assert "final location" == "final " + "location";
      ContainsSuffix(lc, "final ", "location");
    }
  }

  /** `_candidate_location_columns(df)`. */
  method CandidateLocationColumns(df: Frame) returns (cols: seq<string>)
    ensures cols == LocationColumns(df.columns)
  {
    cols := [];
    for i := 0 to |df.columns|
      invariant cols == Filter(Names(df.columns[..i]), NamesLocation)
    {
      var c := df.columns[i].name;
      var lc := Lower(c);
      assert Names(df.columns[..i + 1]) == Names(df.columns[..i]) + [c] by {
        assert df.columns[..i + 1] == df.columns[..i] + [df.columns[i]];
        NamesConcat(df.columns[..i], [df.columns[i]]);
      }
      assert Names(df.columns[..i + 1])[..i] == Names(df.columns[..i]);
      if Contains(lc, "location") || Contains(lc, "area") || Contains(lc, "locality")
        || Contains(lc, "final location") || Contains(lc, "place")
      {
        cols := cols + [c];
      }
    }
    assert df.columns[..|df.columns|] == df.columns;
    if cols == [] {
      cols := Names(Filter(df.columns, IsObject));
    }
  }

  // ---------------------------------------------------------------------
  // Locality values mentioned in a query

  /** A column's cell as a candidate value: present, non-blank, stripped. */
  function CellValue(row: Row, c: string): Option<string> {
    var cell := CellAt(row, c);
    if cell.Val? && cell.text != [] && |Strip(cell.text)| > 0 then Some(Strip(cell.text)) else None
  }

  function ValuesIn(rows: seq<Row>, c: string): set<string> {
    if rows == [] then {}
    else
      ValuesIn(rows[..|rows| - 1], c)
        + (match CellValue(rows[|rows| - 1], c) case None => {} case Some(v) => {v})
  }

  /** The set `values` gathered from the candidate columns. */
  function ValuesOf(rows: seq<Row>, cols: seq<string>): set<string> {
    if cols == [] then {} else ValuesOf(rows, cols[..|cols| - 1]) + ValuesIn(rows, cols[|cols| - 1])
  }

  lemma {:induction false} ValuesInIff(rows: seq<Row>, c: string, v: string)
    ensures v in ValuesIn(rows, c) <==> exists i :: 0 <= i < |rows| && CellValue(rows[i], c) == Some(v)
  {
    if rows != [] {
      var init := rows[..|rows| - 1];
      ValuesInIff(init, c, v);
      if exists i :: 0 <= i < |rows| && CellValue(rows[i], c) == Some(v) {
        var i :| 0 <= i < |rows| && CellValue(rows[i], c) == Some(v);
        if i < |init| { assert CellValue(init[i], c) == Some(v); }
      }
      if exists i :: 0 <= i < |init| && CellValue(init[i], c) == Some(v) {
        var i :| 0 <= i < |init| && CellValue(init[i], c) == Some(v);
        assert CellValue(rows[i], c) == Some(v);
      }
    }
  }

  lemma {:induction false} ValuesOfColumns(rows: seq<Row>, cols: seq<string>, v: string)
    ensures v in ValuesOf(rows, cols) <==> exists k :: 0 <= k < |cols| && v in ValuesIn(rows, cols[k])
  {
    if cols != [] {
      var n := |cols| - 1;
      var init := cols[..n];
      ValuesOfColumns(rows, init, v);
      assert ValuesOf(rows, cols) == ValuesOf(rows, init) + ValuesIn(rows, cols[n]);
      if v in ValuesOf(rows, init) {
        var k :| 0 <= k < |init| && v in ValuesIn(rows, init[k]);
        assert cols[k] == init[k];
      }
      if exists k :: 0 <= k < |cols| && v in ValuesIn(rows, cols[k]) {
        var k :| 0 <= k < |cols| && v in ValuesIn(rows, cols[k]);
        if k < n {
          assert init[k] == cols[k];
        }
      }
    }
  }

  /** A value is gathered exactly when some candidate cell yields it. */
  lemma ValuesOfIff(rows: seq<Row>, cols: seq<string>, v: string)
    ensures v in ValuesOf(rows, cols) <==>
      exists i, k :: 0 <= i < |rows| && 0 <= k < |cols| && CellValue(rows[i], cols[k]) == Some(v)
  {
    ValuesOfColumns(rows, cols, v);
    forall k | 0 <= k < |cols|
      ensures v in ValuesIn(rows, cols[k]) <==> exists i :: 0 <= i < |rows| && CellValue(rows[i], cols[k]) == Some(v)
    {
      ValuesInIff(rows, cols[k], v);
    }
  }

  /** Every gathered value is stripped and non-empty. */
  lemma ValuesAreStripped(rows: seq<Row>, cols: seq<string>, v: string)
    requires v in ValuesOf(rows, cols)
    ensures v != [] && Strip(v) == v
  {
    ValuesOfIff(rows, cols, v);
    var i, k :| 0 <= i < |rows| && 0 <= k < |cols| && CellValue(rows[i], cols[k]) == Some(v);
    StripIdempotent(CellAt(rows[i], cols[k]).text);
  }

  function LocationValues(df: Frame): set<string> {
    ValuesOf(df.rows, LocationColumns(df.columns))
  }

  /** The nested loop that fills `values`. */
  method CollectValues(df: Frame, cands: seq<string>) returns (values: set<string>)
    ensures values == ValuesOf(df.rows, cands)
  {
    values := {};
    for k := 0 to |cands|
      invariant values == ValuesOf(df.rows, cands[..k])
    {
      values := CollectColumn(df.rows, cands[k], values);
      assert cands[..k + 1][..k] == cands[..k];
    }
    assert cands[..|cands|] == cands;
  }

  /** The inner loop: the values of one candidate column. */
  method CollectColumn(rows: seq<Row>, c: string, start: set<string>) returns (values: set<string>)
    ensures values == start + ValuesIn(rows, c)
  {
    values := start;
    for j := 0 to |rows|
      invariant values == start + ValuesIn(rows[..j], c)
    {
      ValuesInStep(rows, c, j);
      var cell := CellAt(rows[j], c);
      if cell.Val? {
        var v := cell.text;
        if v != [] && |Strip(v)| > 0 {
          assert CellValue(rows[j], c) == Some(Strip(v));
          values := values + {Strip(v)};
        } else {
          assert CellValue(rows[j], c) == None;
        }
      } else {
        assert CellValue(rows[j], c) == None;
      }
    }
    assert rows[..|rows|] == rows;
  }

  /** One more row adds its value, if it has one. */
  lemma ValuesInStep(rows: seq<Row>, c: string, j: nat)
    requires j < |rows|
    ensures ValuesIn(rows[..j + 1], c)
         == ValuesIn(rows[..j], c) + (if CellValue(rows[j], c).Some? then {CellValue(rows[j], c).value} else {})
  {
    assert rows[..j + 1][..j] == rows[..j];
  }

  /** Every non-empty set of strings has one of greatest length. */
  lemma LongestExists(s: set<string>) returns (m: string)
    requires s != {}
    ensures m in s && forall y :: y in s ==> |y| <= |m|
  {
    var x :| x in s;
    if s == {x} {
      m := x;
    } else {
      var m' := LongestExists(s - {x});
      m := if |x| <= |m'| then m' else x;
    }
  }

  predicate LengthDescending(s: seq<string>) {
    forall i, j :: 0 <= i < j < |s| ==> |s[j]| <= |s[i]|
  }

  /** `sorted(values, key=lambda s: -len(s))`: every value once, longest
      first. The order among values of equal length is left open, as the
      iteration order of a Python set is. */
  method SortByLength(values: set<string>) returns (sorted: seq<string>)
    ensures LengthDescending(sorted)
    ensures forall v :: v in sorted <==> v in values
    ensures |sorted| == |values|
  {
    sorted := [];
    var rest := values;
    while rest != {}
      invariant LengthDescending(sorted)
      invariant forall v :: v in values <==> v in sorted || v in rest
      invariant forall v :: v in sorted ==> v !in rest
      invariant forall i, y :: 0 <= i < |sorted| && y in rest ==> |y| <= |sorted[i]|
      invariant |sorted| + |rest| == |values|
      decreases |rest|
    {
      var longest := LongestExists(rest);
      var m :| m in rest && forall y :: y in rest ==> |y| <= |m|;
      sorted := sorted + [m];
      rest := rest - {m};
    }
  }

  /** `v` is a gathered value whose lower-case form occurs in the
      lower-cased query. */
  predicate Mentions(df: Frame, query: string, v: string) {
    v in LocationValues(df) && Contains(Lower(query), Lower(v))
  }

  /** What `extract_area_from_query_using_values` may return: nothing for an
      empty query or when no value is mentioned, otherwise a mentioned value
      no other mentioned value is longer than. */
  ghost predicate Detection(df: Frame, query: string, d: Option<string>) {
    && (query == [] ==> d.None?)
    && (query != [] ==> (d.None? <==> forall v :: v in LocationValues(df) ==> !Contains(Lower(query), Lower(v))))
    && (d.Some? ==> Mentions(df, query, d.value) && forall v :: Mentions(df, query, v) ==> |v| <= |d.value|)
  }

  /** The scan over the sorted values: the first one whose lower-case form
      occurs in `q`, which no later, matching value is longer than. */
  method FirstMentioned(sorted: seq<string>, q: string) returns (r: Option<string>)
    requires LengthDescending(sorted)
    ensures r.None? <==> forall k :: 0 <= k < |sorted| ==> !Contains(q, Lower(sorted[k]))
    ensures r.Some? ==> r.value in sorted && Contains(q, Lower(r.value))
    ensures r.Some? ==> forall k :: 0 <= k < |sorted| && Contains(q, Lower(sorted[k])) ==> |sorted[k]| <= |r.value|
  {
    for i := 0 to |sorted|
      invariant forall k :: 0 <= k < i ==> !Contains(q, Lower(sorted[k]))
    {
      if Contains(q, Lower(sorted[i])) {
        return Some(sorted[i]);
      }
    }
    return None;
  }

  /** `extract_area_from_query_using_values(df, query)`. */
  method ExtractArea(df: Frame, query: string) returns (r: Option<string>)
    ensures Detection(df, query, r)
  {
    if query == [] {
      return None;
    }
    var q := Lower(query);
    var cands := CandidateLocationColumns(df);
    var values := CollectValues(df, cands);
    var sorted := SortByLength(values);
    r := FirstMentioned(sorted, q);
    assert values == LocationValues(df);
    if r.Some? {
      forall v | Mentions(df, query, v) ensures |v| <= |r.value| {
        var k :| 0 <= k < |sorted| && sorted[k] == v;
      }
    } else {
      forall v | v in LocationValues(df) ensures !Contains(q, Lower(v)) {
        var k :| 0 <= k < |sorted| && sorted[k] == v;
      }
    }
  }

  // ---------------------------------------------------------------------
  // Filtering rows by the query

  /** `df[c].astype(str).str.lower().str.contains(needle)` at one row. */
  predicate Hit(row: Row, c: string, needle: string) {
    Contains(Lower(CellAt(row, c).text), needle)
  }

  /** The OR of the per-column masks at one row. */
  predicate RowMatches(row: Row, cands: seq<string>, needle: string) {
    exists k :: 0 <= k < |cands| && Hit(row, cands[k], needle)
  }

  function Matching(cands: seq<string>, needle: string): Row -> bool {
    row => RowMatches(row, cands, needle)
  }

  /** The combined mask: none without candidate columns, otherwise one entry
      per row, set exactly when some candidate column hits. */
  method MaskFor(df: Frame, cands: seq<string>, needle: string) returns (mask: Option<seq<bool>>)
    ensures mask.None? <==> cands == []
    ensures mask.Some? ==> |mask.value| == |df.rows|
    ensures mask.Some? ==> forall i :: 0 <= i < |df.rows| ==> (mask.value[i] <==> RowMatches(df.rows[i], cands, needle))
  {
    var n := |df.rows|;
    mask := None;
    for k := 0 to |cands|
      invariant mask.None? <==> k == 0
      invariant mask.Some? ==> |mask.value| == n
      invariant mask.Some? ==> forall i :: 0 <= i < n ==>
        (mask.value[i] <==> exists k' :: 0 <= k' < k && Hit(df.rows[i], cands[k'], needle))
    {
      var c := cands[k];
      var hits := seq(n, i requires 0 <= i < n => Hit(df.rows[i], c, needle));
      if mask.None? {
        mask := Some(hits);
      } else {
        var prev := mask.value;
        mask := Some(seq(n, i requires 0 <= i < n => prev[i] || hits[i]));
      }
    }
  }

  /** `s[mask]`: the entries whose mask is set, in order. */
  function Select<T>(s: seq<T>, mask: seq<bool>): seq<T>
    requires |mask| == |s|
  {
    if s == [] then []
    else Select(s[..|s| - 1], mask[..|s| - 1]) + (if mask[|s| - 1] then [s[|s| - 1]] else [])
  }

  /** Selecting by a mask that mirrors a test is filtering by the test. */
  lemma {:induction false} SelectIsFilter(rows: seq<Row>, mask: seq<bool>, p: Row -> bool)
    requires |mask| == |rows|
    requires forall i :: 0 <= i < |rows| ==> (mask[i] <==> p(rows[i]))
    ensures Select(rows, mask) == Filter(rows, p)
  {
    if rows != [] {
      SelectIsFilter(rows[..|rows| - 1], mask[..|rows| - 1], p);
    }
  }

  /** `df[mask].head(top)` when there is a mask; the initial empty
      `pd.DataFrame()` otherwise. */
  function Selected(df: Frame, cands: seq<string>, needle: string, top: int): Frame {
    if cands == [] then Frame([], [])
    else Frame(df.columns, Head(Filter(df.rows, Matching(cands, needle)), top))
  }

  /** Whether the query-wide match left nothing, so that a locality value
      is looked for in the query. */
  predicate NeedsDetection(df: Frame, query: string, top: int) {
    var q := Lower(Strip(query));
    q != [] && IsEmpty(Selected(df, LocationColumns(df.columns), q, top))
  }

  /** What `filter_by_area` returns, given the value a detection found. */
  function Filtered(df: Frame, query: string, top: int, detected: Option<string>): Frame {
    var q := Lower(Strip(query));
    if q == [] then Frame(df.columns, Head(df.rows, top))
    else
      var cands := LocationColumns(df.columns);
      var first := Selected(df, cands, q, top);
      var chosen :=
        if IsEmpty(first) && detected.Some? && detected.value != []
        then Selected(df, cands, Lower(Strip(detected.value)), top)
        else first;
      if IsEmpty(chosen) then WithoutRows(df.columns)
      else Frame(chosen.columns, Head(chosen.rows, top))
  }

  /** `filter_by_area(df, query, top)`; `detected` is the value the
      fallback detection found, when it ran. */
  method FilterByArea(df: Frame, query: string, top: int) returns (out: Frame, ghost detected: Option<string>)
    ensures NeedsDetection(df, query, top) ==> Detection(df, query, detected)
    ensures out == Filtered(df, query, top, detected)
  {
    detected := None;
    var q := Lower(Strip(query));
    if q == [] {
      return Frame(df.columns, Head(df.rows, top)), detected;
    }
    var filtered := Frame([], []);
    var cands := CandidateLocationColumns(df);
    var mask := MaskFor(df, cands, q);
    if mask.Some? {
      SelectIsFilter(df.rows, mask.value, Matching(cands, q));
      filtered := Frame(df.columns, Head(Select(df.rows, mask.value), top));
    }
    if IsEmpty(filtered) {
      var found := ExtractArea(df, query);
      detected := found;
      if found.Some? && found.value != [] {
        var needle := Lower(Strip(found.value));
        var mask2 := MaskFor(df, cands, needle);
        if mask2.Some? {
          SelectIsFilter(df.rows, mask2.value, Matching(cands, needle));
          filtered := Frame(df.columns, Head(Select(df.rows, mask2.value), top));
        }
      }
    }
    if IsEmpty(filtered) {
      return WithoutRows(df.columns), detected;
    }
    return Frame(filtered.columns, Head(filtered.rows, top)), detected;
  }

  // ---------------------------------------------------------------------
  // What the filter promises

  /** A blank query keeps the first `top` rows, unfiltered. */
  lemma BlankQueryKeepsHead(df: Frame, query: string, top: int, detected: Option<string>)
    requires AllSpace(query)
    ensures Filtered(df, query, top, detected) == Frame(df.columns, Head(df.rows, top))
  {
    StripEmptyIff(query);
  }

  /** The result always has the input's column names. */
  lemma FilteredKeepsColumnNames(df: Frame, query: string, top: int, detected: Option<string>)
    ensures Names(Filtered(df, query, top, detected).columns) == Names(df.columns)
  {
  }

  /** A non-negative `top` bounds the number of rows. */
  lemma FilteredAtMostTop(df: Frame, query: string, top: int, detected: Option<string>)
    requires top >= 0
    ensures |Filtered(df, query, top, detected).rows| <= top
  {
  }

  /** A negative `top` keeps at most all but the last `-top` rows:
      `head(top)` drops them from the frame or from its matching rows. */
  lemma FilteredNegativeTop(df: Frame, query: string, top: int, detected: Option<string>)
    requires top < 0
    ensures |Filtered(df, query, top, detected).rows| <= if |df.rows| + top <= 0 then 0 else |df.rows| + top
  {
  }

  /** For a non-blank query the rows are the first matching rows in their
      original order: matching the whole query, or else matching the
      detected locality value. */
  lemma FilteredRowsMatch(df: Frame, query: string, top: int, detected: Option<string>)
    requires Lower(Strip(query)) != []
    ensures var out := Filtered(df, query, top, detected).rows;
      var cands := LocationColumns(df.columns);
      var byQuery := Filter(df.rows, Matching(cands, Lower(Strip(query))));
      || (|out| <= |byQuery| && out == byQuery[..|out|])
      || (detected.Some? && var byValue := Filter(df.rows, Matching(cands, Lower(Strip(detected.value))));
          |out| <= |byValue| && out == byValue[..|out|])
    ensures forall r :: r in Filtered(df, query, top, detected).rows ==>
      && r in df.rows
      && (|| RowMatches(r, LocationColumns(df.columns), Lower(Strip(query)))
          || (detected.Some? && RowMatches(r, LocationColumns(df.columns), Lower(Strip(detected.value)))))
  {
    var out := Filtered(df, query, top, detected).rows;
    var cands := LocationColumns(df.columns);
    var q := Lower(Strip(query));
    var first := Selected(df, cands, q, top);
    var matched: seq<Row>;
    var needle: string;
    if IsEmpty(first) && detected.Some? && detected.value != [] {
      needle := Lower(Strip(detected.value));
    } else {
      needle := q;
    }
    matched := Filter(df.rows, Matching(cands, needle));
    var chosen := Selected(df, cands, needle, top);
    if IsEmpty(chosen) {
      assert out == [];
    } else {
      HeadTwicePrefix(matched, top);
      assert out == Head(Head(matched, top), top);
    }
    assert |out| <= |matched| && out == matched[..|out|];
    forall r | r in out
      ensures r in df.rows && RowMatches(r, cands, needle)
    {
      assert r in matched;
      FilterMembership(df.rows, Matching(cands, needle), r);
    }
  }

  lemma HeadTwicePrefix<T>(s: seq<T>, n: int)
    ensures var r := Head(Head(s, n), n); |r| <= |s| && r == s[..|r|]
  {
    var h := Head(s, n);
    var r := Head(h, n);
    assert r == h[..|r|] && h == s[..|h|];
  }

  /** When no row matches the query or the detected value, the result is an
      empty table with the input's column names. */
  lemma NoMatchGivesEmptyFrame(df: Frame, query: string, top: int, detected: Option<string>)
    requires Lower(Strip(query)) != []
    requires forall i :: 0 <= i < |df.rows| ==> !RowMatches(df.rows[i], LocationColumns(df.columns), Lower(Strip(query)))
    requires detected.Some? ==>
      forall i :: 0 <= i < |df.rows| ==> !RowMatches(df.rows[i], LocationColumns(df.columns), Lower(Strip(detected.value)))
    ensures Filtered(df, query, top, detected) == WithoutRows(df.columns)
  {
    var cands := LocationColumns(df.columns);
    var q := Lower(Strip(query));
    FilterNone(df.rows, Matching(cands, q));
    if detected.Some? {
      FilterNone(df.rows, Matching(cands, Lower(Strip(detected.value))));
    }
  }
}
