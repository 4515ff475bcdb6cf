/** The HTTP endpoints of the server (`backend/analysis/views.py`): the
    upload reply, the parameters and the reply of the analysis endpoint, and
    the file name and rows of the CSV download. Reading the dataset, writing
    the uploaded file, the environment and the LLM call are parameters. */
module AnalysisViews {
  import opened Wrappers
  import opened Text
  import opened Seqs
  import opened JsValues
  import opened Frames
  import opened AnalysisUtils
  import opened ChartAggregate

  /** A query string as name/value pairs, in order. */
  type Query = seq<(string, string)>

  /** The position of the last pair for `name`, or -1 when there is none. */
  function LastIndex(params: Query, name: string): (k: int)
    ensures -1 <= k < |params|
    ensures k < 0 ==> forall i :: 0 <= i < |params| ==> params[i].0 != name
    ensures k >= 0 ==> params[k].0 == name && forall j :: k < j < |params| ==> params[j].0 != name
  {
    if params == [] then -1
    else if params[|params| - 1].0 == name then |params| - 1
    else LastIndex(params[..|params| - 1], name)
  }

  /** `request.GET.get(name)`: Django returns the last value given for a
      name. */
  function QueryGet(params: Query, name: string): (r: Option<string>)
    ensures r.None? <==> forall i :: 0 <= i < |params| ==> params[i].0 != name
    ensures r.Some? ==> exists i :: 0 <= i < |params| && params[i] == (name, r.value) && (forall j :: i < j < |params| ==> params[j].0 != name)
  {
    var k := LastIndex(params, name);
    if k < 0 then None else Some(params[k].1)
  }

  // ---------------------------------------------------------------------
  // The upload endpoint

  /** A reply the endpoints build with `Response`: a status and a JSON body. */
  datatype Reply = Reply(status: int, body: Json)

  /** The body of an error reply: `{"error": message}`. */
  function ErrorBody(message: string): (b: Json)
    ensures Get(b, "error") == Str(message) && Keys(b) == ["error"]
  {
    var v := Obj([("error", Str(message))]);
    assert IsJson(v.props[0].1);
    assert v.props[..0] == [];
    assert KeysOf(v.props) == KeysOf([]) + ["error"];
    v
  }

  /** `os.path.join(a, b)` on POSIX paths. */
  function PosixJoin(a: string, b: string): (r: string)
    ensures StartsWith(b, "/") ==> r == b
    ensures !StartsWith(b, "/") && a != "" ==>
      StartsWith(r, a) && |r| > |b| && r[|r| - |b|..] == b && r[|r| - |b| - 1] == '/'
      && |r| <= |a| + 1 + |b|
    ensures !StartsWith(b, "/") && a == "" ==> r == b
  {
    if StartsWith(b, "/") then b
    else if a == "" || a[|a| - 1] == '/' then a + b
    else a + "/" + b
  }

  /** `upload_view`: `fileName` is the name of the uploaded file (None when
      the form has no `file`), `tmpdir` the temporary directory and
      `saveError` the text of the exception writing the file raised, if
      any. A file with an empty name counts as no file. */
  function UploadView(fileName: Option<string>, tmpdir: string, saveError: Option<string>): (r: Reply)
    ensures (fileName.None? || fileName.value == "") ==> r == Reply(400, ErrorBody("No file provided."))
    ensures fileName.Some? && fileName.value != "" && saveError.Some? ==>
      r == Reply(500, ErrorBody("Failed to save file: " + saveError.value))
    ensures r.status == 200 <==> fileName.Some? && fileName.value != "" && saveError.None?
    ensures r.status == 200 ==>
      && Get(r.body, "status") == Str("ok")
      && Get(r.body, "path") == Str(PosixJoin(tmpdir, fileName.value))
      && Keys(r.body) == ["status", "path"]
  {
    if fileName.None? || fileName.value == "" then Reply(400, ErrorBody("No file provided."))
    else
      var savePath := PosixJoin(tmpdir, fileName.value);
      if saveError.Some? then Reply(500, ErrorBody("Failed to save file: " + saveError.value))
      else
        var body := Obj([("status", Str("ok")), ("path", Str(savePath))]);
        assert IsJson(body.props[0].1) && IsJson(body.props[1].1);
        assert body.props[..1] == [("status", Str("ok"))];
        assert body.props[..1][..0] == [];
        assert KeysOf(body.props[..1]) == ["status"];
        assert Lookup(body.props[..1], "status") == Str("ok");
        Reply(200, body)
  }

  /** The saved path ends with the uploaded name, so it is never empty. */
  lemma SavedPathEndsWithName(tmpdir: string, name: string)
    requires name != ""
    ensures var p := PosixJoin(tmpdir, name);
      |p| >= |name| && p[|p| - |name|..] == name
  {
  }

  // ---------------------------------------------------------------------
  // The analysis endpoint: parameters

  datatype AnalyzeParams = AnalyzeParams(query: string, top: int, useLLM: bool, file: Option<string>)

  const DefaultTop := 200

  /** The spellings of `use_llm` that switch the LLM on, after lower-casing. */
  predicate LlmOn(raw: string) {
    var v := Lower(raw);
    v == "1" || v == "true" || v == "yes"
  }

  /** The first lines of `analyze_view`: `int(top)` raising for a value
      that is not a decimal integer, which leaves the request to the
      framework's error page. */
  function ParseAnalyzeParams(params: Query): (r: Result<AnalyzeParams, string>)
    ensures r.Err? <==> QueryGet(params, "top").Some? && ParseInt(QueryGet(params, "top").value).None?
    ensures r.Err? ==> r.error == QueryGet(params, "top").value
    ensures r.Ok? ==>
      && r.value.query == QueryGet(params, "query").GetOr("")
      && (QueryGet(params, "top").None? ==> r.value.top == DefaultTop)
      && (QueryGet(params, "top").Some? ==> Some(r.value.top) == ParseInt(QueryGet(params, "top").value))
      && (r.value.useLLM <==> QueryGet(params, "use_llm").Some? && LlmOn(QueryGet(params, "use_llm").value))
      && r.value.file == QueryGet(params, "file")
  {
    var query := QueryGet(params, "query").GetOr("");
    var top: Result<int, string> :=
      match QueryGet(params, "top")
      case None => Ok(DefaultTop)
      case Some(raw) => (match ParseInt(raw) case Some(n) => Ok(n) case None => Err(raw));
    var useLLM := LlmOn(QueryGet(params, "use_llm").GetOr("false"));
    if top.Err? then Err(top.error)
    else Ok(AnalyzeParams(query, top.value, useLLM, QueryGet(params, "file")))
  }

  /** Absent parameters: an empty query, 200 rows, no LLM, the sample
      dataset. */
  lemma ParamDefaults()
    ensures ParseAnalyzeParams([]) == Ok(AnalyzeParams("", 200, false, None))
  {
    assert Lower("false") == "false";
  }

  /** `use_llm` is read case-insensitively, and only three spellings count. */
  lemma LlmSpellings()
    ensures LlmOn("TRUE") && LlmOn("Yes") && LlmOn("1")
    ensures !LlmOn("on") && !LlmOn("false")
  {
    assert Lower("TRUE") == "true";
    assert Lower("Yes") == "yes";
    assert Lower("1") == "1";
    assert Lower("on") == "on";
    assert Lower("false") == "false";
  }

  /** A `top` that is not a decimal integer fails the request. */
  lemma TopNotANumber()
    ensures ParseAnalyzeParams([("top", "ten")]).Err?
  {
    assert Strip("ten") == "ten" by { StripOfNoSpace("ten"); }
    assert !AllDigits("ten") by { assert !IsDigit("ten"[0]); }
  }

  // ---------------------------------------------------------------------
  // The analysis endpoint: mode, table and summary

  predicate NonBlank(s: string) {
    Strip(s) != []
  }

  /** `[x for x in query.split(",") if x.strip()]`. */
  function CommaParts(query: string): seq<string> {
    Filter(Split(query, ','), NonBlank)
  }

  /** The reply's `mode`. */
  function Mode(query: string): (m: string)
    ensures m == "comparison" || m == "single"
  {
    var lq := Lower(query);
    if Contains(lq, " vs ") || Contains(lq, "compare ") || (Contains(query, ",") && |CommaParts(query)| > 1)
    then "comparison" else "single"
  }

  /** "comparison" exactly for a " vs " or "compare " in the lower-cased
      query or for more than one non-blank comma-separated part: the
      separate test for a comma decides nothing. */
  lemma ModeIff(query: string)
    ensures Mode(query) == "comparison" <==>
      Contains(Lower(query), " vs ") || Contains(Lower(query), "compare ") || |CommaParts(query)| > 1
  {
    if !Contains(query, ",") {
      ContainsIff(query, ",");
      if ',' in query {
        var i :| 0 <= i < |query| && query[i] == ',';
        assert OccursAt(query, ",", i);
      }
      SplitWithoutSep(query, ',');
    }
  }

  /** A string shorter than the needle does not contain it. */
  lemma ShortLacks(h: string, n: string)
    requires |h| < |n|
    ensures !Contains(h, n)
  {
    ContainsIff(h, n);
  }

  /** A trailing comma does not make a comparison: the empty part is not
      counted. */
  lemma TrailingCommaIsSingle()
    ensures |CommaParts("Wakad,")| == 1
  {
    var p := "Wakad";
    assert ',' !in p;
    assert "Wakad," == p + [','] + "";
    SplitAtSep(p, "", ',');
    assert Split("Wakad,", ',') == [p, ""];
    assert NonBlank(p) by { StripOfNoSpace(p); }
    assert !NonBlank("") by { StripEmptyIff(""); }
    assert [p, ""][..1] == [p];
    assert [p][..0] == [];
  }

  /** Two non-blank comma-separated parts make a comparison (by
      `ModeIff`). */
  lemma TwoAreasCompare()
    ensures |CommaParts("Wakad, Baner")| == 2
  {
    var p := "Wakad";
    var q := " Baner";
    TwoParts(p, q);
    assert "Wakad, Baner" == p + [','] + q;
    NonBlankWord(p, 0);
    NonBlankWord(q, 1);
    KeepBoth(p, q);
  }

  /** A string with a non-space character is not blank. */
  lemma NonBlankWord(s: string, i: nat)
    requires i < |s| && !IsSpace(s[i])
    ensures NonBlank(s)
  {
    StripEmptyIff(s);
  }

  lemma KeepBoth(p: string, q: string)
    requires NonBlank(p) && NonBlank(q)
    ensures Filter([p, q], NonBlank) == [p, q]
  {
    assert [p, q][..1] == [p];
    assert [p][..0] == [];
  }

  lemma TwoParts(p: string, q: string)
    requires ',' !in p && ',' !in q
    ensures Split(p + [','] + q, ',') == [p, q]
  {
    SplitWithoutSep(q, ',');
    SplitAtSep(p, q, ',');
  }

  /** Rows served in the reply's `table` and the CSV. */
  const MaxTableRows := 500

  /** `fillna("")` cell by cell. */
  function CellJson(c: Cell): JsValue {
    if c.NA? then Str("") else Str(c.text)
  }

  predicate DistinctNames(cols: seq<Column>) {
    forall i, j :: 0 <= i < j < |cols| ==> cols[i].name != cols[j].name
  }

  /** `Object.keys` of a binding list whose names are distinct lists them in
      order. */
  lemma {:induction false} KeysOfDistinct(props: seq<(string, JsValue)>)
    requires forall i, j :: 0 <= i < j < |props| ==> props[i].0 != props[j].0
    ensures KeysOf(props) == seq(|props|, i requires 0 <= i < |props| => props[i].0)
  {
    if props != [] {
      var front := props[..|props| - 1];
      KeysOfDistinct(front);
    }
  }

  /** The bindings of a record over distinct column names read back as the
      column names and, per name, the filled cell. */
  lemma RecordBindings(cols: seq<Column>, row: Row, props: seq<(string, JsValue)>)
    requires DistinctNames(cols) && |props| == |cols|
    requires forall i :: 0 <= i < |cols| ==> props[i] == (cols[i].name, CellJson(CellAt(row, cols[i].name)))
    ensures KeysOf(props) == Names(cols)
    ensures forall k :: 0 <= k < |cols| ==> Lookup(props, cols[k].name) == CellJson(CellAt(row, cols[k].name))
  {
    KeysOfDistinct(props);
    forall k | 0 <= k < |cols|
      ensures Lookup(props, cols[k].name) == CellJson(CellAt(row, cols[k].name))
    {
      LookupLast(props, k, cols[k].name);
    }
  }

  /** One `to_dict(orient="records")` record. With distinct column names
      (which a frame read from a CSV has) its keys are the column names in
      column order and each column's property is its filled cell. */
  function Record(cols: seq<Column>, row: Row): (r: JsValue)
    ensures r.Obj? && |r.props| == |cols|
    ensures DistinctNames(cols) ==> Keys(r) == Names(cols)
    ensures DistinctNames(cols) ==>
      forall k :: 0 <= k < |cols| ==> Get(r, cols[k].name) == CellJson(CellAt(row, cols[k].name))
  {
    var props := seq(|cols|, i requires 0 <= i < |cols| => (cols[i].name, CellJson(CellAt(row, cols[i].name))));
    assert DistinctNames(cols) ==>
      (KeysOf(props) == Names(cols)
       && forall k :: 0 <= k < |cols| ==> Lookup(props, cols[k].name) == CellJson(CellAt(row, cols[k].name))) by {
      if DistinctNames(cols) {
        RecordBindings(cols, row, props);
      }
    }
    Obj(props)
  }

  /** `df.fillna("").head(500).to_dict(orient="records")`. */
  function TableJson(df: Frame): (t: seq<JsValue>)
    ensures |t| == if |df.rows| <= MaxTableRows then |df.rows| else MaxTableRows
    ensures forall i :: 0 <= i < |t| ==> t[i] == Record(df.columns, df.rows[i])
  {
    var rows := Head(df.rows, MaxTableRows);
    seq(|rows|, i requires 0 <= i < |rows| => Record(df.columns, rows[i]))
  }

  /** A missing value is served as "" and any other as its text. */
  lemma TableCellsServed(df: Frame, i: nat, k: nat)
    requires i < |TableJson(df)| && k < |df.columns|
    ensures var c := CellAt(df.rows[i], df.columns[k].name);
      TableJson(df)[i].props[k].1 == Str(if c.NA? then "" else c.text)
  {
  }

  /** The summary: the LLM's text when it was asked for, the key is set
      and it answered with non-empty text; the fallback summary otherwise. */
  function SummaryChoice(useLLM: bool, keySet: bool, llm: Option<string>, fallback: string): (s: string)
    ensures useLLM && keySet && llm.Some? && llm.value != "" ==> s == llm.value
    ensures !(useLLM && keySet && llm.Some? && llm.value != "") ==> s == fallback
  {
    var fromLLM: Option<string> := if useLLM && keySet && llm.Some? && llm.value != "" then llm else None;
    if fromLLM.None? || fromLLM.value == "" then fallback else fromLLM.value
  }

  /** The year column after `pd.to_numeric(..., errors="coerce")`: an
      integer keeps its decimal form, anything else becomes `<NA>`. */
  function CoerceYearCell(c: Cell): (r: Cell)
    ensures r.Val? <==> c.Val? && ParseInt(c.text).Some?
    ensures r.Val? ==> r.text == IntToString(ParseInt(c.text).value) && ParseInt(r.text) == ParseInt(c.text)
    ensures r.NA? ==> r.text == "<NA>"
  {
    if c.Val? && ParseInt(c.text).Some? then
      ParseIntToString(ParseInt(c.text).value);
      Val(IntToString(ParseInt(c.text).value))
    else NA("<NA>")
  }

  /** A row with its year coerced; a row without a year cell gets `<NA>`. */
  function CoerceYearRow(row: Row): Row {
    row["year" := CoerceYearCell(CellAt(row, "year"))]
  }

  function CoerceYearKind(c: Column): Column {
    if c.name == "year" then Column("year", NumberKind) else c
  }

  /** The frame after the year coercion, applied only when a "year" column
      exists: that column becomes numeric and its cells are coerced, every
      other column and cell stays as it was. */
  function CoerceYear(df: Frame): (r: Frame)
    ensures Names(r.columns) == Names(df.columns) && |r.rows| == |df.rows|
    ensures "year" !in Names(df.columns) ==> r == df
    ensures "year" in Names(df.columns) ==>
      && (forall k :: 0 <= k < |df.columns| ==>
            r.columns[k] == if df.columns[k].name == "year" then Column("year", NumberKind) else df.columns[k])
      && (forall i :: 0 <= i < |df.rows| ==> CellAt(r.rows[i], "year") == CoerceYearCell(CellAt(df.rows[i], "year")))
      && (forall i, name :: 0 <= i < |df.rows| && name != "year" ==> CellAt(r.rows[i], name) == CellAt(df.rows[i], name))
  {
    if "year" in Names(df.columns) then
      var cols := seq(|df.columns|, i requires 0 <= i < |df.columns| => CoerceYearKind(df.columns[i]));
      assert Names(cols) == Names(df.columns);
      Frame(cols, seq(|df.rows|, i requires 0 <= i < |df.rows| => CoerceYearRow(df.rows[i])))
    else df
  }

  /** Coercing a coerced year changes nothing. */
  lemma CoerceYearCellIdempotent(c: Cell)
    ensures CoerceYearCell(CoerceYearCell(c)) == CoerceYearCell(c)
  {
    if c.Val? && ParseInt(c.text).Some? {
      ParseIntToString(ParseInt(c.text).value);
    }
  }

  /** The coercion is idempotent. */
  lemma CoerceYearIdempotent(df: Frame)
    ensures CoerceYear(CoerceYear(df)) == CoerceYear(df)
  {
    if "year" in Names(df.columns) {
      var r := CoerceYear(df);
      forall i | 0 <= i < |r.rows| ensures CoerceYearRow(r.rows[i]) == r.rows[i] {
        CoerceYearCellIdempotent(CellAt(df.rows[i], "year"));
      }
      assert CoerceYear(r).rows == r.rows;
    }
  }

  /** The coercion keeps the year the chart groups each row by. */
  lemma CoercionKeepsYears(row: Row)
    ensures YearOf(Named("year"), CoerceYearRow(row)) == YearOf(Named("year"), row)
  {
    var c := CellAt(row, "year");
    if c.Val? && ParseInt(c.text).Some? {
      ParseIntToString(ParseInt(c.text).value);
    }
  }

  /** The analysis reply: the framework's error page for an uncaught
      exception, an error reply, or the result. */
  datatype AnalyzeReply =
    | ServerError
    | AnalyzeFailed(status: int, body: Json)
    | Analyzed(mode: string, summary: string, chart: Chart, table: seq<JsValue>, query: string)

  /** `load_dataset_from_path(file, top=50000)`: the reader is a
      parameter, the row cap is applied here. */
  const LoadCap := 50000

  /** The dataset as `load_dataset_from_path(..., top=50000)` returns it. */
  function Capped(loaded: Frame): Frame {
    Frame(loaded.columns, Head(loaded.rows, LoadCap))
  }

  /** Whether `fillna("")` raises on the coerced frame: the year column is
      then pandas' nullable `Int64`, which rejects `""` as the value for a
      missing year. */
  predicate FillRaises(df: Frame) {
    "year" in Names(df.columns) && exists i :: 0 <= i < |df.rows| && CellAt(df.rows[i], "year").NA?
  }

  /** A blank year in a frame with a "year" column is still missing after
      the coercion, so filling the coerced frame raises. */
  lemma BlankYearRaises(df: Frame, i: nat)
    requires "year" in Names(df.columns) && i < |df.rows| && CellAt(df.rows[i], "year") == Val("")
    ensures FillRaises(CoerceYear(df))
  {
    assert ParseInt("").None?;
    assert CellAt(CoerceYear(df).rows[i], "year").NA?;
  }

  /** `analyze_view`. `load` reads the dataset at a path (or the sample
      dataset), `keySet` says whether `OPENAI_API_KEY` is set, `llm` is the
      LLM's answer if it were asked, and `summarize` is `make_summary`.
      `served` is the filtered frame after the year coercion and `detected`
      the locality value the filter's fallback detection found. The
      uncaught `fillna("")` error gives the framework's error page. */
  method AnalyzeView(params: Query, load: Option<string> -> Result<Frame, string>,
                     mean: Aggregator, sum: Aggregator, keySet: bool, llm: Option<string>,
                     summarize: (Frame, Chart, string) -> string)
    returns (reply: AnalyzeReply, ghost served: Frame, ghost detected: Option<string>)
    ensures ParseAnalyzeParams(params).Err? ==> reply.ServerError?
    ensures ParseAnalyzeParams(params).Ok? && load(ParseAnalyzeParams(params).value.file).Err? ==>
      reply == AnalyzeFailed(500, ErrorBody("Failed to load dataset: " + load(ParseAnalyzeParams(params).value.file).error))
    ensures ParseAnalyzeParams(params).Ok? && load(ParseAnalyzeParams(params).value.file).Ok? ==>
      var p := ParseAnalyzeParams(params).value;
      var df := Capped(load(p.file).value);
      && (NeedsDetection(df, p.query, p.top) ==> Detection(df, p.query, detected))
      && served == CoerceYear(Filtered(df, p.query, p.top, detected))
      && (reply.ServerError? <==> FillRaises(served))
      && (reply.Analyzed? <==> !FillRaises(served))
    ensures reply.Analyzed? ==> ParseAnalyzeParams(params).Ok? && load(ParseAnalyzeParams(params).value.file).Ok?
    ensures reply.Analyzed? ==>
      var p := ParseAnalyzeParams(params).value;
      && reply.query == p.query
      && reply.mode == Mode(p.query)
      && reply.chart == AggregatedAsWritten(served, mean, sum)
      && reply.table == TableJson(served)
      && |reply.table| <= MaxTableRows
      && reply.summary == SummaryChoice(p.useLLM, keySet, llm, summarize(served, reply.chart, p.query))
      && Names(served.columns) == Names(load(p.file).value.columns)
      && (p.top >= 0 ==> |served.rows| <= p.top)
      && (p.top < 0 ==> var n := |load(p.file).value.rows| + p.top; |served.rows| <= if n <= 0 then 0 else n)
  {
    served, detected := Frame([], []), None;
    var parsed := ParseAnalyzeParams(params);
    if parsed.Err? {
      return ServerError, served, detected;
    }
    var p := parsed.value;
    var loaded := load(p.file);
    if loaded.Err? {
      return AnalyzeFailed(500, ErrorBody("Failed to load dataset: " + loaded.error)), served, detected;
    }
    var df := Capped(loaded.value);
    var filtered;
    filtered, detected := FilterByArea(df, p.query, p.top);
    FilteredKeepsColumnNames(df, p.query, p.top, detected);
    if p.top >= 0 {
      FilteredAtMostTop(df, p.query, p.top, detected);
    } else {
      FilteredNegativeTop(df, p.query, p.top, detected);
    }
    filtered := CoerceYear(filtered);
    served := filtered;
    var chart := AggregateForChart(filtered, mean, sum);
    var fallback := summarize(filtered, chart, p.query);
    var summary := SummaryChoice(p.useLLM, keySet, llm, fallback);
    if FillRaises(filtered) {
      return ServerError, served, detected;
    }
    var table := TableJson(filtered);
    var mode := Mode(p.query);
    return Analyzed(mode, summary, chart, table, p.query), served, detected;
  }

  // ---------------------------------------------------------------------
  // The download endpoint

  /** The CSV's file name: `filtered_<query>.csv`, with "dataset" standing in
      for an empty query. */
  function DownloadFilename(query: string): (name: string)
    ensures StartsWith(name, "filtered_")
    ensures |name| >= 13 && name[|name| - 4..] == ".csv"
    ensures query == "" ==> name == "filtered_dataset.csv"
    ensures query != "" ==> name[9..|name| - 4] == query
  {
    "filtered_" + (if query == "" then "dataset" else query) + ".csv"
  }

  function Disposition(query: string): string {
    "attachment; filename=\"" + DownloadFilename(query) + "\""
  }

  datatype DownloadReply =
    | Csv(disposition: string, columns: seq<string>, rows: seq<Row>)
    | DownloadFailed(status: int, body: Json)

  /** `download_view`: the first 500 rows of the filter, under the query's
      file name; `detected` is the locality value the filter's fallback
      detection found. The CSV text itself is not modelled. */
  method DownloadView(params: Query, load: Option<string> -> Result<Frame, string>)
    returns (reply: DownloadReply, ghost detected: Option<string>)
    ensures var query := QueryGet(params, "query").GetOr("");
      var loaded := load(QueryGet(params, "file"));
      && (loaded.Err? ==> reply == DownloadFailed(500, ErrorBody("Failed to prepare download: " + loaded.error)))
      && (loaded.Ok? ==>
            var df := Capped(loaded.value);
            var filtered := Filtered(df, query, MaxTableRows, detected);
            && (NeedsDetection(df, query, MaxTableRows) ==> Detection(df, query, detected))
            && reply == Csv(Disposition(query), Names(filtered.columns), Head(filtered.rows, MaxTableRows))
            && reply.columns == Names(loaded.value.columns)
            && |reply.rows| <= MaxTableRows
            && forall r :: r in reply.rows ==> r in loaded.value.rows)
  {
    detected := None;
    var query := QueryGet(params, "query").GetOr("");
    var file := QueryGet(params, "file");
    var loaded := load(file);
    if loaded.Err? {
      return DownloadFailed(500, ErrorBody("Failed to prepare download: " + loaded.error)), detected;
    }
    var df := Capped(loaded.value);
    var filtered;
    filtered, detected := FilterByArea(df, query, MaxTableRows);
    FilteredKeepsColumnNames(df, query, MaxTableRows, detected);
    FilteredAtMostTop(df, query, MaxTableRows, detected);
    RowsFromFrame(df, query, MaxTableRows, detected);
    var rows := Head(filtered.rows, MaxTableRows);
    return Csv(Disposition(query), Names(filtered.columns), rows), detected;
  }

  /** Every row the filter returns is a row of its input. */
  lemma RowsFromFrame(df: Frame, query: string, top: int, detected: Option<string>)
    ensures forall r :: r in Filtered(df, query, top, detected).rows ==> r in df.rows
  {
    if Lower(Strip(query)) != [] {
      FilteredRowsMatch(df, query, top, detected);
    }
  }
}
