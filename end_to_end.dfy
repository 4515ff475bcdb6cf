/** How the two halves meet: the request the page sends is read back by the
    server as the page meant it, the server's upload reply is what the upload
    panel reports, and the served table is what the table card draws. */
module EndToEnd {
  import opened Wrappers
  import opened Text
  import opened JsValues
  import opened Http
  import opened Frames
  import App
  import UploadPanel
  import ResultsPanel
  import opened AnalysisViews

  // ---------------------------------------------------------------------
  // The analysis request

  lemma TwoHundred()
    ensures ParseInt("200") == Some(200)
  {
    ParseIntToString(200);
    assert DigitChar(0) == '0' && DigitChar(2) == '2';
    assert NatToString(2) == "2";
    assert NatToString(20) == NatToString(2) + ['0'];
    assert NatToString(200) == NatToString(20) + ['0'];
    assert IntToString(200) == "200";
  }

  lemma QueryGetLast(ps: Query, n: string, v: string)
    ensures QueryGet(ps + [(n, v)], n) == Some(v)
  {
  }

  lemma QueryGetOther(ps: Query, m: string, v: string, n: string)
    requires m != n
    ensures QueryGet(ps + [(m, v)], n) == QueryGet(ps, n)
  {
    assert (ps + [(m, v)])[..|ps|] == ps;
  }

  function Base(q: string, llm: string): Query {
    [("query", q), ("top", "200"), ("use_llm", llm)]
  }

  lemma BaseShape(q: string, llm: string)
    ensures Base(q, llm) == [] + [("query", q)] + [("top", "200")] + [("use_llm", llm)]
  {
  }

  lemma BaseQuery(q: string, llm: string)
    ensures QueryGet(Base(q, llm), "query") == Some(q)
  {
    BaseShape(q, llm);
    var one := [] + [("query", q)];
    QueryGetLast([], "query", q);
    QueryGetOther(one, "top", "200", "query");
    QueryGetOther(one + [("top", "200")], "use_llm", llm, "query");
  }

  lemma BaseTop(q: string, llm: string)
    ensures QueryGet(Base(q, llm), "top") == Some("200")
  {
    BaseShape(q, llm);
    var one := [] + [("query", q)];
    QueryGetLast(one, "top", "200");
    QueryGetOther(one + [("top", "200")], "use_llm", llm, "top");
  }

  lemma BaseLlm(q: string, llm: string)
    ensures QueryGet(Base(q, llm), "use_llm") == Some(llm)
  {
    BaseShape(q, llm);
    QueryGetLast([] + [("query", q)] + [("top", "200")], "use_llm", llm);
  }

  lemma BaseFile(q: string, llm: string)
    ensures QueryGet(Base(q, llm), "file") == None
  {
  }

  /** What the server's lookups find in the page's request. */
  lemma RequestLookups(q: string, useLLM: bool, filePath: JsValue)
    ensures var ps := App.RequestParams(q, useLLM, filePath);
      && QueryGet(ps, "query") == Some(q)
      && QueryGet(ps, "top") == Some("200")
      && QueryGet(ps, "use_llm") == Some(if useLLM then "true" else "false")
      && QueryGet(ps, "file") == ResultsPanel.FileParam(filePath)
  {
    var llm := if useLLM then "true" else "false";
    var base := Base(q, llm);
    BaseQuery(q, llm);
    BaseTop(q, llm);
    BaseLlm(q, llm);
    BaseFile(q, llm);
    var ps := App.RequestParams(q, useLLM, filePath);
    if Truthy(filePath) {
      var f := ToStr(filePath);
      assert ps == base + [("file", f)];
      QueryGetOther(base, "file", f, "query");
      QueryGetOther(base, "file", f, "top");
      QueryGetOther(base, "file", f, "use_llm");
      QueryGetLast(base, "file", f);
    } else {
      assert ps == base;
    }
  }

  /** The server reads the page's request as sent: the query, 200 rows, the
      LLM switch and the dataset path exactly when the page has one. */
  lemma RequestReadBack(q: string, useLLM: bool, filePath: JsValue)
    ensures ParseAnalyzeParams(App.RequestParams(q, useLLM, filePath))
         == Ok(AnalyzeParams(q, 200, useLLM, ResultsPanel.FileParam(filePath)))
  {
    RequestLookups(q, useLLM, filePath);
    ParsedFrom(App.RequestParams(q, useLLM, filePath), q, useLLM, ResultsPanel.FileParam(filePath));
  }

  /** The parameters the server derives from the four lookups the page's
      request answers. */
  lemma ParsedFrom(ps: Query, q: string, useLLM: bool, file: Option<string>)
    requires QueryGet(ps, "query") == Some(q) && QueryGet(ps, "top") == Some("200")
    requires QueryGet(ps, "use_llm") == Some(if useLLM then "true" else "false")
    requires QueryGet(ps, "file") == file
    ensures ParseAnalyzeParams(ps) == Ok(AnalyzeParams(q, 200, useLLM, file))
  {
    TwoHundred();
    assert Lower("true") == "true";
    assert Lower("false") == "false";
  }

  // ---------------------------------------------------------------------
  // The upload reply

  /** A reply as the browser sees it: DRF's JSON rendering of the body. */
  function ToHttp(r: Reply): (h: HttpResponse)
    ensures h.status == r.status && DeclaresJson(h) && h.json == Ok(r.body)
  {
    var h := HttpResponse(r.status, Some("application/json"), Stringify(r.body), Ok(r.body));
    assert StartsWith(ContentType(h), "application/json");
    h
  }

  /** A saved upload reaches the panel as success, and the path the panel
      hands on is the one the server saved to. */
  lemma UploadSucceeds(name: string, tmpdir: string)
    requires name != ""
    ensures UploadPanel.UploadOutcome(Responded(ToHttp(UploadView(Some(name), tmpdir, None))))
         == UploadPanel.Settled(UploadPanel.SuccessStatus, Some(Str(PosixJoin(tmpdir, name))))
  {
    SavedPathEndsWithName(tmpdir, name);
  }

  /** A rejected or failed upload is reported as failed with the reply's
      text, and nothing is handed on. */
  lemma UploadFailureReported(fileName: Option<string>, tmpdir: string, saveError: Option<string>)
    requires fileName.None? || fileName.value == "" || saveError.Some?
    ensures var h := ToHttp(UploadView(fileName, tmpdir, saveError));
      UploadPanel.UploadOutcome(Responded(h)) == UploadPanel.Settled(UploadPanel.FailedPrefix + h.text, None)
  {
  }

  // ---------------------------------------------------------------------
  // The served table

  /** For a result whose `table` holds the records of a frame with rows and
      distinct column names, the table card titles the served row count,
      heads the first 8 columns and draws each cell as the server served
      it: "" for a missing value, its text otherwise. */
  lemma TableCardShowsFrame(result: JsValue, df: Frame)
    requires Get(result, "table") == Arr(TableJson(df))
    requires DistinctNames(df.columns) && |df.rows| > 0
    ensures var t := ResultsPanel.TableView(ResultsPanel.TableRows(result));
      && t.Card?
      && t.table.count == |TableJson(df)|
      && t.table.header == Take(Names(df.columns), ResultsPanel.MaxColumns)
      && forall i, j :: 0 <= i < |t.table.body| && 0 <= j < |t.table.header| ==>
           var c := CellAt(df.rows[i], df.columns[j].name);
           t.table.body[i][j] == (if c.NA? then "" else c.text)
  {
    var items := TableJson(df);
    assert ResultsPanel.TableRows(result) == Arr(items);
    var t := ResultsPanel.TableView(Arr(items));
    assert items[0] == Record(df.columns, df.rows[0]);
    assert Keys(items[0]) == Names(df.columns);
    forall i, j | 0 <= i < |t.table.body| && 0 <= j < |t.table.header|
      ensures var c := CellAt(df.rows[i], df.columns[j].name);
        t.table.body[i][j] == (if c.NA? then "" else c.text)
    {
      assert t.table.header[j] == df.columns[j].name;
      assert items[i] == Record(df.columns, df.rows[i]);
      assert Get(items[i], df.columns[j].name) == CellJson(CellAt(df.rows[i], df.columns[j].name));
    }
  }
}
