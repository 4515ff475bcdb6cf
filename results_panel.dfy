/** The results area (`ResultsPanel`): which cards show, the chart data and
    table rows derived from the result, the sliced table and the download
    link. */
module ResultsPanel {
  import opened Wrappers
  import opened Text
  import opened JsValues
  import opened Uri
  import ChartView
  import App

  // ---------------------------------------------------------------------
  // Derivations from the result

  datatype ChartData = ChartData(labels: JsValue, price: JsValue, demand: JsValue, priceCol: JsValue, demandCol: JsValue)

  /** The `chartData` memo: none without a result or a `chart`; otherwise the
      three arrays, each `[]` when falsy, and the two column names as they are. */
  function ChartDataOf(result: JsValue): (c: Option<ChartData>)
    ensures c.None? <==> !Truthy(result) || !Truthy(Get(result, "chart"))
    ensures c.Some? ==>
      var chart := Get(result, "chart");
      && Truthy(c.value.labels) && Truthy(c.value.price) && Truthy(c.value.demand)
      && (Truthy(Get(chart, "labels")) ==> c.value.labels == Get(chart, "labels"))
      && (Truthy(Get(chart, "price")) ==> c.value.price == Get(chart, "price"))
      && (Truthy(Get(chart, "demand")) ==> c.value.demand == Get(chart, "demand"))
      && c.value.priceCol == Get(chart, "price_col") && c.value.demandCol == Get(chart, "demand_col")
  {
    if !Truthy(result) || !Truthy(Get(result, "chart")) then None
    else
      var chart := Get(result, "chart");
      Some(ChartData(Or(Get(chart, "labels"), Arr([])), Or(Get(chart, "price"), Arr([])),
                     Or(Get(chart, "demand"), Arr([])), Get(chart, "price_col"), Get(chart, "demand_col")))
  }

  /** The chart card's line chart, drawn from `chartData`. */
  function RenderedChart(result: JsValue): Option<ChartView.ViewData> {
    match ChartDataOf(result)
    case None => None
    case Some(c) => Some(ChartView.Build(c.labels, c.price, c.demand))
  }

  /** Because `chartData` never holds `undefined`, the chart's own defaults
      never apply: it draws the result's arrays, or `[]` for falsy ones. */
  lemma ChartDrawsResultArrays(result: JsValue)
    requires ChartDataOf(result).Some?
    ensures var c := ChartDataOf(result).value;
      var d := RenderedChart(result).value;
      d.labels == c.labels && d.datasets[0].data == c.price && d.datasets[1].data == c.demand
  {
  }

  /** The `tableRows` memo: `[]` without a result or a truthy `table`.
      The card then shows exactly when the result's own table would. */
  function TableRows(result: JsValue): (rows: JsValue)
    ensures rows == Arr([]) || rows == Get(result, "table")
    ensures ShowsTable(rows) <==> Truthy(result) && ShowsTable(Get(result, "table"))
  {
    if !Truthy(result) || !Truthy(Get(result, "table")) then Arr([]) else Get(result, "table")
  }

  /** Before any result arrives there is no table card. */
  lemma NoResultNoTable(result: JsValue)
    requires !Truthy(result)
    ensures TableView(TableRows(result)).NoCard?
  {
  }

  // ---------------------------------------------------------------------
  // The table card

  const MaxColumns := 8
  const MaxRows := 25

  /** `Object.keys(v)` for a value that is neither `null` nor `undefined`:
      an object's keys, or the indices of an array or a string. */
  function OwnKeys(v: JsValue): (ks: seq<string>)
    ensures Distinct(ks)
    ensures v.Obj? ==> ks == Keys(v)
  {
    KeysOfExact(SpreadProps(v));
    KeysOf(SpreadProps(v))
  }

  /** `r[k]` for a value that is neither `null` nor `undefined`. */
  function Member(r: JsValue, k: string): (m: JsValue)
    ensures r.Obj? ==> m == Get(r, k)
  {
    Lookup(SpreadProps(r), k)
  }

  /** `String(r[k] ?? "")`. */
  function CellText(r: JsValue, k: string): string {
    ToStr(Coalesce(Member(r, k), Str("")))
  }

  lemma NullishCellIsBlank(r: JsValue, k: string)
    requires IsNullish(Member(r, k))
    ensures CellText(r, k) == ""
  {
  }

  /** The rendered table: the row count in the title, the header, the body
      and whether the "Showing first 25 rows." note is shown. */
  datatype Table = Table(count: nat, header: seq<string>, body: seq<seq<string>>, truncated: bool)

  /** What the table slot renders: nothing, the card, or a `TypeError` that
      ends the render. */
  datatype TableCard = NoCard | Card(table: Table) | RenderError

  /** `tableRows && tableRows.length > 0`. */
  predicate ShowsTable(rows: JsValue) {
    Truthy(rows) && LengthOf(rows).Num? && LengthOf(rows).n > 0
  }

  /** Whether drawing the card throws: `.slice(0, 25).map` exists only on an
      array, `Object.keys(tableRows[0])` throws for a nullish first row, and
      `r[k]` throws for a nullish drawn row once there is a header key. */
  predicate TableThrows(rows: JsValue) {
    !rows.Arr? || |rows.items| == 0 || IsNullish(rows.items[0])
    || (OwnKeys(rows.items[0]) != []
        && exists i :: 0 <= i < |rows.items| && i < MaxRows && IsNullish(rows.items[i]))
  }

  /** The table card, shown only for a non-empty array of rows: the header is
      at most the first 8 keys of the first row, at most 25 rows are drawn,
      each with exactly the header's keys. Any other value passing the
      guard, or a nullish row read under a key, makes the render throw. */
  function TableView(rows: JsValue): (t: TableCard)
    ensures t.NoCard? <==> !ShowsTable(rows)
    ensures t.RenderError? <==> ShowsTable(rows) && TableThrows(rows)
    ensures t.Card? ==> rows.Arr? && |rows.items| > 0
    ensures rows.Arr? && |rows.items| > 0 && (forall i :: 0 <= i < |rows.items| ==> rows.items[i].Obj?) ==> t.Card?
    ensures t.Card? ==>
      var items := rows.items;
      var keys := OwnKeys(items[0]);
      && t.table.count == |items|
      && |t.table.header| == (if |keys| <= MaxColumns then |keys| else MaxColumns)
      && t.table.header == keys[..|t.table.header|]
      && Distinct(t.table.header)
      && |t.table.body| == (if |items| <= MaxRows then |items| else MaxRows)
      && (forall i :: 0 <= i < |t.table.body| ==>
            |t.table.body[i]| == |t.table.header|
            && forall j :: 0 <= j < |t.table.header| ==> t.table.body[i][j] == CellText(items[i], t.table.header[j]))
      && (t.table.truncated <==> |items| > MaxRows)
  {
    if !ShowsTable(rows) then NoCard
    else if TableThrows(rows) then RenderError
    else
      var items := rows.items;
      var header := Take(OwnKeys(items[0]), MaxColumns);
      var shown := Take(items, MaxRows);
      Card(Table(|items|, header,
                 seq(|shown|, i requires 0 <= i < |shown| =>
                   seq(|header|, j requires 0 <= j < |header| => CellText(shown[i], header[j]))),
                 |items| > MaxRows))
  }

  /** A table that is not an array of rows breaks the page: a string, a
      `null` first row, or a `null` row under a header. */
  lemma NonRecordTablesThrow(s: string, rest: seq<JsValue>)
    requires s != ""
    ensures TableView(Str(s)).RenderError?
    ensures TableView(Arr([Null] + rest)).RenderError?
    ensures TableView(Arr([Obj([("a", Num(1))]), Null])).RenderError?
  {
    var good := Obj([("a", Num(1))]);
    assert SpreadProps(good) == [("a", Num(1))];
    assert KeysOf(SpreadProps(good)) == KeysOf([]) + ["a"];
    assert IsNullish(Arr([good, Null]).items[1]);
  }

  // ---------------------------------------------------------------------
  // The download link

  const DownloadBase := "/api/download/?query="

  /** The link's `href`: the encoded query, then `&file=` and the encoded
      dataset path when there is one. */
  function DownloadHref(query: string, filePath: JsValue): string {
    DownloadBase + EncodeURIComponent(query)
      + (if Truthy(filePath) then "&file=" + EncodeURIComponent(ToStr(filePath)) else "")
  }

  /** The link always starts with the encoded query, and carries a file part
      exactly when a dataset path is set. */
  lemma HrefCarriesFileIffPath(query: string, filePath: JsValue)
    ensures StartsWith(DownloadHref(query, filePath), DownloadBase + EncodeURIComponent(query))
    ensures Contains(DownloadHref(query, filePath), "&file=") <==> Truthy(filePath)
  {
    HeadHasNoAmp(query);
    LinkShape(DownloadBase + EncodeURIComponent(query), EncodeURIComponent(ToStr(filePath)), Truthy(filePath));
  }

  /** A head without `&`, then a file part or nothing. */
  lemma LinkShape(head: string, enc: string, withFile: bool)
    requires '&' !in head
    ensures var h := head + (if withFile then "&file=" + enc else "");
      StartsWith(h, head) && (Contains(h, "&file=") <==> withFile)
  {
    var h := head + (if withFile then "&file=" + enc else "");
    assert h[..|head|] == head;
    if withFile {
      assert h == head + "&file=" + enc;
      ContainsWithin(head, "&file=", enc);
    } else {
      assert h == head;
      AbsentFirstChar(head, "&file=");
    }
  }

  lemma HeadHasNoAmp(query: string)
    ensures '&' !in DownloadBase + EncodeURIComponent(query)
  {
    EncodedHasNo(EncodeURIComponent(query), '&');
    assert '&' !in DownloadBase;
  }

  /** The dataset path the link carries: `String(filePath)` when it is
      truthy, none otherwise. */
  function FileParam(filePath: JsValue): (f: Option<string>)
    ensures f.Some? <==> Truthy(filePath)
  {
    if Truthy(filePath) then Some(ToStr(filePath)) else None
  }

  /** The part of the link after `?`. */
  function HrefQuery(query: string, file: Option<string>): string {
    "query=" + EncodeURIComponent(query)
      + (if file.Some? then "&file=" + EncodeURIComponent(file.value) else "")
  }

  lemma HrefQueryPart(query: string, filePath: JsValue)
    ensures DownloadHref(query, filePath) == "/api/download/?" + HrefQuery(query, FileParam(filePath))
  {
  }

  lemma FieldNoAmp(name: string, value: string)
    requires '&' !in name
    ensures '&' !in name + EncodeURIComponent(value)
  {
    EncodedHasNo(EncodeURIComponent(value), '&');
  }

  lemma TwoFields(q: string, f: string)
    requires '&' !in q && '&' !in f
    ensures Split(q + ['&'] + f, '&') == [q, f]
  {
    SplitAtSep(q, f, '&');
    SplitWithoutSep(f, '&');
  }

  /** Splitting a query string of `name=value` fields joined by `&` gives
      back its fields when neither field name holds `&`. */
  lemma FieldsSplit(qn: string, qv: string, fn: string, file: Option<string>)
    requires '&' !in qn && '&' !in fn
    ensures var q := qn + EncodeURIComponent(qv);
      Split(q + (if file.Some? then ['&'] + fn + EncodeURIComponent(file.value) else ""), '&')
      == [q] + (if file.Some? then [fn + EncodeURIComponent(file.value)] else [])
  {
    var q := qn + EncodeURIComponent(qv);
    FieldNoAmp(qn, qv);
    if file.Some? {
      var f := fn + EncodeURIComponent(file.value);
      FieldNoAmp(fn, file.value);
      JoinedFields(q, fn, EncodeURIComponent(file.value));
    } else {
      assert q + "" == q;
      SplitWithoutSep(q, '&');
    }
  }

  lemma JoinedFields(q: string, fn: string, fv: string)
    requires '&' !in q && '&' !in fn + fv
    ensures Split(q + (['&'] + fn + fv), '&') == [q] + [fn + fv]
  {
    assert q + (['&'] + fn + fv) == q + ['&'] + (fn + fv);
    TwoFields(q, fn + fv);
  }

  /** Splitting the link's query string on `&` gives back its fields, the
      file field only for a set path, whatever the query and path contain. */
  lemma HrefFields(query: string, file: Option<string>)
    ensures Split(HrefQuery(query, file), '&')
         == ["query=" + EncodeURIComponent(query)]
            + (if file.Some? then ["file=" + EncodeURIComponent(file.value)] else [])
  {
    assert '&' !in "query=" && '&' !in "file=";
    FieldsSplit("query=", query, "file=", file);
    if file.Some? {
      assert "&file=" + EncodeURIComponent(file.value) == ['&'] + "file=" + EncodeURIComponent(file.value);
    }
  }

  // ---------------------------------------------------------------------
  // Which cards show

  predicate ShowsErrorCard(errorMsg: JsValue) {
    Truthy(errorMsg)
  }

  predicate ShowsEmptyCard(errorMsg: JsValue, result: JsValue) {
    !Truthy(errorMsg) && !Truthy(result)
  }

  predicate ShowsSummary(result: JsValue) {
    Truthy(result)
  }

  /** Between events the page shows exactly one of the error card, the
      "No results yet" card and the summary card. */
  lemma OneStatusCard(a: App.Analyzer)
    requires a.Valid()
    ensures ShowsErrorCard(a.errorMsg) || ShowsEmptyCard(a.errorMsg, a.result) || ShowsSummary(a.result)
    ensures !(ShowsErrorCard(a.errorMsg) && ShowsSummary(a.result))
    ensures !(ShowsEmptyCard(a.errorMsg, a.result) && (ShowsErrorCard(a.errorMsg) || ShowsSummary(a.result)))
  {
  }
}
