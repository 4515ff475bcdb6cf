/** The generic multi-series line chart (`MultiSeriesLine`): one dataset per
    series, and computed options that every top-level key of the caller's
    `options` overrides. */
module MultiSeriesLine {
  import opened Wrappers
  import opened JsValues
  import opened Charts
  import opened Http

  /** A dataset; `caption` is its `label`. The `tension` fraction is not
      modelled. */
  datatype LineDataset = LineDataset(
    caption: JsValue,
    data: JsValue,
    borderWidth: int,
    fill: bool,
    borderColor: JsValue,
    backgroundColor: JsValue,
    yAxisID: JsValue,
    pointRadius: int)

  datatype LineData = LineData(labels: JsValue, datasets: seq<LineDataset>)

  function SeriesDataset(s: JsValue): LineDataset {
    LineDataset(Get(s, "label"), Or(Get(s, "data"), Arr([])), 2, false,
                Get(s, "borderColor"), Get(s, "backgroundColor"), Or(Get(s, "yAxisID"), Str("y")), 3)
  }

  /** The `data` prop; `series` is None when it is `null` or `undefined`.
      A `null` or `undefined` series makes `s.label` throw. */
  function Build(labels: JsValue, series: Option<seq<JsValue>>): (r: Render<LineData>)
    ensures r.Throws? <==> series.Some? && SomeNullish(series.value)
    ensures r.Drawn? ==> r.value.labels == Or(labels, Arr([])) && Truthy(r.value.labels)
    ensures r.Drawn? && series.None? ==> r.value.datasets == []
    ensures r.Drawn? && series.Some? ==> |r.value.datasets| == |series.value|
    ensures r.Drawn? && series.Some? ==> forall i :: 0 <= i < |series.value| ==>
      var s := series.value[i];
      var d := r.value;
      && d.datasets[i].caption == Get(s, "label")
      && (Truthy(Get(s, "data")) ==> d.datasets[i].data == Get(s, "data"))
      && (!Truthy(Get(s, "data")) ==> d.datasets[i].data == Arr([]))
      && (Truthy(Get(s, "yAxisID")) ==> d.datasets[i].yAxisID == Get(s, "yAxisID"))
      && (!Truthy(Get(s, "yAxisID")) ==> d.datasets[i].yAxisID == Str("y"))
      && d.datasets[i].borderColor == Get(s, "borderColor")
      && d.datasets[i].backgroundColor == Get(s, "backgroundColor")
  {
    var items := series.GetOr([]);
    if SomeNullish(items) then Throws
    else Drawn(LineData(Or(labels, Arr([])), seq(|items|, i requires 0 <= i < |items| => SeriesDataset(items[i]))))
  }

  /** The title plugin: shown exactly for a truthy `options.title`. */
  function TitlePlugin(options: JsValue): JsValue {
    var title := Get(options, "title");
    Obj([("display", Bool(Truthy(title))), ("text", Or(title, Str("")))])
  }

  function IndexMode(): JsValue {
    Obj([("mode", Str("index")), ("intersect", Bool(false))])
  }

  function Plugins(options: JsValue): JsValue {
    Obj([("legend", Obj([("position", Str("top"))])), ("tooltip", IndexMode()), ("title", TitlePlugin(options))])
  }

  function XScale(options: JsValue): JsValue {
    Obj([("title", Obj([("display", Bool(true)), ("text", Or(Get(options, "xLabel"), Str("Period")))]))])
  }

  function YScale(options: JsValue): JsValue {
    var yLabel := Get(options, "yLabel");
    Obj([("type", Str("linear")), ("display", Bool(true)), ("position", Str("left")),
         ("title", Obj([("display", Bool(Truthy(yLabel))), ("text", yLabel)]))])
  }

  function Y1Scale(options: JsValue): JsValue {
    var y1Label := Get(options, "y1Label");
    Obj([("type", Str("linear")), ("display", Bool(Truthy(Get(options, "includeRightAxis")))),
         ("position", Str("right")), ("grid", Obj([("drawOnChartArea", Bool(false))])),
         ("title", Obj([("display", Bool(Truthy(y1Label))), ("text", y1Label)]))])
  }

  function Scales(options: JsValue): JsValue {
    Obj([("x", XScale(options)), ("y", YScale(options)), ("y1", Y1Scale(options))])
  }

  /** The options Chart.js receives before the caller's are spread over them. */
  function Computed(options: JsValue): seq<(string, JsValue)> {
    [ ("responsive", Bool(true)),
      ("maintainAspectRatio", Bool(false)),
      ("interaction", IndexMode()),
      ("stacked", Bool(false)),
      ("plugins", Plugins(options)),
      ("scales", Scales(options)) ]
  }

  /** `opts`: the computed options followed by `...options`. An absent
      `options` prop is `{}`; a `null` one throws on `options.title`. */
  function Options(options: JsValue): (r: Result<JsValue, JsError>)
    ensures options == Null <==> r.Err?
    ensures r.Ok? ==> r.value.Obj?
  {
    if options == Null then Err(NullPropertyError("title"))
    else
      var o := if options == Undefined then Obj([]) else options;
      Ok(Obj(Spread(Computed(o), SpreadProps(o))))
  }

  /** Any top-level key the caller gives wins over the computed value; any
      other key keeps the computed one. */
  lemma CallerKeysOverride(options: JsValue, key: string)
    requires options != Null && options != Undefined
    ensures HasKey(SpreadProps(options), key) ==>
      Get(Options(options).value, key) == Lookup(SpreadProps(options), key)
    ensures !HasKey(SpreadProps(options), key) ==>
      Get(Options(options).value, key) == Lookup(Computed(options), key)
  {
    SpreadGet(Computed(options), SpreadProps(options), key);
  }

  /** `plugins`, `scales` and `x`/`y1` read from the computed options. */
  lemma ComputedReads(options: JsValue)
    ensures var c := Computed(options);
      && Get(Get(Get(Obj(c), "plugins"), "title"), "display") == Bool(Truthy(Get(options, "title")))
      && Get(Get(Get(Get(Obj(c), "scales"), "x"), "title"), "text") == Or(Get(options, "xLabel"), Str("Period"))
      && Get(Get(Get(Obj(c), "scales"), "y1"), "display") == Bool(Truthy(Get(options, "includeRightAxis")))
  {
    var c := Computed(options);
    LookupLast(c, 4, "plugins");
    LookupLast(c, 5, "scales");
    TitleRead(options);
    XTitleRead(options);
    Y1Read(options);
  }

  lemma TitleRead(options: JsValue)
    ensures Get(Get(Plugins(options), "title"), "display") == Bool(Truthy(Get(options, "title")))
  {
    LookupLast(Plugins(options).props, 2, "title");
    LookupLast(TitlePlugin(options).props, 0, "display");
  }

  lemma XTitleRead(options: JsValue)
    ensures Get(Get(Get(Scales(options), "x"), "title"), "text") == Or(Get(options, "xLabel"), Str("Period"))
  {
    LookupLast(Scales(options).props, 0, "x");
    LookupLast(XScale(options).props, 0, "title");
    LookupLast(XScale(options).props[0].1.props, 1, "text");
  }

  lemma Y1Read(options: JsValue)
    ensures Get(Get(Scales(options), "y1"), "display") == Bool(Truthy(Get(options, "includeRightAxis")))
  {
    LookupLast(Scales(options).props, 2, "y1");
    LookupLast(Y1Scale(options).props, 1, "display");
  }

  /** Unless the caller replaces `plugins`, the chart title is displayed
      exactly when `options.title` is truthy. */
  lemma TitleShownIffGiven(options: JsValue)
    requires options != Null && !HasKey(SpreadProps(options), "plugins")
    ensures var o := if options == Undefined then Obj([]) else options;
      Get(Get(Get(Options(options).value, "plugins"), "title"), "display") == Bool(Truthy(Get(o, "title")))
  {
    var o := if options == Undefined then Obj([]) else options;
    if options == Undefined {
      assert SpreadProps(o) == [];
    }
    CallerKeysOverride(o, "plugins");
    ComputedReads(o);
  }

  /** Unless the caller replaces `scales`, the x axis is titled
      `options.xLabel || "Period"` and the right axis is displayed exactly
      when `options.includeRightAxis` is truthy. */
  lemma ScalesFollowOptions(options: JsValue)
    requires options != Null && !HasKey(SpreadProps(options), "scales")
    ensures var o := if options == Undefined then Obj([]) else options;
      var scales := Get(Options(options).value, "scales");
      && Get(Get(Get(scales, "x"), "title"), "text") == Or(Get(o, "xLabel"), Str("Period"))
      && Get(Get(scales, "y1"), "display") == Bool(Truthy(Get(o, "includeRightAxis")))
  {
    var o := if options == Undefined then Obj([]) else options;
    if options == Undefined {
      assert SpreadProps(o) == [];
    }
    CallerKeysOverride(o, "scales");
    ComputedReads(o);
  }

  /** Without options the x axis is titled "Period", the title and the right
      axis are hidden. */
  lemma DefaultOptions()
    ensures var opts := Options(Undefined).value;
      && Get(Get(Get(Get(opts, "scales"), "x"), "title"), "text") == Str("Period")
      && Get(Get(Get(opts, "plugins"), "title"), "display") == Bool(false)
      && Get(Get(Get(opts, "scales"), "y1"), "display") == Bool(false)
  {
    TitleShownIffGiven(Undefined);
    ScalesFollowOptions(Undefined);
  }
}
