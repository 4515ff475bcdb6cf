/** The grouped bar chart (`MultiBarChart`): one dataset per series and
    fixed, unstacked scales. */
module MultiBarChart {
  import opened Wrappers
  import opened JsValues
  import opened Charts

  /** A dataset; `caption` is its `label`. */
  datatype BarDataset = BarDataset(caption: JsValue, data: JsValue, backgroundColor: JsValue, borderWidth: int)

  datatype BarData = BarData(labels: JsValue, datasets: seq<BarDataset>)

  function SeriesDataset(s: JsValue): BarDataset {
    BarDataset(Get(s, "label"), Or(Get(s, "data"), Arr([])), Get(s, "backgroundColor"), 1)
  }

  /** The `data` prop; `series` is None when it is `null` or `undefined`.
      A `null` or `undefined` series makes `s.label` throw. */
  function Build(labels: JsValue, series: Option<seq<JsValue>>): (r: Render<BarData>)
    ensures r.Throws? <==> series.Some? && SomeNullish(series.value)
    ensures r.Drawn? ==> r.value.labels == Or(labels, Arr([])) && Truthy(r.value.labels)
    ensures r.Drawn? && series.None? ==> r.value.datasets == []
    ensures r.Drawn? && series.Some? ==> |r.value.datasets| == |series.value|
    ensures r.Drawn? && series.Some? ==> forall i :: 0 <= i < |series.value| ==>
      var s := series.value[i];
      var d := r.value;
      && d.datasets[i].caption == Get(s, "label")
      && d.datasets[i].backgroundColor == Get(s, "backgroundColor")
      && d.datasets[i].borderWidth == 1
      && (Truthy(Get(s, "data")) ==> d.datasets[i].data == Get(s, "data"))
      && (!Truthy(Get(s, "data")) ==> d.datasets[i].data == Arr([]))
  {
    var items := series.GetOr([]);
    if SomeNullish(items) then Throws
    else Drawn(BarData(Or(labels, Arr([])), seq(|items|, i requires 0 <= i < |items| => SeriesDataset(items[i]))))
  }

  /** One bar scale. */
  datatype BarScale = BarScale(stacked: bool, beginAtZero: bool)

  datatype BarOptions = BarOptions(
    responsive: bool,
    maintainAspectRatio: bool,
    legendPosition: string,
    titleDisplay: bool,
    x: BarScale,
    y: BarScale)

  /** The constant options: nothing is stacked, the value axis starts at
      zero and no chart title is drawn. */
  function Options(): BarOptions {
    BarOptions(true, false, "top", false, BarScale(false, false), BarScale(false, true))
  }

  /** Series are drawn side by side in the order given. */
  lemma SeriesOrderKept(labels: JsValue, a: seq<JsValue>, b: seq<JsValue>)
    ensures Build(labels, Some(a + b)).Throws? <==> Build(labels, Some(a)).Throws? || Build(labels, Some(b)).Throws?
    ensures Build(labels, Some(a + b)).Drawn? ==>
      Build(labels, Some(a + b)).value.datasets
        == Build(labels, Some(a)).value.datasets + Build(labels, Some(b)).value.datasets
  {
    SomeNullishConcat(a, b);
  }
}
