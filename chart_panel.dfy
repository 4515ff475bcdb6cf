/** The chart card (`ChartPanel`): a guard for missing chart data, then an
    "Average Price" and a "Demand" dataset over the year labels. */
module ChartPanel {
  import opened Wrappers
  import opened JsValues
  import opened Charts

  /** A dataset; the `tension` fraction is not modelled. */
  datatype PanelDataset = PanelDataset(caption: string, data: JsValue, fill: bool, yAxisID: string, pointRadius: int)

  datatype PanelView =
    | NoChartData
    | PanelChart(labels: JsValue, datasets: seq<PanelDataset>)

  /** `!chart || !chart.labels || chart.labels.length === 0`. */
  predicate NoData(chart: JsValue) {
    !Truthy(chart) || !Truthy(Get(chart, "labels")) || LengthOf(Get(chart, "labels")) == Num(0)
  }

  function Render(chart: JsValue): (p: PanelView)
    ensures p.NoChartData? <==> NoData(chart)
    ensures p.PanelChart? ==>
      && p.labels == Get(chart, "labels")
      && |p.datasets| == 2
      && p.datasets[0].caption == "Average Price" && p.datasets[0].yAxisID == "y"
      && p.datasets[1].caption == "Demand" && p.datasets[1].yAxisID == "y1"
      && p.datasets[0].data == Or(Get(chart, "price"), Arr([]))
      && p.datasets[1].data == Or(Get(chart, "demand"), Arr([]))
  {
    if NoData(chart) then NoChartData
    else
      PanelChart(Get(chart, "labels"), [
        PanelDataset("Average Price", Or(Get(chart, "price"), Arr([])), false, "y", 3),
        PanelDataset("Demand", Or(Get(chart, "demand"), Arr([])), false, "y1", 3)
      ])
  }

  /** The scales: years along x, average price on the left, demand on the
      right without grid lines across the chart. */
  function Axes(): seq<Axis> {
    [ Axis("x", "bottom", true, true, Some("Year")),
      Axis("y", "left", true, true, Some("Average Price")),
      Axis("y1", "right", true, false, Some("Demand")) ]
  }

  /** The axes are distinct, and each dataset is drawn against a declared
      axis titled with its own name. */
  lemma DatasetsOnTitledAxes(chart: JsValue)
    requires Render(chart).PanelChart?
    ensures forall i, j :: 0 <= i < j < |Axes()| ==> Axes()[i].id != Axes()[j].id
    ensures forall k :: 0 <= k < 2 ==>
      exists i :: 0 <= i < |Axes()| && Axes()[i].id == Render(chart).datasets[k].yAxisID
        && Axes()[i].title == Some(Render(chart).datasets[k].caption)
  {
    var p := Render(chart);
    assert Axes()[1].id == p.datasets[0].yAxisID && Axes()[1].title == Some(p.datasets[0].caption);
    assert Axes()[2].id == p.datasets[1].yAxisID && Axes()[2].title == Some(p.datasets[1].caption);
  }

  /** An object without chart labels, empty labels and non-empty labels. */
  lemma GuardCases()
    ensures Render(Obj([("price", Arr([Num(1)]))])) == NoChartData
    ensures Render(Obj([("labels", Arr([]))])) == NoChartData
    ensures Render(Obj([("labels", Arr([Str("2021")]))])).PanelChart?
  {
  }

  /** Labels and series of different lengths are drawn as they are. */
  lemma MismatchedLengthsPassThrough()
    ensures var p := Render(Obj([("labels", Arr([Str("2020"), Str("2021")])), ("price", Arr([Num(5)]))]));
      p.PanelChart? && p.datasets[0].data == Arr([Num(5)]) && p.datasets[1].data == Arr([])
  {
  }
}
