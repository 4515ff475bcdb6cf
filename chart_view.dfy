/** The price/demand line chart of the results card (`ChartView`): two
    datasets on two vertical axes, the arrays passed through as given. */
module ChartView {
  import opened Wrappers
  import opened JsValues
  import opened Charts

  /** A dataset; `caption` is its legend `label`. The dataset `tension` is a
      fraction and is not modelled. */
  datatype ViewDataset = ViewDataset(
    caption: string,
    data: JsValue,
    yAxisID: string,
    borderColor: string,
    backgroundColor: string,
    pointRadius: int,
    pointHoverRadius: int)

  datatype ViewData = ViewData(labels: JsValue, datasets: seq<ViewDataset>)

  /** A destructuring default `= []`: it applies to `undefined` only. */
  function OrEmpty(v: JsValue): (r: JsValue)
    ensures v != Undefined ==> r == v
    ensures r != Undefined
  {
    if v == Undefined then Arr([]) else v
  }

  /** The `data` object: "Price" on the left axis, then "Demand" on the right
      one. */
  function Build(labels: JsValue, price: JsValue, demand: JsValue): (d: ViewData)
    ensures |d.datasets| == 2
    ensures d.datasets[0].caption == "Price" && d.datasets[0].yAxisID == "y"
    ensures d.datasets[1].caption == "Demand" && d.datasets[1].yAxisID == "y1"
    ensures d.labels == OrEmpty(labels)
    ensures d.datasets[0].data == OrEmpty(price) && d.datasets[1].data == OrEmpty(demand)
  {
    ViewData(OrEmpty(labels), [
      ViewDataset("Price", OrEmpty(price), "y", "rgb(45,106,79)", "rgba(45,106,79,0.12)", 4, 6),
      ViewDataset("Demand", OrEmpty(demand), "y1", "rgb(127,85,57)", "rgba(127,85,57,0.08)", 4, 6)
    ])
  }

  /** The fixed vertical scales: a linear left axis and a linear right axis
      whose grid stays off the chart area. */
  function Axes(): seq<Axis> {
    [Axis("y", "left", true, true, None), Axis("y1", "right", true, false, None)]
  }

  /** The two datasets sit on two different, declared and displayed axes,
      price on the left and demand on the right, and no two axes share an
      id. */
  lemma DatasetsOnOwnAxes(labels: JsValue, price: JsValue, demand: JsValue)
    ensures forall i, j :: 0 <= i < j < |Axes()| ==> Axes()[i].id != Axes()[j].id
    ensures var d := Build(labels, price, demand);
      && Declares(Axes(), d.datasets[0].yAxisID) && Declares(Axes(), d.datasets[1].yAxisID)
      && d.datasets[0].yAxisID != d.datasets[1].yAxisID
      && Axes()[0].position == "left" && Axes()[1].position == "right"
      && Axes()[0].display && Axes()[1].display
  {
    var d := Build(labels, price, demand);
    assert Axes()[0].id == d.datasets[0].yAxisID;
    assert Axes()[1].id == d.datasets[1].yAxisID;
  }

  /** Nothing pads or checks lengths: arrays of different lengths, and even
      `null`, reach the chart as they are. */
  lemma NoLengthCheck()
    ensures var d := Build(Arr([Str("2020")]), Arr([Num(1), Num(2)]), Null);
      d.labels == Arr([Str("2020")]) && d.datasets[0].data == Arr([Num(1), Num(2)])
      && d.datasets[1].data == Null
  {
  }
}
