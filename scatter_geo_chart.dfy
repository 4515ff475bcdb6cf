/** The map-like scatter chart (`ScatterGeoChart`): one dataset of points at
    longitude/latitude with a radius and a colour each, and the tooltip text
    of a point. */
module ScatterGeoChart {
  import opened Wrappers
  import opened JsValues
  import opened Charts

  const DefaultTitle := "Geo scatter"
  const DefaultRadius := 6
  const DefaultColor := "rgba(255,99,132,0.6)"

  datatype ScatterPoint = ScatterPoint(x: JsValue, y: JsValue, r: JsValue)

  /** `caption` is the dataset `label`, the chart's title. */
  datatype ScatterDataset = ScatterDataset(caption: JsValue, data: seq<ScatterPoint>, backgroundColor: seq<JsValue>)

  function PointOf(p: JsValue): ScatterPoint {
    ScatterPoint(Get(p, "x"), Get(p, "y"), Or(Get(p, "r"), Num(DefaultRadius)))
  }

  function ColorOf(p: JsValue): JsValue {
    Or(Get(p, "color"), Str(DefaultColor))
  }

  /** The `datasets` of the chart; `points` is None when it is `null` or
      `undefined`, and `title` defaults only when it is `undefined`. A
      `null` or `undefined` point makes `p.x` throw. */
  function Datasets(points: Option<seq<JsValue>>, title: JsValue): (r: Render<seq<ScatterDataset>>)
    ensures r.Throws? <==> points.Some? && SomeNullish(points.value)
    ensures r.Drawn? ==> |r.value| == 1
    ensures r.Drawn? && title == Undefined ==> r.value[0].caption == Str(DefaultTitle)
    ensures r.Drawn? && title != Undefined ==> r.value[0].caption == title
    ensures r.Drawn? ==> var ds := r.value; var ps := points.GetOr([]);
      && |ds[0].data| == |ps| && |ds[0].backgroundColor| == |ps|
      && forall i :: 0 <= i < |ps| ==>
           && ds[0].data[i].x == Get(ps[i], "x") && ds[0].data[i].y == Get(ps[i], "y")
           && Truthy(ds[0].data[i].r) && Truthy(ds[0].backgroundColor[i])
           && (Truthy(Get(ps[i], "r")) ==> ds[0].data[i].r == Get(ps[i], "r"))
           && (!Truthy(Get(ps[i], "r")) ==> ds[0].data[i].r == Num(DefaultRadius))
           && (Truthy(Get(ps[i], "color")) ==> ds[0].backgroundColor[i] == Get(ps[i], "color"))
           && (!Truthy(Get(ps[i], "color")) ==> ds[0].backgroundColor[i] == Str(DefaultColor))
  {
    var ps := points.GetOr([]);
    if SomeNullish(ps) then Throws
    else
      Drawn([ScatterDataset(
        if title == Undefined then Str(DefaultTitle) else title,
        seq(|ps|, i requires 0 <= i < |ps| => PointOf(ps[i])),
        seq(|ps|, i requires 0 <= i < |ps| => ColorOf(ps[i])))])
  }

  /** A zero radius is replaced by the default, like a missing one. */
  lemma ZeroRadiusBecomesDefault()
    ensures var r := Datasets(Some([Obj([("x", Num(73)), ("y", Num(18)), ("r", Num(0))])]), Undefined);
      r.Drawn? && r.value[0].data[0].r == Num(DefaultRadius)
  {
    var p := Obj([("x", Num(73)), ("y", Num(18)), ("r", Num(0))]);
    assert !IsNullish([p][0]);
  }

  /** The tooltip label of point `i`: "label (y, x) : value", with `""` for
      a falsy label and for a `null`/`undefined` value; an index without a
      point reads from `{}`. The `points` prop is used as given here. */
  function Tooltip(points: seq<JsValue>, i: int): (t: string)
  {
    var p := Or(if 0 <= i < |points| then points[i] else Undefined, Obj([]));
    ToStr(Or(Get(p, "label"), Str(""))) + " (" + ToStr(Get(p, "y")) + ", " + ToStr(Get(p, "x")) + ") : "
      + ToStr(Coalesce(Get(p, "value"), Str("")))
  }

  /** The tooltip leads with the point's label, names latitude before
      longitude and ends with its value. */
  lemma TooltipShape(points: seq<JsValue>, i: nat, name: string, value: string)
    requires i < |points| && Get(points[i], "label") == Str(name) && Get(points[i], "value") == Str(value)
    requires Truthy(points[i])
    ensures Tooltip(points, i)
         == name + " (" + ToStr(Get(points[i], "y")) + ", " + ToStr(Get(points[i], "x")) + ") : " + value
  {
  }

  /** A point without label, coordinates or value, and an index past the
      last point, both read as `{}`. */
  lemma TooltipOfNothing(points: seq<JsValue>, i: int)
    requires !(0 <= i < |points|) || points[i] == Null
    ensures Tooltip(points, i) == " (undefined, undefined) : "
  {
  }
}
