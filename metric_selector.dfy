/** The metric picker (`MetricSelector`): the current selection with its
    defaults, the checkbox toggle and the payloads the chart-type buttons
    and the aggregation select hand to `onChange`. */
module MetricSelector {
  import opened Wrappers
  import opened JsValues
  import opened Seqs

  /** The value `onChange` receives. */
  datatype Selection = Selection(selectedMetrics: seq<string>, chartType: string, aggregateBy: string)

  /** The `value` prop; an absent field is None. */
  datatype SelectorValue = SelectorValue(
    selectedMetrics: Option<seq<string>>,
    chartType: Option<string>,
    aggregateBy: Option<string>)

  const DefaultChartType := "multi-line"
  const DefaultAggregate := "year"

  /** The destructuring of `value || {}` with its defaults; `None` stands for
      a `null` or `undefined` prop. */
  function Current(value: Option<SelectorValue>): (s: Selection)
    ensures value.None? ==> s == Selection([], DefaultChartType, DefaultAggregate)
    ensures value.Some? && value.value.selectedMetrics.None? ==> s.selectedMetrics == []
    ensures value.Some? && value.value.chartType.None? ==> s.chartType == DefaultChartType
    ensures value.Some? && value.value.aggregateBy.None? ==> s.aggregateBy == DefaultAggregate
  {
    var v := value.GetOr(SelectorValue(None, None, None));
    Selection(v.selectedMetrics.GetOr([]), v.chartType.GetOr(DefaultChartType), v.aggregateBy.GetOr(DefaultAggregate))
  }

  /** The value prop a parent holding `s` passes back. */
  function AsValue(s: Selection): SelectorValue {
    SelectorValue(Some(s.selectedMetrics), Some(s.chartType), Some(s.aggregateBy))
  }

  /** A payload fed back as the value prop is read back unchanged: defaults
      only fill fields that are missing. */
  lemma CurrentOfPayload(s: Selection)
    ensures Current(Some(AsValue(s))) == s
  {
  }

  // ---------------------------------------------------------------------
  // The checkbox toggle

  /** The test `k !== key`. */
  function Other(key: string): string -> bool {
    k => k != key
  }

  /** The multiset of the survivors when every `key` is filtered out. */
  lemma {:induction false} FilterOtherMultiset(s: seq<string>, key: string)
    ensures multiset(Filter(s, Other(key))) == multiset(s)[key := 0]
  {
    if s != [] {
      var front := s[..|s| - 1];
      var x := s[|s| - 1];
      FilterOtherMultiset(front, key);
      assert s == front + [x];
      assert multiset(s) == multiset(front) + multiset{x};
    }
  }

  /** `toggleMetric`'s new list: an absent key is appended, a present one is
      removed everywhere (`filter` keeps the order of the rest). */
  function Toggle(metrics: seq<string>, key: string): (next: seq<string>)
    ensures key !in metrics ==> next == metrics + [key]
    ensures key in metrics ==> key !in next && multiset(next) == multiset(metrics)[key := 0]
    ensures forall k :: k in next <==> if k == key then key !in metrics else k in metrics
  {
    if key !in metrics then metrics + [key]
    else
      var next := Filter(metrics, Other(key));
      FilterOtherMultiset(metrics, key);
      assert forall k :: k in next <==> k in metrics && k != key by {
        forall k ensures k in next <==> k in metrics && k != key {
          FilterMembership(metrics, Other(key), k);
        }
      }
      next
  }

  /** Removal keeps the relative order: the survivors of a prefix come
      before the survivors of the rest. */
  lemma ToggleKeepsOrder(a: seq<string>, b: seq<string>, key: string)
    requires key in a + b
    ensures Toggle(a + b, key) == Filter(a, Other(key)) + Filter(b, Other(key))
  {
    FilterConcat(a, b, Other(key));
  }

  /** Toggling an absent key twice restores the list. */
  lemma ToggleTwiceAbsent(metrics: seq<string>, key: string)
    requires key !in metrics
    ensures Toggle(Toggle(metrics, key), key) == metrics
  {
    FilterConcat(metrics, [key], Other(key));
    FilterKeepsAll(metrics, Other(key));
    assert Filter([key], Other(key)) == [] by {
      assert [key][..0] == [];
    }
  }

  /** Toggling a present key twice gives its other keys back in order but
      moves the key to the end. */
  lemma ToggleTwicePresent(metrics: seq<string>, key: string)
    requires key in metrics
    ensures Toggle(Toggle(metrics, key), key) == Filter(metrics, Other(key)) + [key]
    ensures multiset(Toggle(Toggle(metrics, key), key)) == multiset(metrics)[key := 1]
  {
    var once := Toggle(metrics, key);
    assert multiset(once + [key]) == multiset(once) + multiset{key};
  }

  /** So for a list where the key is not last, a double toggle does not
      restore it. */
  lemma ToggleTwiceReorders()
    ensures Toggle(Toggle(["area", "price"], "area"), "area") == ["price", "area"]
  {
    assert "price" != "area";
    ToggleTwicePresent(["area", "price"], "area");
    assert ["area", "price"][..1] == ["area"];
    assert ["area"][..0] == [];
  }

  /** The `onChange` payload of a checkbox: only the list changes. */
  function ToggleMetric(s: Selection, key: string): (t: Selection)
    ensures t.chartType == s.chartType && t.aggregateBy == s.aggregateBy
    ensures t.selectedMetrics == Toggle(s.selectedMetrics, key)
  {
    s.(selectedMetrics := Toggle(s.selectedMetrics, key))
  }

  // ---------------------------------------------------------------------
  // Chart type and aggregation

  datatype ChartKind = MultiLine | MultiBar | Geo

  function ChartKindName(k: ChartKind): string {
    match k
    case MultiLine => "multi-line"
    case MultiBar => "multi-bar"
    case Geo => "geo"
  }

  function ParseChartKind(name: string): Option<ChartKind> {
    if name == "multi-line" then Some(MultiLine)
    else if name == "multi-bar" then Some(MultiBar)
    else if name == "geo" then Some(Geo)
    else None
  }

  /** The `onChange` payload of a chart-type button: only the chart type
      changes, to the name of a known kind. */
  function ChooseChartType(s: Selection, k: ChartKind): (t: Selection)
    ensures t.selectedMetrics == s.selectedMetrics && t.aggregateBy == s.aggregateBy
    ensures t.chartType in {"multi-line", "multi-bar", "geo"}
    ensures ParseChartKind(t.chartType) == Some(k)
  {
    s.(chartType := ChartKindName(k))
  }

  /** A button is highlighted when the current chart type is its name; at
      most one is. */
  predicate ButtonActive(s: Selection, k: ChartKind) {
    s.chartType == ChartKindName(k)
  }

  lemma OneActiveButton(s: Selection, k1: ChartKind, k2: ChartKind)
    requires ButtonActive(s, k1) && ButtonActive(s, k2)
    ensures k1 == k2
  {
    assert ParseChartKind(ChartKindName(k1)) == Some(k1);
    assert ParseChartKind(ChartKindName(k2)) == Some(k2);
  }

  /** The `onChange` payload of the aggregation select: only `aggregateBy`
      changes, to the chosen option's value. */
  function SelectAggregate(s: Selection, v: string): (t: Selection)
    ensures t.selectedMetrics == s.selectedMetrics && t.chartType == s.chartType
    ensures t.aggregateBy == v
  {
    s.(aggregateBy := v)
  }

  // ---------------------------------------------------------------------
  // The checkboxes

  /** An entry of `numericColumns`; `caption` is its `label`. */
  datatype MetricColumn = MetricColumn(key: string, caption: JsValue)

  datatype Checkbox = Checkbox(id: string, checked: bool, caption: JsValue)

  /** One checkbox per numeric column, in order, checked exactly when its key
      is selected and labelled `c.label || c.key`. */
  function Checkboxes(columns: seq<MetricColumn>, value: Option<SelectorValue>): (boxes: seq<Checkbox>)
    ensures |boxes| == |columns|
    ensures forall i :: 0 <= i < |columns| ==>
      && boxes[i].id == "m-" + columns[i].key
      && (boxes[i].checked <==> columns[i].key in Current(value).selectedMetrics)
      && (Truthy(columns[i].caption) ==> boxes[i].caption == columns[i].caption)
      && (!Truthy(columns[i].caption) ==> boxes[i].caption == Str(columns[i].key))
  {
    var sel := Current(value).selectedMetrics;
    seq(|columns|, i requires 0 <= i < |columns| =>
      Checkbox("m-" + columns[i].key, columns[i].key in sel, Or(columns[i].caption, Str(columns[i].key))))
  }

  /** The "No numeric columns detected." note. */
  predicate ShowsNoColumnsNote(columns: seq<MetricColumn>) {
    |columns| == 0
  }

  /** Clicking a checkbox flips that box and leaves every box with another
      key as it was. */
  lemma ToggleFlipsOnlyItsBox(columns: seq<MetricColumn>, s: Selection, i: nat, j: nat)
    requires i < |columns| && j < |columns|
    ensures var before := Checkboxes(columns, Some(AsValue(s)));
            var after := Checkboxes(columns, Some(AsValue(ToggleMetric(s, columns[i].key))));
            && after[i].checked == !before[i].checked
            && (columns[j].key != columns[i].key ==> after[j].checked == before[j].checked)
  {
  }
}
