/** What the chart components share: the axes a dataset can be drawn
    against, and a render that may end in a `TypeError`. */
module Charts {
  import opened Wrappers
  import opened JsValues

  /** One scale: its id, its side, whether it is shown, whether its grid
      lines are drawn across the chart area and its title, if any. */
  datatype Axis = Axis(id: string, position: string, display: bool, gridOnChartArea: bool, title: Option<string>)

  predicate Declares(axes: seq<Axis>, id: string) {
    exists i :: 0 <= i < |axes| && axes[i].id == id
  }

  /** What a component renders: its chart props, or the `TypeError` a
      property read on `null` or `undefined` throws. */
  datatype Render<T> = Drawn(value: T) | Throws

  /** Some element of a mapped prop is `null` or `undefined`, so reading
      one of its properties inside `.map` throws. */
  predicate SomeNullish(items: seq<JsValue>) {
    exists i :: 0 <= i < |items| && IsNullish(items[i])
  }

  /** A concatenation has a nullish element exactly when one of its parts
      has. */
  lemma SomeNullishConcat(a: seq<JsValue>, b: seq<JsValue>)
    ensures SomeNullish(a + b) <==> SomeNullish(a) || SomeNullish(b)
  {
    if SomeNullish(a + b) {
      var i :| 0 <= i < |a + b| && IsNullish((a + b)[i]);
      if i < |a| { assert (a + b)[i] == a[i]; } else { assert (a + b)[i] == b[i - |a|]; }
    }
    if SomeNullish(a) {
      var i :| 0 <= i < |a| && IsNullish(a[i]);
      assert (a + b)[i] == a[i];
    }
    if SomeNullish(b) {
      var i :| 0 <= i < |b| && IsNullish(b[i]);
      assert (a + b)[|a| + i] == b[i];
    }
  }
}
