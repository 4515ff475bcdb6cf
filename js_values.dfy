/** JavaScript values as the client code sees them: parsed JSON bodies,
    component props and option objects. An object is its list of property
    bindings in insertion order; a later binding of the same key overrides
    an earlier one, so object spread is concatenation. Numbers are integers. */
module JsValues {
  import opened Text

  datatype JsValue =
    | Undefined
    | Null
    | Bool(b: bool)
    | Num(n: int)
    | Str(s: string)
    | Arr(items: seq<JsValue>)
    | Obj(props: seq<(string, JsValue)>)

  /** JavaScript's ToBoolean: what `if (v)`, `!v` and `v || w` test. */
  predicate Truthy(v: JsValue) {
    match v
    case Undefined => false
    case Null => false
    case Bool(b) => b
    case Num(n) => n != 0
    case Str(s) => s != ""
    case Arr(_) => true
    case Obj(_) => true
  }

  /** `a || b`: the left operand when it is truthy, else the right one. */
  function Or(a: JsValue, b: JsValue): (r: JsValue)
    ensures Truthy(r) <==> Truthy(a) || Truthy(b)
    ensures r == a || r == b
  {
    if Truthy(a) then a else b
  }

  predicate IsNullish(v: JsValue) {
    v == Undefined || v == Null
  }

  /** `a ?? b`: the left operand unless it is `null` or `undefined`. Unlike
      `||` it keeps a falsy left operand such as `0`, `""` or `false`. */
  function Coalesce(a: JsValue, b: JsValue): (r: JsValue)
    ensures r == a || r == b
    ensures IsNullish(r) <==> IsNullish(a) && IsNullish(b)
    ensures Truthy(a) ==> r == Or(a, b)
    ensures !IsNullish(a) && !Truthy(a) ==> r == a && Or(a, b) == b
  {
    if IsNullish(a) then b else a
  }

  // ---------------------------------------------------------------------
  // Objects

  predicate HasKey(props: seq<(string, JsValue)>, key: string) {
    exists i :: 0 <= i < |props| && props[i].0 == key
  }

  /** The value bound to `key`: its last binding, `undefined` when unbound. */
  function Lookup(props: seq<(string, JsValue)>, key: string): (r: JsValue)
    ensures !HasKey(props, key) ==> r == Undefined
  {
    if props == [] then Undefined
    else if props[|props| - 1].0 == key then props[|props| - 1].1
    else Lookup(props[..|props| - 1], key)
  }

  /** The binding read is the last one for the key. */
  lemma {:induction false} LookupLast(props: seq<(string, JsValue)>, i: nat, key: string)
    requires i < |props| && props[i].0 == key
    requires forall j :: i < j < |props| ==> props[j].0 != key
    ensures Lookup(props, key) == props[i].1
    decreases |props|
  {
    if i < |props| - 1 {
      LookupLast(props[..|props| - 1], i, key);
    }
  }

  /** Property read `v.key`; only plain objects carry named properties here. */
  function Get(v: JsValue, key: string): JsValue {
    if v.Obj? then Lookup(v.props, key) else Undefined
  }

  /** The keys of a binding list in first-occurrence order (`Object.keys`). */
  function KeysOf(props: seq<(string, JsValue)>): (ks: seq<string>)
  {
    if props == [] then []
    else
      var front := KeysOf(props[..|props| - 1]);
      var k := props[|props| - 1].0;
      if k in front then front else front + [k]
  }

  function Keys(v: JsValue): seq<string> {
    if v.Obj? then KeysOf(v.props) else []
  }

  predicate Distinct<T(==)>(s: seq<T>) {
    forall i, j :: 0 <= i < j < |s| ==> s[i] != s[j]
  }

  /** `Object.keys` lists every bound key exactly once. */
  lemma {:induction false} KeysOfExact(props: seq<(string, JsValue)>)
    ensures Distinct(KeysOf(props))
    ensures forall k :: k in KeysOf(props) <==> HasKey(props, k)
  {
    if props != [] {
      var front := props[..|props| - 1];
      KeysOfExact(front);
      forall k ensures HasKey(props, k) <==> HasKey(front, k) || k == props[|props| - 1].0 {
        if HasKey(props, k) {
          var i :| 0 <= i < |props| && props[i].0 == k;
          if i < |props| - 1 { assert front[i].0 == k; }
        }
        if HasKey(front, k) {
          var i :| 0 <= i < |front| && front[i].0 == k;
          assert props[i].0 == k;
        }
      }
    }
  }

  lemma KeysDistinct(v: JsValue)
    ensures Distinct(Keys(v))
  {
    if v.Obj? { KeysOfExact(v.props); }
  }

  /** Reading a property of a concatenation: the right part wins where it binds the key. */
  lemma {:induction false} LookupAppend(a: seq<(string, JsValue)>, b: seq<(string, JsValue)>, key: string)
    ensures Lookup(a + b, key) == if HasKey(b, key) then Lookup(b, key) else Lookup(a, key)
    decreases |b|
  {
    if b == [] {
      assert a + b == a;
    } else {
      var b' := b[..|b| - 1];
      assert (a + b)[..|a + b| - 1] == a + b';
      if b[|b| - 1].0 != key {
        LookupAppend(a, b', key);
        if HasKey(b, key) {
          var i :| 0 <= i < |b| && b[i].0 == key;
          assert b'[i].0 == key;
        }
        if HasKey(b', key) {
          var i :| 0 <= i < |b'| && b'[i].0 == key;
          assert b[i].0 == key;
        }
      } else {
        assert HasKey(b, key) by { assert b[|b| - 1].0 == key; }
      }
    }
  }

  /** `{...a, ...b}`. */
  function Spread(a: seq<(string, JsValue)>, b: seq<(string, JsValue)>): seq<(string, JsValue)> {
    a + b
  }

  /** Object spread semantics: a key bound on the right overrides, every other
      key keeps its value from the left. */
  lemma SpreadGet(a: seq<(string, JsValue)>, b: seq<(string, JsValue)>, key: string)
    ensures Get(Obj(Spread(a, b)), key) == if HasKey(b, key) then Get(Obj(b), key) else Get(Obj(a), key)
  {
    LookupAppend(a, b, key);
  }

  /** The own enumerable properties `{...v}` copies: an object's bindings,
      the indexed elements of an array or the characters of a string, and
      nothing for the other primitives. */
  function SpreadProps(v: JsValue): seq<(string, JsValue)> {
    match v
    case Obj(props) => props
    case Arr(items) => seq(|items|, i requires 0 <= i < |items| => (IntToString(i), items[i]))
    case Str(s) => seq(|s|, i requires 0 <= i < |s| => (IntToString(i), Str([s[i]])))
    case _ => []
  }

  /** `v.length` on a value that is neither `null` nor `undefined`. */
  function LengthOf(v: JsValue): JsValue {
    match v
    case Arr(items) => Num(|items|)
    case Str(s) => Num(|s|)
    case Obj(props) => Lookup(props, "length")
    case _ => Undefined
  }

  // ---------------------------------------------------------------------
  // Parsed JSON

  /** A value `JSON.parse` can produce: no `undefined` anywhere and objects
      with distinct keys. */
  predicate IsJson(v: JsValue) {
    match v
    case Undefined => false
    case Null => true
    case Bool(_) => true
    case Num(_) => true
    case Str(_) => true
    case Arr(items) => forall i :: 0 <= i < |items| ==> IsJson(items[i])
    case Obj(props) =>
      (forall i, j :: 0 <= i < j < |props| ==> props[i].0 != props[j].0)
      && forall i :: 0 <= i < |props| ==> IsJson(props[i].1)
  }

  type Json = v: JsValue | IsJson(v) witness Null

  // ---------------------------------------------------------------------
  // Conversions to text

  /** `String(v)`: arrays join their elements with commas, rendering `null`
      and `undefined` elements as empty. */
  function ToStr(v: JsValue): string {
    match v
    case Undefined => "undefined"
    case Null => "null"
    case Bool(b) => if b then "true" else "false"
    case Num(n) => IntToString(n)
    case Str(s) => s
    case Arr(items) =>
      Join(seq(|items|, i requires 0 <= i < |items| =>
             if IsNullish(items[i]) then "" else ToStr(items[i])), ',')
    case Obj(_) => "[object Object]"
  }

  function HexDigit(d: nat): char
    requires d < 16
  {
    "0123456789abcdef"[d]
  }

  /** One character inside a JSON string literal, as `JSON.stringify` writes it. */
  function EscapeChar(c: char): string {
    if c == '"' then "\\\""
    else if c == '\\' then "\\\\"
    else if c as int == 8 then "\\b"
    else if c == '\t' then "\\t"
    else if c == '\n' then "\\n"
    else if c as int == 12 then "\\f"
    else if c == '\r' then "\\r"
    else if (c as int) < 0x20 then "\\u00" + [HexDigit(c as int / 16), HexDigit(c as int % 16)]
    else [c]
  }

  function Escape(s: string): string {
    if s == [] then "" else EscapeChar(s[0]) + Escape(s[1..])
  }

  function Quote(s: string): (r: string)
    ensures |r| >= 2 && r[0] == '"'
  {
    "\"" + Escape(s) + "\""
  }

  /** `JSON.stringify(v)` on a parsed JSON value. Its first character tells the
      kind of value it encodes. */
  function Stringify(v: JsValue): (r: string)
    requires IsJson(v)
    ensures |r| > 0
    ensures v.Obj? <==> r[0] == '{'
    ensures v.Arr? <==> r[0] == '['
    ensures v.Str? <==> r[0] == '"'
  {
    match v
    case Null => "null"
    case Bool(b) => if b then "true" else "false"
    case Num(n) => NumText(n)
    case Str(s) => Quote(s)
    case Arr(items) =>
      "[" + Join(seq(|items|, i requires 0 <= i < |items| => Stringify(items[i])), ',') + "]"
    case Obj(props) =>
      "{" + Join(seq(|props|, i requires 0 <= i < |props| =>
                   Quote(props[i].0) + ":" + Stringify(props[i].1)), ',') + "}"
  }

  /** The decimal form of a number starts with a digit or a minus sign. */
  function NumText(n: int): (r: string)
    ensures |r| > 0 && (IsDigit(r[0]) || r[0] == '-')
  {
    IntToString(n)
  }
}
