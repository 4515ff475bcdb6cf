/** The part of a pandas `DataFrame` the server logic relies on: named,
    typed columns and rows mapping column names to cells. A cell keeps the
    text `astype(str)` gives it, so a missing value still has a rendering
    ("nan", "None", "<NA>" or "NaT") that substring tests see. */
module Frames {
  import opened Text

  datatype Cell = NA(text: string) | Val(text: string)

  /** The dtypes the logic distinguishes: `object` (strings), numbers and
      `datetime64`. */
  datatype Kind = ObjectKind | NumberKind | DatetimeKind

  datatype Column = Column(name: string, kind: Kind)

  type Row = map<string, Cell>

  datatype Frame = Frame(columns: seq<Column>, rows: seq<Row>)

  /** A row's cell in a column; a row without one holds a missing value. */
  function CellAt(row: Row, name: string): Cell {
    if name in row then row[name] else NA("nan")
  }

  /** `list(df.columns)`. */
  function Names(cols: seq<Column>): (ns: seq<string>)
    ensures |ns| == |cols|
    ensures forall i :: 0 <= i < |cols| ==> ns[i] == cols[i].name
  {
    if cols == [] then [] else Names(cols[..|cols| - 1]) + [cols[|cols| - 1].name]
  }

  lemma {:induction false} NamesConcat(a: seq<Column>, b: seq<Column>)
    ensures Names(a + b) == Names(a) + Names(b)
  {
    assert |Names(a + b)| == |Names(a) + Names(b)|;
    forall i | 0 <= i < |a + b| ensures Names(a + b)[i] == (Names(a) + Names(b))[i] {
      if i < |a| { assert (a + b)[i] == a[i]; } else { assert (a + b)[i] == b[i - |a|]; }
    }
  }

  /** `df.head(n)`: the first `n` rows, or for a negative `n` all rows but
      the last `-n`. */
  function Head<T>(s: seq<T>, n: int): (r: seq<T>)
    ensures |r| <= |s| && r == s[..|r|]
    ensures n >= 0 ==> |r| == if |s| <= n then |s| else n
    ensures n < 0 ==> |r| == if |s| + n <= 0 then 0 else |s| + n
  {
    if n >= 0 then Take(s, n)
    else if |s| + n <= 0 then []
    else s[..|s| + n]
  }

  /** Taking the first `n` rows again changes nothing. */
  lemma HeadIdempotent<T>(s: seq<T>, n: int)
    requires n >= 0
    ensures Head(Head(s, n), n) == Head(s, n)
  {
  }

  /** A negative count counts twice: the second `head(-k)` drops another `k`
      rows. */
  lemma HeadNegativeTwice<T>(s: seq<T>, n: int)
    requires n < 0
    ensures Head(Head(s, n), n) == Head(s, 2 * n)
  {
  }

  /** `df.empty`: no rows or no columns. */
  predicate IsEmpty(f: Frame) {
    |f.rows| == 0 || |f.columns| == 0
  }

  /** The column list of `pd.DataFrame(columns=df.columns)`: the same names,
      each of dtype `object`. */
  function WithoutRows(cols: seq<Column>): (f: Frame)
    ensures f.rows == [] && Names(f.columns) == Names(cols)
    ensures forall i :: 0 <= i < |f.columns| ==> f.columns[i].kind == ObjectKind
  {
    Frame(seq(|cols|, i requires 0 <= i < |cols| => Column(cols[i].name, ObjectKind)), [])
  }
}
