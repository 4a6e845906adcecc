/** A single-table model of the pandas DataFrame operations the loan pipeline uses:
    cells that may be missing (NaN), text or numbers, columns looked up by name,
    element-wise arithmetic with pandas' NaN and division-by-zero rules, and the
    Python exceptions those operations raise. */
module Frames {

  datatype Option<T> = None | Some(value: T)

  /** The Python exceptions that the modelled code can raise. */
  datatype Error =
    | KeyError(key: string)               // df[col] or dict[key] on an absent name
    | MissingColumns(names: seq<string>)  // df[list_of_columns] with some names absent
    | NoColumns(names: seq<string>)       // df[list_of_columns] with every name absent
    | ValueError(text: string)            // float(text) on text that is not a number
    | TypeError(op: string)               // arithmetic on a text cell
    | EmptyMode(column: string)           // mode()[0] of a column without any value
    | MedianOfText(column: string)        // median() of a column holding text
    | ModelError(message: string)         // raised inside the classifier
  {
    /** What str(e) gives. The texts of KeyError, the two column-selection errors,
        ValueError and the empty mode follow Python and pandas; the TypeError and
        median texts are shortened. */
    function Message(): (m: string)
      ensures KeyError? ==> |m| == |key| + 2 && m[0] == m[|m| - 1] == '\'' && m[1..|m| - 1] == key
      ensures ValueError? ==> |m| > |text| && m[|m| - |text| - 1..|m| - 1] == text
    {
      match this
      case KeyError(k) => "'" + k + "'"
      case MissingColumns(ns) => "\"[" + QuotedList(ns) + "] not in index\""
      case NoColumns(ns) => "\"None of [Index([" + QuotedList(ns) + "], dtype='object')] are in the [columns]\""
      case ValueError(t) => "could not convert string to float: '" + t + "'"
      case TypeError(op) => "unsupported operand type(s) for " + op
      case EmptyMode(_) => "0"
      case MedianOfText(c) => "Cannot convert " + c + " to numeric"
      case ModelError(m) => m
    }
  }

  function QuotedList(ns: seq<string>): string {
    if ns == [] then ""
    else if |ns| == 1 then "'" + ns[0] + "'"
    else "'" + ns[0] + "', " + QuotedList(ns[1..])
  }

  /** A computation that either yields a value or raises. */
  datatype Result<T> = Ok(value: T) | Err(error: Error) {
    predicate IsFailure() { Err? }
    function PropagateFailure<U>(): Result<U> requires Err? { Err(error) }
    function Extract(): T requires Ok? { value }
  }

  /** One cell of a DataFrame. NonFinite stands for +inf and -inf alike. */
  datatype Cell = Missing | Str(s: string) | Num(x: real) | NonFinite

  /** Library primitives the model does not open up: number parsing (pd.to_numeric and
      float() accept the same numerals here), the text of a float under astype(str),
      the natural logarithm, and pandas' mode()[0] (None when the column has no value)
      and median() of a column without text (NaN when the column has no value). */
  datatype Runtime = Runtime(
    parse: string -> Option<real>,
    show: real -> string,
    ln: real -> real,
    mode: seq<Cell> -> Option<Cell>,
    median: seq<Cell> -> Cell)

  /** A table: named columns of equal length `rows`. */
  datatype Frame = Frame(data: map<string, seq<Cell>>, rows: nat) {

    ghost predicate Valid() {
      forall c :: c in data ==> |data[c]| == rows
    }

    /** df[name] */
    function Column(name: string): (r: Result<seq<Cell>>)
      ensures r.Ok? <==> name in data
      ensures r.Ok? ==> r.value == data[name]
      ensures r.Err? ==> r.error == KeyError(name)
    {
      if name in data then Ok(data[name]) else Err(KeyError(name))
    }

    /** df[name] = col: replaces the column, or adds it when absent. */
    function Set(name: string, col: seq<Cell>): (f: Frame)
      requires Valid() && |col| == rows
      ensures f.Valid() && f.rows == rows && f.data.Keys == data.Keys + {name}
      ensures f.data[name] == col && forall c {:trigger f.data[c]} :: c in data && c != name ==> f.data[c] == data[c]
    {
      Frame(data[name := col], rows)
    }

    /** Writing a column back unchanged leaves the table as it was. */
    lemma SetSame(name: string)
      requires Valid() && name in data
      ensures Set(name, data[name]) == this
    {
      assert data[name := data[name]] == data;
    }

    /** df.drop(name, axis=1) */
    function Drop(name: string): (f: Frame)
      requires Valid()
      ensures f.Valid() && f.rows == rows && f.data.Keys == data.Keys - {name}
      ensures forall c {:trigger f.data[c]} :: c in f.data ==> f.data[c] == data[c]
    {
      Frame(data - {name}, rows)
    }
  }

  /** Whether a column holds text, which makes pandas' median() raise: a scan from the
      first cell, true exactly when some cell is text. */
  function HasText(col: seq<Cell>): (b: bool)
    ensures b <==> exists i :: 0 <= i < |col| && col[i].Str?
  {
    if col == [] then false
    else if col[0].Str? then true
    else
      var b := HasText(col[1..]);
      assert forall i :: 1 <= i < |col| ==> col[i] == col[1..][i - 1];
      b
  }

  /** A column of `n` copies of one value, as a scalar assignment broadcasts it. */
  function Repeat(c: Cell, n: nat): (r: seq<Cell>)
    ensures |r| == n && forall i :: 0 <= i < n ==> r[i] == c
  {
    seq(n, _ => c)
  }

  /** Series.fillna(v): every missing cell becomes v, every other cell stays. */
  function FillNa(col: seq<Cell>, v: Cell): (r: seq<Cell>)
    ensures |r| == |col|
    ensures forall i :: 0 <= i < |col| ==> r[i] == if col[i].Missing? then v else col[i]
  {
    if col == [] then [] else [if col[0].Missing? then v else col[0]] + FillNa(col[1..], v)
  }

  lemma FillNaIdempotent(col: seq<Cell>, v: Cell)
    ensures FillNa(FillNa(col, v), v) == FillNa(col, v)
  {
  }

  /** np.log(col + 1), cell by cell; it raises when any cell raises. */
  function LogCells(col: seq<Cell>, ln: real -> real): (r: Result<seq<Cell>>)
    ensures r.Ok? <==> forall i :: 0 <= i < |col| ==> LogOnePlus(col[i], ln).Ok?
    ensures r.Ok? ==> |r.value| == |col| && forall i :: 0 <= i < |col| ==> LogOnePlus(col[i], ln) == Ok(r.value[i])
  {
    if col == [] then Ok([])
    else
      var head :- LogOnePlus(col[0], ln);
      var tail :- LogCells(col[1..], ln);
      Ok([head] + tail)
  }

  /** An element-wise operation on two aligned columns. */
  function ZipCells(a: seq<Cell>, b: seq<Cell>, f: (Cell, Cell) -> Result<Cell>): (r: Result<seq<Cell>>)
    requires |a| == |b|
    ensures r.Ok? <==> forall i :: 0 <= i < |a| ==> f(a[i], b[i]).Ok?
    ensures r.Ok? ==> |r.value| == |a| && forall i :: 0 <= i < |a| ==> f(a[i], b[i]) == Ok(r.value[i])
  {
    if a == [] then Ok([])
    else
      var head :- f(a[0], b[0]);
      var tail :- ZipCells(a[1..], b[1..], f);
      Ok([head] + tail)
  }

  /** An element-wise operation that yields `c` cell by cell yields `c` as a column. */
  lemma ZipCellsYields(a: seq<Cell>, b: seq<Cell>, f: (Cell, Cell) -> Result<Cell>, c: seq<Cell>)
    requires |a| == |b| == |c|
    requires forall i :: 0 <= i < |a| ==> f(a[i], b[i]) == Ok(c[i])
    ensures ZipCells(a, b, f) == Ok(c)
  {
    var r := ZipCells(a, b, f);
    assert r.Ok?;
    assert r.value == c by {
      forall i | 0 <= i < |c| ensures r.value[i] == c[i] {
        assert f(a[i], b[i]) == Ok(r.value[i]);
      }
    }
  }

  lemma LogCellsYields(col: seq<Cell>, ln: real -> real, c: seq<Cell>)
    requires |col| == |c|
    requires forall i :: 0 <= i < |col| ==> LogOnePlus(col[i], ln) == Ok(c[i])
    ensures LogCells(col, ln) == Ok(c)
  {
    var r := LogCells(col, ln);
    assert r.Ok?;
    assert r.value == c by {
      forall i | 0 <= i < |c| ensures r.value[i] == c[i] {
        assert LogOnePlus(col[i], ln) == Ok(r.value[i]);
      }
    }
  }

  /** a + b on cells: numbers add, texts concatenate, NaN absorbs numbers,
      text against anything else raises. */
  function AddCells(a: Cell, b: Cell): (r: Result<Cell>)
    ensures r.Err? <==> (a.Str? || b.Str?) && !(a.Str? && b.Str?)
    ensures r.Ok? && r.value.Str? <==> a.Str? && b.Str?
    ensures a.Num? && b.Num? ==> r == Ok(Num(a.x + b.x))
  {
    match (a, b)
    case (Num(x), Num(y)) => Ok(Num(x + y))
    case (Str(s), Str(t)) => Ok(Str(s + t))
    case (Str(_), _) => Err(TypeError("+"))
    case (_, Str(_)) => Err(TypeError("+"))
    case (Missing, _) => Ok(Missing)
    case (_, Missing) => Ok(Missing)
    case _ => Ok(NonFinite)
  }

  /** a / b on cells, with IEEE division by zero: x/0 is infinite for x != 0 and 0/0 is
      NaN. When the plain division raises on a text column, pandas divides again only
      where neither side is NaN, so NaN against text gives NaN. */
  function DivCells(a: Cell, b: Cell): (r: Result<Cell>)
    ensures r.Err? <==> (a.Str? || b.Str?) && !a.Missing? && !b.Missing?
    ensures a.Missing? || b.Missing? ==> r == Ok(Missing)
    ensures a.Num? && b.Num? && b.x != 0.0 ==> r == Ok(Num(a.x / b.x))
    ensures a.Num? && b.Num? && b.x == 0.0 ==> r == Ok(if a.x == 0.0 then Missing else NonFinite)
  {
    match (a, b)
    case (Num(x), Num(y)) => Ok(if y != 0.0 then Num(x / y) else if x == 0.0 then Missing else NonFinite)
    case (Missing, _) => Ok(Missing)
    case (_, Missing) => Ok(Missing)
    case (Str(_), _) => Err(TypeError("/"))
    case (_, Str(_)) => Err(TypeError("/"))
    case (NonFinite, NonFinite) => Ok(Missing)
    case (NonFinite, Num(_)) => Ok(NonFinite)
    case (Num(_), NonFinite) => Ok(Num(0.0))
  }

  /** np.log(c + 1): the logarithm where defined, -inf at zero, NaN below zero. */
  function LogOnePlus(c: Cell, ln: real -> real): (r: Result<Cell>)
    ensures r.Err? <==> c.Str?
    ensures c.Num? && c.x + 1.0 > 0.0 ==> r == Ok(Num(ln(c.x + 1.0)))
  {
    match c
    case Num(x) => Ok(if x + 1.0 > 0.0 then Num(ln(x + 1.0)) else if x + 1.0 == 0.0 then NonFinite else Missing)
    case Str(_) => Err(TypeError("+"))
    case Missing => Ok(Missing)
    case NonFinite => Ok(NonFinite)
  }

  /** Text of a cell under astype(str): a text is itself, NaN reads "nan", a number
      reads as the runtime writes it. */
  function Text(c: Cell, rt: Runtime): (s: string)
    ensures c.Str? ==> s == c.s
    ensures c.Missing? ==> s == "nan"
    ensures c.Num? ==> s == rt.show(c.x)
  {
    match c
    case Str(s) => s
    case Missing => "nan"
    case Num(x) => rt.show(x)
    case NonFinite => "inf"
  }
}
