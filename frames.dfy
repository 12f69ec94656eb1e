/**
 * The pandas DataFrames the geocoder and the isochrone loader work on: a cell holds
 * one of the few Python values these tables contain, a table is a set of column labels
 * and rows holding every column, and `Frame` is a table updated in place.
 */
module Frames {
  import PyText

  // ---------------------------------------------------------------------------
  // Cells

  /** A DataFrame cell. */
  datatype Cell = CNone | CNaN | CText(s: string) | CNum(n: int) | CBool(b: bool)

  /** `pd.isna(c)`. */
  predicate IsNa(c: Cell) {
    c.CNone? || c.CNaN?
  }

  /** Python truthiness; `NaN` is truthy. */
  predicate Truthy(c: Cell) {
    match c
    case CNone => false
    case CNaN => true
    case CText(s) => s != ""
    case CNum(n) => n != 0
    case CBool(b) => b
  }

  /** `str(c)`. */
  function Str(c: Cell): string {
    match c
    case CNone => "None"
    case CNaN => "nan"
    case CText(s) => s
    case CNum(n) => PyText.IntToString(n)
    case CBool(b) => if b then "True" else "False"
  }

  // ---------------------------------------------------------------------------
  // Tables

  type Row = map<string, Cell>

  /** A DataFrame as a value: its column labels and its rows, each holding every column. */
  datatype Table = Table(columns: set<string>, rows: seq<Row>)

  predicate Rectangular(t: Table) {
    forall i :: 0 <= i < |t.rows| ==> t.rows[i].Keys == t.columns
  }

  /** `df.empty`: no rows or no columns. */
  predicate Empty(t: Table) {
    t.rows == [] || t.columns == {}
  }

  /** `data[name] = value` on the rows: every row gets `value` in column `name`. */
  function WithColumn(rows: seq<Row>, name: string, value: Cell): (r: seq<Row>)
    ensures |r| == |rows|
    ensures forall i :: 0 <= i < |r| ==> r[i] == rows[i][name := value]
  {
    seq(|rows|, i requires 0 <= i < |rows| => rows[i][name := value])
  }

  /** `m.get(k, d)` on a dictionary. */
  function Get<V>(m: map<string, V>, k: string, d: V): V {
    if k in m then m[k] else d
  }

  /** A DataFrame updated in place. */
  class Frame {
    var columns: set<string>
    var rows: seq<Row>

    ghost predicate Valid()
      reads this
    {
      Rectangular(Table(columns, rows))
    }

    function Snapshot(): Table
      reads this
    {
      Table(columns, rows)
    }

    constructor (t: Table)
      requires Rectangular(t)
      ensures Valid() && Snapshot() == t
    {
      columns := t.columns;
      rows := t.rows;
    }

    /** `data[name] = value`: sets a whole column, adding it when absent. */
    method SetColumn(name: string, value: Cell)
      requires Valid()
      modifies this
      ensures Valid()
      ensures columns == old(columns) + {name}
      ensures rows == WithColumn(old(rows), name, value)
    {
      columns := columns + {name};
      rows := WithColumn(rows, name, value);
    }

    /** `data.at[i, col] = value`. */
    method SetCell(i: nat, col: string, value: Cell)
      requires Valid() && i < |rows| && col in columns
      modifies this
      ensures Valid() && columns == old(columns)
      ensures rows == old(rows)[i := old(rows)[i][col := value]]
    {
      rows := rows[i := rows[i][col := value]];
    }
  }

}
