/**
 * Database tables after loading: a row maps each column name to a cell, and a
 * cell holds a number, a non-numeric text, or nothing (NaN / empty).
 */
module Rows {
  import opened Wrappers

  datatype Cell = Num(v: real) | Text(s: string) | Missing

  /** One profile row: the column names of its table, each with its cell. */
  type Row = map<string, Cell>

  datatype Table = Table(columns: seq<string>, rows: seq<Row>)

  /** `row.get(column, default)`. */
  function Get(row: Row, column: string, default: Cell): (c: Cell)
    ensures column in row ==> c == row[column]
    ensures column !in row ==> c == default
  {
    if column in row then row[column] else default
  }

  /** `a_flotante(c, None)`: the number of a numeric cell, no value otherwise. */
  function ToReal(c: Cell): (r: Option<real>)
    ensures r.Some? <==> c.Num?
    ensures c.Num? ==> r.value == c.v
  {
    match c
    case Num(v) => Some(v)
    case _ => None
  }

  /** `a_flotante(c, default)`: a numeric cell's value, `default` for NaN or text. */
  function AFlotante(c: Cell, default: real): (r: real)
    ensures c.Num? ==> r == c.v
    ensures !c.Num? ==> r == default
  {
    ToReal(c).GetOr(default)
  }

  /** Cell equality as a pandas column comparison `db[col] == text`: NaN matches nothing. */
  predicate CellIsText(c: Cell, text: string) {
    c.Text? && c.s == text
  }
}
