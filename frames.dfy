/**
 * Data-frame values.  A cell holds a number (a `real`: pandas stores integer and
 * float columns, and the code only compares them), a string, or the missing value
 * (NaN or None).  A row maps column names to cells.
 */
module Frames {
  import opened Wrappers

  datatype Cell = Num(x: real) | Text(s: string) | Missing

  type Row = map<string, Cell>

  /** The cell holding an integer n, as a bucket column stores it. */
  function IntCell(n: int): Cell
  {
    Num(n as real)
  }

  /** The cell for an optional bucket: None becomes the missing value. */
  function OptionCell(o: Option<int>): Cell
  {
    if o.Some? then IntCell(o.value) else Missing
  }

  /**
   * The integer a cell compares equal to, if any.  A Python int key matches a cell exactly
   * when the cell is a number with that value (2.0 == 2); strings, NaN and None match no int.
   */
  function IntOf(c: Cell): (r: Option<int>)
    ensures r.Some? <==> c.Num? && c.x == c.x.Floor as real
    ensures r.Some? ==> r.value as real == c.x
  {
    if c.Num? && c.x == c.x.Floor as real then Some(c.x.Floor) else None
  }
}
