/**
 * An abstract pandas DataFrame as the pipeline uses it: positional columns
 * (named 0, 1, ... as pandas names the columns of a frame built from tuples),
 * each with a dtype family and one cell per row.
 */
module Frame {
  import opened Clock

  /** One cell: missing (`None`/`NaN`/`NaT`), text, a number, or a point in time. */
  datatype Cell = Null | Text(s: string) | Num(x: real) | Date(t: Instant)

  /** The dtype tests the source makes: `is_datetime64_dtype`, `is_numeric_dtype`, or neither. */
  datatype Kind = Other | Datetime | Numeric

  datatype Column = Column(kind: Kind, cells: seq<Cell>)

  /** Columns in order, and the number of rows (a frame can have rows and no columns). */
  datatype Table = Table(columns: seq<Column>, rowCount: nat)

  /** Every column has one cell per row. */
  predicate Rectangular(t: Table) {
    forall j :: 0 <= j < |t.columns| ==> |t.columns[j].cells| == t.rowCount
  }

  /** A frame pandas can hold: always rectangular. */
  type DataFrame = t: Table | Rectangular(t) witness Table([], 0)

  /** `pd.DataFrame()`: no columns, no rows. */
  const EmptyFrame: DataFrame := Table([], 0)

  /** `df.empty`: no columns or no rows. */
  predicate IsEmpty(t: Table) {
    |t.columns| == 0 || t.rowCount == 0
  }

  /** The length of the longest row. */
  function Width(rows: seq<seq<Cell>>): (w: nat)
    ensures forall i :: 0 <= i < |rows| ==> |rows[i]| <= w
    ensures w == 0 || exists i :: 0 <= i < |rows| && |rows[i]| == w
    decreases |rows|
  {
    if rows == [] then 0
    else
      var w := Width(rows[1..]);
      assert forall i :: 1 <= i < |rows| ==> rows[i] == rows[1..][i - 1];
      if |rows[0]| >= w then |rows[0]| else w
  }

  /**
   * `pd.DataFrame(rows)`: one row per element, as many columns as the longest row;
   * a shorter row is padded with missing cells. The dtype pandas infers is not
   * modelled: every column is built as `Other`, and the type loop that follows
   * replaces every kind without reading it.
   */
  function FromRows(rows: seq<seq<Cell>>): (t: DataFrame)
    ensures t.rowCount == |rows| && |t.columns| == Width(rows)
    ensures forall i, j :: 0 <= i < |rows| && 0 <= j < |t.columns| ==>
      t.columns[j].cells[i] == if j < |rows[i]| then rows[i][j] else Null
  {
    Table(
      seq(Width(rows), j requires 0 <= j =>
        Column(Other, seq(|rows|, i requires 0 <= i < |rows| => if j < |rows[i]| then rows[i][j] else Null))),
      |rows|)
  }

  function Min(a: int, b: int): int {
    if a <= b then a else b
  }

  /** `df.head(n)`: the first `n` rows (all of them if there are fewer), every column kept. */
  function Head(df: DataFrame, n: nat): (h: DataFrame)
    ensures h.rowCount == Min(n, df.rowCount)
    ensures |h.columns| == |df.columns|
    ensures forall j :: 0 <= j < |h.columns| ==>
      h.columns[j].kind == df.columns[j].kind && h.columns[j].cells == df.columns[j].cells[..h.rowCount]
  {
    var k := Min(n, df.rowCount);
    Table(seq(|df.columns|, j requires 0 <= j < |df.columns| =>
      Column(df.columns[j].kind, df.columns[j].cells[..k])), k)
  }
}
