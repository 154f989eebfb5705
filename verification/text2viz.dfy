/**
 * `create_visualization_pipeline`: clean the generated SQL, execute it, turn the
 * textual result into a typed frame, and decide whether and how to chart it.
 * `ast.literal_eval` with `pd.DataFrame`, `pd.to_datetime` and `pd.to_numeric`
 * are collaborators, given as functions in a `Coercions` value.
 */
module Text2Viz {
  import opened Wrappers
  import opened PyStr
  import opened SqlClean
  import opened Frame
  import opened Clock

  /** What `pd.to_datetime` makes of one cell: a time, a missing time (`NaT`), or an error. */
  datatype DateParse = Parsed(t: Instant) | NotATime | Unparseable

  /**
   * The foreign parsers.
   * `literalRows`: `ast.literal_eval` followed by `pd.DataFrame`, as rows of cells; `None` when either raises.
   * `parseDate`: `pd.to_datetime` on cell `i` of a column; it sees the whole column, as pandas
   *   infers one format for all of it; any `Unparseable` cell makes the whole call raise.
   * `parseNumber`: `pd.to_numeric(errors='coerce')` on one cell; `None` is the `NaN` it coerces to.
   */
  datatype Coercions = Coercions(
    literalRows: string -> Option<seq<seq<Cell>>>,
    parseDate: (seq<Cell>, nat) -> DateParse,
    parseNumber: Cell -> Option<real>)

  /** The separator between tuples in the database tool's textual result. */
  const RowSeparator := "), ("
  const Brackets: set<char> := {'[', ']'}
  const Parens: set<char> := {'(', ')'}

  /** The gate: the text starts with `[` and ends with `]`. */
  predicate LooksLikeList(result: string) {
    IsPrefix("[", result) && IsSuffix("]", result)
  }

  /** The pieces of the fallback parser: strip `[]`, split on `), (`. */
  function RowPieces(result: string): seq<string> {
    Split(StripChars(result, Brackets), RowSeparator)
  }

  /** The cells of one piece: strip `()`, split on `,`. */
  function PieceCells(piece: string): seq<string> {
    Split(StripChars(piece, Parens), ",")
  }

  /** The fallback parser on strings: the cells of every piece, in order. */
  function FallbackSplit(result: string): seq<seq<string>> {
    var pieces := RowPieces(result);
    seq(|pieces|, i requires 0 <= i < |pieces| => PieceCells(pieces[i]))
  }

  /**
   * Shape of the fallback parse: one row per `), (` separator plus one, one cell per
   * comma of the row's piece plus one; re-joining the cells with commas gives the piece
   * back, so every cell keeps its inner spaces and quotes.
   */
  lemma {:induction false} FallbackSplitShape(result: string)
    ensures var inner := StripChars(result, Brackets);
      var pieces := Split(inner, RowSeparator);
      var rows := FallbackSplit(result);
      && |rows| == |pieces| == Count(inner, RowSeparator) + 1
      && Join(pieces, RowSeparator) == inner
      && forall i :: 0 <= i < |rows| ==>
           |rows[i]| == Count(StripChars(pieces[i], Parens), ",") + 1
           && Join(rows[i], ",") == StripChars(pieces[i], Parens)
  {
    var inner := StripChars(result, Brackets);
    var pieces := Split(inner, RowSeparator);
    assert |pieces| == Count(inner, RowSeparator) + 1 by { SplitCount(inner, RowSeparator); }
    assert Join(pieces, RowSeparator) == inner by { JoinSplit(inner, RowSeparator); }
    forall i | 0 <= i < |pieces|
      ensures |FallbackSplit(result)[i]| == Count(StripChars(pieces[i], Parens), ",") + 1
      ensures Join(FallbackSplit(result)[i], ",") == StripChars(pieces[i], Parens)
    {
      assert FallbackSplit(result)[i] == PieceCells(pieces[i]);
      CellSplitShape(StripChars(pieces[i], Parens));
    }
  }

  /** The cells of one piece: one more than its commas, and re-joining them gives the piece. */
  lemma {:induction false} CellSplitShape(piece: string)
    ensures |Split(piece, ",")| == Count(piece, ",") + 1
    ensures Join(Split(piece, ","), ",") == piece
  {
    SplitCount(piece, ",");
    JoinSplit(piece, ",");
  }

  /** One row of split strings as text cells. */
  function TextRow(cells: seq<string>): (row: seq<Cell>)
    ensures |row| == |cells| && forall k :: 0 <= k < |row| ==> row[k] == Text(cells[k])
  {
    seq(|cells|, k requires 0 <= k < |cells| => Text(cells[k]))
  }

  /** The fallback parse as rows of text cells. */
  function FallbackRows(result: string): (rows: seq<seq<Cell>>)
    ensures |rows| == |FallbackSplit(result)|
    ensures forall i :: 0 <= i < |rows| ==> rows[i] == TextRow(FallbackSplit(result)[i])
  {
    var split := FallbackSplit(result);
    seq(|split|, i requires 0 <= i < |split| => TextRow(split[i]))
  }

  /** The frame before the type loop: empty unless the gate passes; literal parse first, fallback on failure. */
  function RawFrame(result: string, co: Coercions): (df: DataFrame)
    ensures !LooksLikeList(result) ==> df == EmptyFrame
    ensures LooksLikeList(result) && co.literalRows(result).Some? ==> df == FromRows(co.literalRows(result).value)
    ensures LooksLikeList(result) && co.literalRows(result).None? ==>
      df == FromRows(FallbackRows(result)) && df.rowCount >= 1 && |df.columns| >= 1
  {
    if !LooksLikeList(result) then EmptyFrame
    else
      match co.literalRows(result)
      case Some(rows) => FromRows(rows)
      case None =>
        var rows := FallbackRows(result);
        assert |rows[0]| >= 1;
        FromRows(rows)
  }

  function DateCell(p: DateParse): Cell {
    match p
    case Parsed(t) => Date(t)
    case _ => Null
  }

  function NumberCell(x: Option<real>): Cell {
    match x
    case Some(v) => Num(v)
    case None => Null
  }

  /** `pd.to_datetime(column)`: succeeds only when no cell is unparseable, and then keeps every cell's place. */
  function ToDatetime(c: Column, co: Coercions): (r: Option<Column>)
    ensures r.Some? <==> forall i :: 0 <= i < |c.cells| ==> co.parseDate(c.cells, i) != Unparseable
    ensures r.Some? ==>
      (r.value.kind == Datetime && |r.value.cells| == |c.cells|
       && forall i :: 0 <= i < |c.cells| ==> r.value.cells[i] == DateCell(co.parseDate(c.cells, i)))
  {
    if forall i :: 0 <= i < |c.cells| ==> co.parseDate(c.cells, i) != Unparseable then
      Some(Column(Datetime, seq(|c.cells|, i requires 0 <= i < |c.cells| => DateCell(co.parseDate(c.cells, i)))))
    else None
  }

  /** `pd.to_numeric(column, errors='coerce')`: one numeric cell per cell, unparseable cells missing. */
  function ToNumeric(c: Column, co: Coercions): (r: Column)
    ensures r.kind == Numeric && |r.cells| == |c.cells|
    ensures forall i :: 0 <= i < |c.cells| ==> r.cells[i] == NumberCell(co.parseNumber(c.cells[i]))
  {
    Column(Numeric, seq(|c.cells|, i requires 0 <= i < |c.cells| => NumberCell(co.parseNumber(c.cells[i]))))
  }

  /**
   * One step of the type loop: datetime first; only if that raises, numeric with
   * coercion. The column keeps its length and ends up datetime or numeric.
   */
  function ConvertColumn(c: Column, co: Coercions): (r: Column)
    ensures |r.cells| == |c.cells|
    ensures r.kind == Datetime || r.kind == Numeric
    ensures r.kind == Datetime <==> forall i :: 0 <= i < |c.cells| ==> co.parseDate(c.cells, i) != Unparseable
    ensures r.kind == Datetime ==> ToDatetime(c, co) == Some(r)
    ensures r.kind == Numeric ==> r == ToNumeric(c, co)
  {
    match ToDatetime(c, co)
    case Some(d) => d
    case None => ToNumeric(c, co)
  }

  /** The type loop's effect on a frame: every column converted in place, no column or row added or removed. */
  function ConvertColumns(raw: DataFrame, co: Coercions): (df: DataFrame)
    ensures df.rowCount == raw.rowCount && |df.columns| == |raw.columns|
    ensures forall j :: 0 <= j < |df.columns| ==> df.columns[j] == ConvertColumn(raw.columns[j], co)
  {
    Table(seq(|raw.columns|, j requires 0 <= j < |raw.columns| => ConvertColumn(raw.columns[j], co)), raw.rowCount)
  }

  /**
   * `convert_to_dataframe` as a value: the raw frame with every column converted in place;
   * no column or row is added or removed, and a result failing the gate gives the empty frame.
   */
  function TypedFrame(result: string, co: Coercions): (df: DataFrame)
    ensures var raw := RawFrame(result, co);
      df.rowCount == raw.rowCount && |df.columns| == |raw.columns|
      && forall j :: 0 <= j < |df.columns| ==> df.columns[j] == ConvertColumn(raw.columns[j], co)
    ensures !LooksLikeList(result) ==> df == EmptyFrame
  {
    ConvertColumns(RawFrame(result, co), co)
  }

  /** The loop of `convert_to_dataframe`: each column in turn is replaced by its converted form. */
  method ConvertEachColumn(raw: DataFrame, co: Coercions) returns (df: DataFrame)
    ensures df == ConvertColumns(raw, co)
  {
    var columns := raw.columns;
    for j := 0 to |columns|
      invariant |columns| == |raw.columns|
      invariant forall k :: 0 <= k < j ==> columns[k] == ConvertColumn(raw.columns[k], co)
      invariant forall k :: j <= k < |columns| ==> columns[k] == raw.columns[k]
    {
      columns := columns[j := ConvertColumn(columns[j], co)];
    }
    df := Table(columns, raw.rowCount);
  }

  /** `convert_to_dataframe`: the gate, the two parsers, then the loop over the columns. */
  method ConvertToDataFrame(result: string, co: Coercions) returns (df: DataFrame)
    ensures df == TypedFrame(result, co)
  {
    var raw := RawFrame(result, co);
    df := ConvertEachColumn(raw, co);
  }

  /** The file every chart is saved to. */
  const OutputFile := "t1.png"

  /** A marker line plot for a time axis, a bar plot otherwise. */
  datatype Family = MarkerLine | Bars

  /** What was drawn: family, title, axis labels, and the x and y series in row order. */
  datatype Plot = Plot(family: Family, title: string, xLabel: string, yLabel: string, xs: seq<Cell>, ys: seq<Cell>)

  /** The returned frame and image path, and the plot drawn on the way (if any). */
  datatype Visualization = Visualization(df: DataFrame, path: Option<string>, plot: Option<Plot>)

  /** A chart is attempted only with at least two columns and a non-empty frame. */
  predicate ChartFeasible(t: Table) {
    |t.columns| >= 2 && !IsEmpty(t)
  }

  /**
   * `create_visualization`: an infeasible frame comes back untouched with no path.
   * Otherwise column 0 is x and column 1 is y; a non-numeric y is coerced in place
   * (never rejected); a datetime x gives a marker line, anything else bars in row order;
   * the image always goes to the same file.
   */
  function CreateVisualization(df: DataFrame, co: Coercions): (v: Visualization)
    ensures v.path.Some? <==> ChartFeasible(df)
    ensures !ChartFeasible(df) ==> v.df == df && v.plot == None
    ensures ChartFeasible(df) ==> v.path == Some(OutputFile) && v.plot.Some?
    ensures ChartFeasible(df) ==>
      && v.df.rowCount == df.rowCount && |v.df.columns| == |df.columns|
      && (forall j :: 0 <= j < |df.columns| && j != 1 ==> v.df.columns[j] == df.columns[j])
      && v.df.columns[1].kind == Numeric
      && v.df.columns[1] == (if df.columns[1].kind == Numeric then df.columns[1] else ToNumeric(df.columns[1], co))
    ensures ChartFeasible(df) ==>
      && (v.plot.value.family == MarkerLine <==> df.columns[0].kind == Datetime)
      && v.plot.value.xs == df.columns[0].cells
      && v.plot.value.ys == v.df.columns[1].cells
      && v.plot.value.title == "1 by 0" && v.plot.value.xLabel == "0" && v.plot.value.yLabel == "1"
  {
    if |df.columns| < 2 || IsEmpty(df) then Visualization(df, None, None)
    else
      var x := df.columns[0];
      var y := if df.columns[1].kind == Numeric then df.columns[1] else ToNumeric(df.columns[1], co);
      var typed: DataFrame := df.(columns := df.columns[1 := y]);
      var family := if x.kind == Datetime then MarkerLine else Bars;
      Visualization(typed, Some(OutputFile), Some(Plot(family, "1 by 0", "0", "1", x.cells, y.cells)))
  }

  /**
   * The chain: the SQL is cleaned before it is executed, and the output is exactly
   * the frame and path `create_visualization` returns for the typed result.
   */
  method VisualizationChain(question: string, writeQuery: string -> string, executeQuery: string -> string, co: Coercions)
    returns (df: DataFrame, path: Option<string>, ghost executed: string)
    ensures executed == CleanSqlResponse(writeQuery(question))
    ensures var v := CreateVisualization(TypedFrame(executeQuery(executed), co), co);
      df == v.df && path == v.path
    ensures path.Some? ==> path.value == OutputFile && ChartFeasible(df)
  {
    var cleanQuery := CleanSqlResponse(writeQuery(question));
    executed := cleanQuery;
    var typed := ConvertToDataFrame(executeQuery(cleanQuery), co);
    var v := CreateVisualization(typed, co);
    df, path := v.df, v.path;
  }

  /** A result that is not list-shaped never reaches a chart. */
  lemma NonListNeverCharted(result: string, co: Coercions)
    requires !LooksLikeList(result)
    ensures CreateVisualization(TypedFrame(result, co), co).path == None
  {
  }

  /** A cell text the fallback split cannot cut: non-empty, with no comma, parenthesis or bracket. */
  predicate PlainCell(x: string) {
    x != [] && forall k :: 0 <= k < |x| ==> x[k] !in {',', '(', ')', '[', ']'}
  }

  /**
   * The fallback parse of a two-row, two-column result such as `[(1, 'A'), (2, 'B')]`:
   * when no cell text contains a comma, parenthesis or bracket, the split recovers
   * exactly the four cell texts, spaces and quotes kept.
   */
  lemma {:induction false} FallbackPairs(result: string, a0: string, b0: string, a1: string, b1: string)
    requires PlainCell(a0) && PlainCell(b0) && PlainCell(a1) && PlainCell(b1)
    requires result == "[" + ("(" + a0 + "," + b0) + RowSeparator + (a1 + "," + b1 + ")") + "]"
    ensures FallbackSplit(result) == [[a0, b0], [a1, b1]]
  {
    var p0 := "(" + a0 + "," + b0;
    var p1 := a1 + "," + b1 + ")";
    OpeningPiece(a0, b0);
    ClosingPiece(a1, b1);
    assert Split(StripChars(result, Brackets), RowSeparator) == [p0, p1] by {
      var inner := p0 + RowSeparator + p1;
      Bracketed(result, p0, RowSeparator, p1);
      CharFree("(", a0, ')');
      CharFree("(" + a0, ",", ')');
      CharFree("(" + a0 + ",", b0, ')');
      var q := a1 + "," + b1;
      CharFree(a1, ",", ')');
      CharFree(a1 + ",", b1, ')');
      forall k | 0 <= k < |p1| - 1 ensures p1[k] != ')' {
        assert p1[k] == q[k];
      }
      PairRows(result, inner, p0, p1);
    }
    FallbackOfPieces(result, p0, p1, [a0, b0], [a1, b1]);
  }

  /** The fallback split assembled from the row split and the two cell splits. */
  lemma {:induction false} FallbackOfPieces(result: string, p0: string, p1: string, c0: seq<string>, c1: seq<string>)
    requires RowPieces(result) == [p0, p1]
    requires PieceCells(p0) == c0 && PieceCells(p1) == c1
    ensures FallbackSplit(result) == [c0, c1]
  {
    var rows := FallbackSplit(result);
    assert |rows| == 2 && rows[0] == c0 && rows[1] == c1;
  }

  /** The bracketed text splits into its two parenthesised pieces. */
  lemma {:induction false} PairRows(result: string, inner: string, p0: string, p1: string)
    requires result == "[" + inner + "]"
    requires inner == p0 + RowSeparator + p1
    requires p0 != [] && p0[0] == '(' && forall k :: 0 <= k < |p0| ==> p0[k] != ')'
    requires p1 != [] && p1[|p1| - 1] == ')'
    requires forall k :: 0 <= k < |p1| - 1 ==> p1[k] != ')'
    ensures Split(StripChars(result, Brackets), RowSeparator) == [p0, p1]
  {
    assert inner[0] == p0[0];
    assert inner[|inner| - 1] == p1[|p1| - 1];
    StripCharsPadded("[", inner, "]", Brackets);
    TwoRows(inner, p0, p1);
  }

  /** Two pieces with no `)` in the first and none before the end of the second split at the separator. */
  lemma {:induction false} TwoRows(inner: string, p0: string, p1: string)
    requires inner == p0 + RowSeparator + p1
    requires forall k :: 0 <= k < |p0| ==> p0[k] != ')'
    requires forall k :: 0 <= k < |p1| - 1 ==> p1[k] != ')'
    ensures Split(inner, RowSeparator) == [p0, p1]
  {
    forall k | 0 <= k < |p0| ensures !IsPrefix(RowSeparator, inner[k..]) {
      assert inner[k..][0] == p0[k];
    }
    SplitAtFirst(inner, p0, RowSeparator, p1);
    assert |RowSeparator| == 4 && RowSeparator[0] == ')';
    forall k | 0 <= k <= |p1| ensures !IsPrefix(RowSeparator, p1[k..]) {
      if k < |p1| - 1 {
        assert p1[k..][0] == p1[k];
      } else {
        assert |p1[k..]| < 4;
      }
    }
    NoOccurrence(p1, RowSeparator);
  }

  /** The first piece of a two-row result: `(` then two plain cells. */
  lemma {:induction false} OpeningPiece(a: string, b: string)
    requires PlainCell(a) && PlainCell(b)
    ensures Split(StripChars("(" + a + "," + b, Parens), ",") == [a, b]
  {
    assert "(" + a + "," + b == "(" + a + "," + b + "";
    PairCells("(" + a + "," + b, "(", "", a, b);
  }

  /** The last piece of a two-row result: two plain cells then `)`. */
  lemma {:induction false} ClosingPiece(a: string, b: string)
    requires PlainCell(a) && PlainCell(b)
    ensures Split(StripChars(a + "," + b + ")", Parens), ",") == [a, b]
  {
    assert a + "," + b + ")" == "" + a + "," + b + ")";
    PairCells(a + "," + b + ")", "", ")", a, b);
  }

  /** A parenthesised piece made of two plain cells and a comma splits into those two cells. */
  lemma {:induction false} PairCells(piece: string, lead: string, trail: string, a: string, b: string)
    requires piece == lead + a + "," + b + trail
    requires AllIn(lead, Parens) && AllIn(trail, Parens)
    requires PlainCell(a) && PlainCell(b)
    ensures Split(StripChars(piece, Parens), ",") == [a, b]
  {
    var t := a + "," + b;
    assert piece == lead + t + trail;
    assert t[0] == a[0];
    assert t[|t| - 1] == b[|b| - 1];
    StripCharsPadded(lead, t, trail, Parens);
    TwoCells(t, a, b);
  }

  /** Two comma-free cells joined by a comma split back into those two cells. */
  lemma {:induction false} TwoCells(t: string, a: string, b: string)
    requires t == a + "," + b
    requires forall k :: 0 <= k < |a| ==> a[k] != ','
    requires forall k :: 0 <= k < |b| ==> b[k] != ','
    ensures Split(t, ",") == [a, b]
  {
    forall k | 0 <= k < |a| ensures !IsPrefix(",", t[k..]) {
      assert t[k..][0] == a[k];
    }
    SplitAtFirst(t, a, ",", b);
    SplitNone(b, ",");
  }

  /** Regrouping a bracketed concatenation. */
  lemma {:induction false} Bracketed(result: string, x: string, y: string, z: string)
    requires result == "[" + x + y + z + "]"
    ensures result == "[" + (x + y + z) + "]"
  {
  }

  /** A character absent from two strings is absent from their concatenation. */
  lemma {:induction false} CharFree(x: string, y: string, c: char)
    requires forall k :: 0 <= k < |x| ==> x[k] != c
    requires forall k :: 0 <= k < |y| ==> y[k] != c
    ensures forall k :: 0 <= k < |x + y| ==> (x + y)[k] != c
  {
  }

  /** When `sep` first occurs right after `a`, `split` cuts `a` off and carries on with `b`. */
  lemma {:induction false} SplitAtFirst(s: string, a: string, sep: string, b: string)
    requires sep != "" && s == a + sep + b
    requires forall k :: 0 <= k < |a| ==> !IsPrefix(sep, s[k..])
    ensures Split(s, sep) == [a] + Split(b, sep)
  {
    assert s[|a|..][..|sep|] == sep;
    assert FirstAt(s, sep) == Some(|a|);
    assert s[..|a|] == a;
    assert s[|a| + |sep|..] == b;
  }

  /** A string without the first character of `sep` splits into itself. */
  lemma {:induction false} SplitNone(s: string, sep: string)
    requires sep != ""
    requires forall k :: 0 <= k < |s| ==> s[k] != sep[0]
    ensures Split(s, sep) == [s]
  {
    forall k | 0 <= k <= |s| ensures !IsPrefix(sep, s[k..]) {
      if k < |s| { assert s[k..][0] == s[k]; }
    }
    NoOccurrence(s, sep);
  }

  /** A string in which `sep` never occurs splits into itself. */
  lemma {:induction false} NoOccurrence(s: string, sep: string)
    requires sep != ""
    requires forall k :: 0 <= k <= |s| ==> !IsPrefix(sep, s[k..])
    ensures Split(s, sep) == [s]
  {
    assert FirstAt(s, sep).None?;
  }
}
