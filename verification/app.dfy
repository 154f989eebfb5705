/**
 * The turn handling of `app.py`: keyword detection of visualisation requests, the
 * data summary, and the two chat callbacks. `user_input` returns a new history;
 * `bot_response` updates the history it is given in place. The classifier is the
 * model of `classify_conversation`; `Text2Viz.visualize`, `Text2SQL.query` and
 * the file-existence test are collaborators given as functions.
 */
module App {
  import opened Wrappers
  import opened PyStr
  import opened Frame
  import opened LlmClient
  import Text2Viz

  /** The fixed visualisation vocabulary, in the order it is tried. */
  const VizKeywords: seq<string> := [
    "可视化", "图表", "图形", "绘制", "画图", "展示", "趋势", "变化",
    "统计图", "柱状图", "折线图", "饼图", "直方图", "散点图", "分布图",
    "visualize", "visualization", "chart", "plot", "graph", "trend", "变化情况"
  ]

  /** Some keyword occurs in the lower-cased query. */
  predicate MentionsVisualization(query: string) {
    exists k :: k in VizKeywords && Contains(Lower(query), k)
  }

  /** `is_visualization_query`: tries the keywords in order and stops at the first that occurs. */
  method IsVisualizationQuery(query: string) returns (b: bool)
    ensures b <==> MentionsVisualization(query)
  {
    var lowered := Lower(query);
    for i := 0 to |VizKeywords|
      invariant forall j :: 0 <= j < i ==> !Contains(lowered, VizKeywords[j])
    {
      if Contains(lowered, VizKeywords[i]) {
        return true;
      }
    }
    return false;
  }

  /** No keyword is empty, so the empty query is never a visualisation request. */
  lemma {:induction false} EmptyQueryIsNotVisualization()
    ensures !MentionsVisualization("")
  {
    assert Lower("") == "";
    forall k | k in VizKeywords ensures !Contains("", k) {
      assert k != "";
    }
  }

  /** Matching is on the lower-cased query, so an upper-case English keyword matches. */
  lemma {:induction false} UpperCaseKeywordMatches()
    ensures MentionsVisualization("CHART")
  {
    var lowered := Lower("CHART");
    assert lowered == "chart";
    assert "chart" in VizKeywords;
    assert Contains(lowered, "chart") by { assert IsPrefix("chart", lowered); }
  }

  /** One bullet of the summary: a date range for a datetime column, sum and mean for a numeric one. */
  datatype Bullet = RangeLine(column: nat) | StatsLine(column: nat)

  /** `generate_data_summary`: the fixed apology, or header, row-count line and bullets. */
  datatype Summary = CannotVisualize | Report(rowCount: nat, bullets: seq<Bullet>)

  /** The bullet kind matches the column's dtype. */
  predicate Describes(b: Bullet, c: Column) {
    (b.RangeLine? && c.kind == Datetime) || (b.StatsLine? && c.kind == Numeric)
  }

  /**
   * What a summary of `df` is: the apology exactly for an empty frame; otherwise the
   * row count, and one bullet per datetime or numeric column, in column order, each
   * describing its column; other columns get no bullet.
   */
  ghost predicate SummaryOf(df: DataFrame, s: Summary) {
    && (IsEmpty(df) <==> s == CannotVisualize)
    && (s.Report? ==>
      && s.rowCount == df.rowCount
      && (forall k :: 0 <= k < |s.bullets| ==>
            s.bullets[k].column < |df.columns| && Describes(s.bullets[k], df.columns[s.bullets[k].column]))
      && (forall k, l :: 0 <= k < l < |s.bullets| ==> s.bullets[k].column < s.bullets[l].column)
      && (forall j :: 0 <= j < |df.columns| && df.columns[j].kind != Other ==>
            exists k :: 0 <= k < |s.bullets| && s.bullets[k].column == j))
  }

  /** The bullets for the first `j` columns: one per datetime or numeric column, in column order. */
  function BulletsUpTo(columns: seq<Column>, j: nat): seq<Bullet>
    requires j <= |columns|
  {
    if j == 0 then []
    else
      var c := columns[j - 1];
      BulletsUpTo(columns, j - 1)
        + (if c.kind == Datetime then [RangeLine(j - 1)] else if c.kind == Numeric then [StatsLine(j - 1)] else [])
  }

  /** Extending the column range keeps the earlier bullets as a prefix. */
  lemma {:induction false} BulletsUpToPrefix(columns: seq<Column>, j: nat)
    requires 0 < j <= |columns|
    ensures var before := BulletsUpTo(columns, j - 1);
      var bs := BulletsUpTo(columns, j);
      |before| <= |bs| <= |before| + 1 && bs[..|before|] == before
      && (|bs| == |before| + 1 <==> columns[j - 1].kind != Other)
      && (|bs| == |before| + 1 ==> bs[|before|].column == j - 1 && Describes(bs[|before|], columns[j - 1]))
  {
    var before := BulletsUpTo(columns, j - 1);
    var bs := BulletsUpTo(columns, j);
    assert bs[..|before|] == before;
  }

  /** Every bullet for the first `j` columns names one of them and describes it. */
  lemma {:induction false} BulletsUpToInRange(columns: seq<Column>, j: nat)
    requires j <= |columns|
    ensures var bs := BulletsUpTo(columns, j);
      forall k :: 0 <= k < |bs| ==> bs[k].column < j && Describes(bs[k], columns[bs[k].column])
  {
    if j > 0 {
      BulletsUpToInRange(columns, j - 1);
      BulletsUpToPrefix(columns, j);
      var before := BulletsUpTo(columns, j - 1);
      var bs := BulletsUpTo(columns, j);
      forall k | 0 <= k < |bs| ensures bs[k].column < j && Describes(bs[k], columns[bs[k].column]) {
        if k < |before| {
          assert bs[k] == bs[..|before|][k];
        }
      }
    }
  }

  /** The bullets for the first `j` columns are in strictly increasing column order. */
  lemma {:induction false} BulletsUpToIncreasing(columns: seq<Column>, j: nat)
    requires j <= |columns|
    ensures var bs := BulletsUpTo(columns, j);
      forall k, l :: 0 <= k < l < |bs| ==> bs[k].column < bs[l].column
  {
    if j > 0 {
      BulletsUpToIncreasing(columns, j - 1);
      BulletsUpToInRange(columns, j - 1);
      BulletsUpToPrefix(columns, j);
      var before := BulletsUpTo(columns, j - 1);
      var bs := BulletsUpTo(columns, j);
      forall k, l | 0 <= k < l < |bs| ensures bs[k].column < bs[l].column {
        assert bs[k] == bs[..|before|][k];
        if l < |before| {
          assert bs[l] == bs[..|before|][l];
        }
      }
    }
  }

  /** Every datetime or numeric column among the first `j` has a bullet. */
  lemma {:induction false} BulletsUpToCover(columns: seq<Column>, j: nat)
    requires j <= |columns|
    ensures var bs := BulletsUpTo(columns, j);
      forall i :: 0 <= i < j && columns[i].kind != Other ==> exists k :: 0 <= k < |bs| && bs[k].column == i
  {
    if j > 0 {
      BulletsUpToCover(columns, j - 1);
      BulletsUpToPrefix(columns, j);
      var before := BulletsUpTo(columns, j - 1);
      var bs := BulletsUpTo(columns, j);
      forall i | 0 <= i < j && columns[i].kind != Other ensures exists k :: 0 <= k < |bs| && bs[k].column == i {
        if i < j - 1 {
          var k :| 0 <= k < |before| && before[k].column == i;
          assert bs[k] == bs[..|before|][k];
        } else {
          assert bs[|before|].column == i;
        }
      }
    }
  }

  /** `generate_data_summary`, with its loop adding one line per described column. */
  method GenerateDataSummary(df: DataFrame) returns (s: Summary)
    ensures s == (if IsEmpty(df) then CannotVisualize else Report(df.rowCount, BulletsUpTo(df.columns, |df.columns|)))
    ensures SummaryOf(df, s)
  {
    if IsEmpty(df) {
      return CannotVisualize;
    }
    var bullets: seq<Bullet> := [];
    for j := 0 to |df.columns|
      invariant bullets == BulletsUpTo(df.columns, j)
    {
      if df.columns[j].kind == Datetime {
        bullets := bullets + [RangeLine(j)];
      } else if df.columns[j].kind == Numeric {
        bullets := bullets + [StatsLine(j)];
      }
    }
    s := Report(df.rowCount, bullets);
    BulletsUpToInRange(df.columns, |df.columns|);
    BulletsUpToIncreasing(df.columns, |df.columns|);
    BulletsUpToCover(df.columns, |df.columns|);
  }

  /** What a chat bubble shows. */
  datatype Reply = Pending | Said(text: string) | SummaryReply(summary: Summary) | ImageRef(path: string)

  /** One `[user_message, reply]` pair of the chat history. */
  datatype Entry = Entry(user: string, reply: Reply)

  /** `user_input`: an empty textbox, and a new history with one pending entry for the message appended. */
  function UserInput(userMessage: string, history: seq<Entry>): (r: (string, seq<Entry>))
    ensures r.0 == ""
    ensures |r.1| == |history| + 1 && r.1[..|history|] == history
    ensures r.1[|history|] == Entry(userMessage, Pending)
  {
    ("", history + [Entry(userMessage, Pending)])
  }

  /** The result pane: plain text, or a rendering of (the first rows of) a frame. */
  datatype ResultPane = PaneText(text: string) | PanePreview(rows: DataFrame)

  /** Shown in the result pane for an empty frame. */
  const NoData := "无数据"

  /** How many rows of a charted result are previewed. */
  const PreviewRows := 10

  /** `text2viz.visualize(message)`: frame, image path and the SQL used. */
  datatype VizOutcome = VizOutcome(df: DataFrame, path: Option<string>, sql: string)

  /** `text2sql.query(message)`: response text, SQL and the database result. */
  datatype TextAnswer = TextAnswer(response: string, sql: string, dbResult: string)

  /** The collaborators of `bot_response`. */
  datatype Collaborators = Collaborators(
    api: Prompt -> ApiResponse,
    visualize: string -> VizOutcome,
    fileExists: string -> bool,
    query: string -> TextAnswer)

  /** The collaborator calls `bot_response` makes, in order. */
  datatype Step = Classified | Visualized | CheckedFile | QueriedText

  /** `viz_path and os.path.exists(viz_path)`: the existence test runs only for a non-empty path. */
  predicate ChartReady(v: VizOutcome, env: Collaborators) {
    v.path.Some? && v.path.value != "" && env.fileExists(v.path.value)
  }

  /** The preview of a charted frame. */
  function PreviewOf(df: DataFrame): (p: ResultPane)
    ensures IsEmpty(df) ==> p == PaneText(NoData)
    ensures !IsEmpty(df) ==>
      (p.PanePreview? && p.rows.rowCount == Min(PreviewRows, df.rowCount)
       && |p.rows.columns| == |df.columns|
       && forall j :: 0 <= j < |df.columns| ==>
            p.rows.columns[j].kind == df.columns[j].kind
            && p.rows.columns[j].cells == df.columns[j].cells[..p.rows.rowCount])
  {
    if IsEmpty(df) then PaneText(NoData) else PanePreview(Head(df, PreviewRows))
  }

  /** The chat history the interface holds. */
  class ChatHistory {
    var entries: seq<Entry>

    constructor (entries: seq<Entry>)
      ensures this.entries == entries
    {
      this.entries := entries;
    }
  }

  /**
   * `bot_response`: answers the last entry. General conversation: the classifier's
   * answer, empty panes, nothing else called. A data query flagged as visualisation
   * whose chart file exists: the summary as the reply, plus exactly one appended image
   * entry. Any other data query (not flagged, or no chart): the text answer, with the
   * history length unchanged.
   */
  method BotResponse(history: ChatHistory, env: Collaborators)
    returns (sqlPane: string, resultPane: ResultPane, ghost steps: seq<Step>)
    requires |history.entries| > 0
    modifies history
    ensures var before := old(history.entries);
      var message := before[|before| - 1].user;
      var earlier := before[..|before| - 1];
      var c := ClassifyConversation(message, env.api);
      var v := env.visualize(message);
      var a := env.query(message);
      && (c.kind == "general" ==>
            && history.entries == earlier + [Entry(message, Said(c.answer))]
            && sqlPane == "" && resultPane == PaneText("")
            && steps == [Classified])
      && (c.kind != "general" && MentionsVisualization(message) && ChartReady(v, env) ==>
            && |history.entries| == |before| + 1
            && history.entries[..|before| - 1] == earlier
            && history.entries[|before| - 1].user == message
            && history.entries[|before| - 1].reply.SummaryReply?
            && SummaryOf(v.df, history.entries[|before| - 1].reply.summary)
            && history.entries[|before|] == Entry("", ImageRef(v.path.value))
            && sqlPane == v.sql && resultPane == PreviewOf(v.df)
            && steps == [Classified, Visualized, CheckedFile])
      && (c.kind != "general" && MentionsVisualization(message) && !ChartReady(v, env) ==>
            && history.entries == earlier + [Entry(message, Said(a.response))]
            && sqlPane == a.sql && resultPane == PaneText(a.dbResult)
            && steps == [Classified, Visualized]
                        + (if v.path.Some? && v.path.value != "" then [CheckedFile] else [])
                        + [QueriedText])
      && (c.kind != "general" && !MentionsVisualization(message) ==>
            && history.entries == earlier + [Entry(message, Said(a.response))]
            && sqlPane == a.sql && resultPane == PaneText(a.dbResult)
            && steps == [Classified, QueriedText])
  {
    var last := |history.entries| - 1;
    var message := history.entries[last].user;
    var c := ClassifyConversation(message, env.api);
    steps := [Classified];
    if c.kind == "general" {
      history.entries := history.entries[last := Entry(message, Said(c.answer))];
      sqlPane, resultPane := "", PaneText("");
      return;
    }
    var wantsChart := IsVisualizationQuery(message);
    if wantsChart {
      var v := env.visualize(message);
      steps := steps + [Visualized];
      if v.path.Some? && v.path.value != "" {
        steps := steps + [CheckedFile];
      }
      if ChartReady(v, env) {
        var summary := GenerateDataSummary(v.df);
        var preview := PreviewOf(v.df);
        history.entries := history.entries[last := Entry(message, SummaryReply(summary))];
        history.entries := history.entries + [Entry("", ImageRef(v.path.value))];
        sqlPane, resultPane := v.sql, preview;
        return;
      }
    }
    var a := env.query(message);
    steps := steps + [QueriedText];
    history.entries := history.entries[last := Entry(message, Said(a.response))];
    sqlPane, resultPane := a.sql, PaneText(a.dbResult);
  }

  /**
   * A frame the chart step accepted is never summarised by the apology, and its
   * summary always has the sum/mean bullet of the y column, which charting made numeric.
   */
  lemma {:induction false} ChartedFrameHasStatsBullet(df: DataFrame, co: Text2Viz.Coercions, s: Summary)
    requires Text2Viz.CreateVisualization(df, co).path.Some?
    requires SummaryOf(Text2Viz.CreateVisualization(df, co).df, s)
    ensures s.Report? && s.rowCount >= 1
    ensures exists k :: 0 <= k < |s.bullets| && s.bullets[k] == StatsLine(1)
  {
    var charted := Text2Viz.CreateVisualization(df, co).df;
    assert charted.columns[1].kind == Numeric;
    var k :| 0 <= k < |s.bullets| && s.bullets[k].column == 1;
    assert Describes(s.bullets[k], charted.columns[1]);
  }
}
