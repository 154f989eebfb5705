# text2sql turn pipeline, modelled in Dafny

The system answers questions about a sales database in a chat window. Each user turn is
first classified by a language model as general conversation or a data question. A general
turn is answered by a second model call. A data turn goes one of two ways:

- **Chart.** A visualisation request (a fixed list of keywords) runs the chart pipeline:
  1. the model writes SQL prefixed with `SQLQuery:`;
  2. the prefix is cleaned off;
  3. the statement is executed;
  4. the textual result is parsed into a typed table;
  5. the table is charted to `t1.png` when it has at least two columns and some rows.
- **Text.** Otherwise, or when no chart file results, the text pipeline answers. It runs the
  same generate, clean and execute steps, then has the model phrase an answer.

A separate dialogue store keeps an append-only message log per session.

The model has one module per source file plus four shared modules:

- `Wrappers`: an `Option` type.
- `Clock`: the `Instant` type of clock readings.
- `PyStr`: the Python `str` operations used, with Python semantics. `strip` removes the
  full `isspace` set; `split` and `count` are first-occurrence and non-overlapping; `lower`
  is modelled on ASCII letters.
- `Frame`: an abstract pandas frame. It has positional columns, a dtype family per column
  and one cell per row.

The other modules are:

- `SqlClean`: the `clean_sql_response` function. It is defined once, because
  `sql_chain.py`, `text2sql.py` and `text2viz.py` carry identical copies.
- `SqlChain`, `Text2Sql`, `Text2Viz` and `LlmClient`.
- `Dialogue`: the `DialogueContext` class.
- `App`: the Gradio callbacks.

Collaborators appear as function-valued parameters: the language model, the database tool,
`ast.literal_eval` with `pd.DataFrame`, `pd.to_datetime`, `pd.to_numeric`, file existence,
and the `Text2SQL.query` and `Text2Viz.visualize` methods that `app.py` calls. Clock
readings are parameters too.

Notes on what the code does:

- The code executes whatever the cleaned text is. It does not extract a `SELECT` statement.
- It never reuses the previous turn's SQL from the dialogue store.
- It charts a table whose y column coerces to all-missing values instead of giving up.
- It always writes the chart to the fixed file `t1.png`, not a timestamped name.
- It names columns positionally (`0`, `1`, …), as pandas does for a frame built from tuples.
  The chart title is therefore always `1 by 0`.

## Model

| member | source | states |
|---|---|---|
| SqlClean.SplitOnce | sql_chain.py:12 | `split(sep, 1)`: one piece when the separator never occurs. Otherwise two pieces that re-join around the first occurrence, with no earlier occurrence. |
| SqlClean.CleanSqlResponse | sql_chain.py:8-13 | A response starting with `SQLQuery:` becomes the whitespace-stripped text after the marker. Any other response is returned unchanged. The result is never longer than the input. The same copy is at text2sql.py:83-87 and text2viz.py:100-104. |
| SqlClean.CleanRoundTrip | sql_chain.py:10-12 | Marker, any whitespace, a trimmed statement, any whitespace: cleaning gives back exactly the statement. |
| SqlClean.CleanedIsTrimmed | sql_chain.py:12 | A cleaned prefixed response has no whitespace at either end. |
| SqlClean.CleanIdempotent | sql_chain.py:13 | Cleaning is idempotent when the first cleaning leaves no marker in front. A response without the marker is a fixed point. |
| SqlClean.OnlyOneMarkerRemoved | sql_chain.py:12 | Only one marker is removed: `"SQLQuery:SQLQuery: x"` cleans to `"SQLQuery: x"`. |
| SqlClean.LaterMarkerKept | sql_chain.py:10-13 | A marker that appears later in the text is not removed. |
| SqlClean.NotIdempotentInGeneral | sql_chain.py:12 | Cleaning `"SQLQuery:SQLQuery: x"` twice gives `"x"`, so cleaning is not idempotent on every input. |
| SqlChain.InvokeSqlChain | sql_chain.py:27 | Generation comes first. The database receives the cleaned statement, and the chain's output is the database result for it. |
| SqlChain.MarkedStatementReachesDatabase | sql_chain.py:27 | When the model writes marker, whitespace and a trimmed statement, the database receives exactly that statement. |
| Text2Sql.FormatResultWrapper | text2sql.py:89-91 | A mapping with exactly one key, `raw_result`, whose value is the input unchanged. |
| Text2Sql.InvokeAnswerChain | text2sql.py:104-124 | The question passes through unchanged. The executed and reported SQL is the cleaned model output. The result arrives wrapped under `raw_result`. The answer is the model's reply to exactly these three fields. |
| Frame.Width | text2viz.py:113 | The width of a row list is the length of its longest row. |
| Frame.FromRows | text2viz.py:113-118 | `pd.DataFrame(rows)`: one row per element and as many columns as the longest row. Shorter rows are padded with missing cells, and every cell keeps its place. |
| Frame.Head | app.py:126 | `df.head(n)`: the first min(n, rows) rows of every column, with dtypes kept. |
| Text2Viz.FallbackSplitShape | text2viz.py:118 | Fallback parse: rows = number of `), (` separators + 1, and cells in a row = commas in its piece + 1. Re-joining gives the pieces back, so cells keep their inner spaces and quotes. |
| Text2Viz.FallbackPairs | text2viz.py:118 | For `[(a0,b0), (a1,b1)]` whose cells contain no comma, parenthesis or bracket, the fallback parse recovers exactly the four cell texts. |
| Text2Viz.FallbackRows | text2viz.py:118 | The fallback rows are the split strings as text cells, in place. |
| Text2Viz.RawFrame | text2viz.py:108-121 | Text not both starting with `[` and ending with `]` gives the empty frame. Otherwise, when `literal_eval` succeeds, `pd.DataFrame` of its rows. When it raises, the frame of the fallback split, which always has at least one row and one column. |
| Text2Viz.ToDatetime | text2viz.py:127 | `to_datetime` succeeds exactly when no cell is unparseable. On success it gives a datetime column of the same length, with each cell's parse in place. |
| Text2Viz.ToNumeric | text2viz.py:134 | `to_numeric(errors='coerce')`: a numeric column of the same length. Each cell is its number or missing. |
| Text2Viz.ConvertColumn | text2viz.py:124-136 | Datetime first; numeric only if datetime fails. The column keeps its length and always ends up datetime or numeric. A datetime result is exactly the column's `to_datetime` parse, and a numeric result exactly its `to_numeric` coercion. |
| Text2Viz.TypedFrame | text2viz.py:106-138 | The converted frame has the raw frame's rows and columns, each column converted. A non-list result gives the empty frame. |
| Text2Viz.ConvertColumns | text2viz.py:124-136 | Converting a frame's columns keeps its row count and column count and replaces each column by its converted form. |
| Text2Viz.ConvertEachColumn | text2viz.py:124-136 | The loop over the columns, replacing one column per step, computes exactly `ConvertColumns`. |
| Text2Viz.ConvertToDataFrame | text2viz.py:106-138 | The gate, the parsers and the column loop together compute exactly `TypedFrame`. |
| Text2Viz.CreateVisualization | text2viz.py:140-178 | Path present iff at least 2 columns and not empty. An infeasible frame is returned unchanged. Otherwise: a non-numeric y (column 1) is coerced and nothing else changes; the plot is a marker line iff x (column 0) is datetime, else bars; x and y are in row order; title `1 by 0`; file `t1.png`. |
| Text2Viz.VisualizationChain | text2viz.py:181-197 | The executed SQL is the cleaned model output. The output is exactly the frame and path `create_visualization` returns for the converted result. |
| Text2Viz.NonListNeverCharted | text2viz.py:108-144 | A result that is not list-shaped never yields a chart path. |
| LlmClient.Call | llm_client.py:26-61 | An API error is re-raised. Missing or empty choices give the fixed error string. Otherwise the contents of all choices are concatenated in order; a `None` content raises. Stop tokens are applied when given. |
| LlmClient.SimpleCall | llm_client.py:63-65 | `simple_call` is `_call` with no stop tokens, whatever `enforce_stop_tokens` would do. |
| LlmClient.ClassifyConversation | llm_client.py:67-128 | The kind is `general` or `data`. `data` always has an empty answer. `general` iff the first reply contains `普通对话` and the second call succeeds; its answer is that second reply. |
| LlmClient.ClassifyFailsOpen | llm_client.py:125-128 | An API error in either call yields `("data", "")`. |
| LlmClient.LabelContainmentSuffices | llm_client.py:91-92 | A reply merely containing the label (`回答：普通对话。`) counts as general. |
| LlmClient.NoChoicesMeansData | llm_client.py:47-92 | A response with no choices makes the classifier answer `data`, since the error text lacks the label. |
| LlmClient.NoLabelInAscii | llm_client.py:92 | No ASCII-only text contains the label. |
| Dialogue.SliceStart | dialogue_context.py:50 | Python's start index of `s[k:]`, including negative and out-of-range `k`. |
| Dialogue.DialogueContext.constructor | dialogue_context.py:8-12 | Empty log, and no session id or start time. |
| Dialogue.DialogueContext.StartNewSession | dialogue_context.py:14-20 | Sets the given id and start time, empties the log, and returns the id. |
| Dialogue.DialogueContext.AddMessage | dialogue_context.py:22-39 | Appends exactly one message, with earlier ones unchanged. Role and content are stored as given, and missing metadata becomes `{}`. A session is started first if none exists, so afterwards one always does. The session's start time and the message's timestamp are separate clock readings. |
| Dialogue.DialogueContext.GetContextWindow | dialogue_context.py:41-50 | The size defaults to 5. Always a suffix of the log; `[]` on an empty log. For n ≥ 1, the last min(n, len) messages. For n = 0, the whole log. A negative n drops that many from the front. |
| Dialogue.DialogueContext.GetAllMessages | dialogue_context.py:52-54 | The whole log. |
| Dialogue.DialogueContext.ClearContext | dialogue_context.py:56-61 | Empty log; session id and start time reset. |
| Dialogue.DialogueContext.GetSessionInfo | dialogue_context.py:63-73 | Only the no-session status iff there is no session. Otherwise the id, the start time, message count = log length, and elapsed time since the start. |
| App.IsVisualizationQuery | app.py:15-27 | True iff some keyword occurs in the lower-cased query. |
| App.EmptyQueryIsNotVisualization | app.py:17-27 | The empty query is never a visualisation request. |
| App.UpperCaseKeywordMatches | app.py:25 | Matching is on the lower-cased query, so `CHART` matches. |
| App.GenerateDataSummary | app.py:51-68 | The apology iff the frame is empty. Otherwise the row count, plus one bullet per datetime or numeric column in column order: a range for datetime, stats for numeric. Other columns get none. The loop's bullets are exactly those of the column-by-column specification `BulletsUpTo`. |
| App.BulletsUpToPrefix | app.py:62-66 | Visiting one more column keeps the earlier bullets. It adds exactly one bullet iff that column is datetime or numeric, and that bullet describes it. |
| App.BulletsUpToInRange | app.py:62-66 | Every bullet for the first `j` columns names one of them and matches its dtype. |
| App.BulletsUpToIncreasing | app.py:62-66 | Bullets follow column order strictly, so no column is described twice. |
| App.BulletsUpToCover | app.py:62-66 | Every datetime or numeric column among the first `j` has a bullet. |
| App.UserInput | app.py:102-104 | An empty textbox, and the history with exactly one pending entry for the message appended, earlier entries unchanged. |
| App.PreviewOf | app.py:126 | `无数据` for an empty frame. Otherwise exactly the first min(10, rows) rows of every column, with dtypes kept. |
| App.BotResponse | app.py:107-146 | General: the last reply becomes the answer, both panes are empty, nothing else is called. Visualisation with an existing chart file: the last reply becomes the summary and exactly one image entry is appended; the panes show the SQL and the preview. Otherwise: the last reply becomes the text answer, with no entry added. |
| App.ChartedFrameHasStatsBullet | app.py:53-66 | A frame that was charted is never summarised by the apology. Its summary always has the stats bullet of the y column, which charting made numeric. |

## Left out

- HTTP calls to the model service (the OpenAI client and `chat.completions.create`) are not modelled. Each call's outcome is an input, an `ApiResponse` per prompt.
- `enforce_stop_tokens` is a parameter of `LlmClient.Call`.
- The text of the two classifier prompt templates is not modelled. The prompts appear only as which prompt it is and which question it carries.
- The `SiliconFlow` copies in `text2sql.py` and `text2viz.py` (text2sql.py:19-62, text2viz.py:37-80) are not modelled. They raise on a response without choices instead of returning the error text. Only the `llm_client.py` version, which the classifier uses, is modelled.
- LangChain plumbing is not modelled: `create_sql_query_chain`, `QuerySQLDataBaseTool`, `SQLDatabase.from_uri`, the prompt template rendering and `StrOutputParser`. SQL writing, execution and answering are functions given as inputs.
- The module-level `chain.invoke` at import time (text2sql.py:127-128) is left out. So are the `__main__` example (sql_chain.py:32-39) and `main` in `text2viz.py`, which are I/O scripts.
- `ast.literal_eval`, `pd.to_datetime` and `pd.to_numeric` are abstract collaborators. Their dtype inference, time zones and `to_numeric` raising are not modelled. pandas parses an integer column as epoch times; the collaborator may return such parses, and the model does not settle it.
- Matplotlib and seaborn drawing, `savefig`, figure size and tick rotation are I/O. Only the plot family, title, labels and series are modelled.
- Float sums, means, date minima and maxima, and their `.2f` and `.date()` rendering in `generate_data_summary` are floating-point and formatting. Only the line structure (which bullet for which column) is modelled.
- The `to_string(index=False)` rendering of the preview is left out. The preview is the head frame itself.
- `datetime.now()`, ISO timestamp rendering and session-id formatting are clock I/O. Instants and the id are parameters, and the id is any non-empty string.
- Logging throughout, and `sql_logger.py`, are not modelled.
- The Gradio layout, event wiring and `main` (app.py:71-177) are UI.
- `process_query` (app.py:30-48) is not wired to the interface. It unpacks `visualize` differently from `bot_response`.
- `test_text2sql.py` imports a `run_query` that does not exist. `setup.py` is package metadata.
- The `Text2SQL` and `Text2Viz` classes that `app.py` instantiates are not part of this model. Their `query` and `visualize` methods are collaborators of `App.BotResponse`.
- Frame.FromRows: the dtype pandas infers for the raw frame is not modelled; the contract states rows, columns and cells only. Every raw column is built as `Other`, and the type loop replaces each kind without reading it.
- PyStr.Lower: only ASCII letters are lower-cased. Python's `str.lower` also maps other scripts' capitals; none of the keywords needs that.
- Dialogue.DialogueContext.AddMessage: the timestamp is the instant, not its ISO string, and metadata values are strings rather than arbitrary Python objects.
- Dialogue.DialogueContext.GetAllMessages: returns the log as a value. Python returns the list object itself, so later appends would show through that alias.
- Dialogue.DialogueContext.GetSessionInfo: the start time is an instant, and the duration is a difference of instants rather than float seconds.
- App.GenerateDataSummary: states which bullet each column gets, not the rendered text of the header, row-count line and bullets.
- App.BotResponse: the history is a sequence field of a class. Gradio's nested-list aliasing of the entries is not modelled, and the `steps` log of collaborator calls is ghost.
- Text2Viz.CreateVisualization: `is_numeric_dtype` and `is_datetime64_dtype` are read off the column's dtype family. Boolean and time-zone-aware dtypes are not distinguished.
