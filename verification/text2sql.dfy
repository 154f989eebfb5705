/**
 * The answer chain of `text2sql.py`: generate SQL, clean it, execute it, wrap the
 * result, and hand question, cleaned SQL and result to the answer template and model.
 */
module Text2Sql {
  import opened PyStr
  import opened SqlClean

  /** The single key under which the executed result is passed on. */
  const RawResultKey := "raw_result"

  /** `format_result_wrapper`: the result, unchanged, under exactly one key. */
  function FormatResultWrapper(result: string): (m: map<string, string>)
    ensures m.Keys == {RawResultKey}
    ensures m[RawResultKey] == result
  {
    map[RawResultKey := result]
  }

  /** The three fields the answer template is filled with. */
  datatype AnswerFields = AnswerFields(question: string, cleanQuery: string, result: map<string, string>)

  /** One invocation: what reached the template, and the model's answer. */
  datatype AnswerRun = AnswerRun(fields: AnswerFields, answer: string)

  /**
   * The question passes through unchanged; the SQL that is executed and shown to
   * the answer model is the cleaned one; the result arrives wrapped under its key.
   */
  function InvokeAnswerChain(
    question: string,
    writeQuery: string -> string,
    executeQuery: string -> string,
    answer: AnswerFields -> string
  ): (run: AnswerRun)
    ensures run.fields.question == question
    ensures run.fields.cleanQuery == CleanSqlResponse(writeQuery(question))
    ensures run.fields.result.Keys == {RawResultKey}
    ensures run.fields.result[RawResultKey] == executeQuery(run.fields.cleanQuery)
    ensures run.answer == answer(run.fields)
  {
    var cleanQuery := CleanSqlResponse(writeQuery(question));
    var fields := AnswerFields(question, cleanQuery, FormatResultWrapper(executeQuery(cleanQuery)));
    AnswerRun(fields, answer(fields))
  }
}
