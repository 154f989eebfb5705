/**
 * `setup_sql_chain`: the SQL-writing model, then `clean_sql_response`, then the
 * database tool. The model and the database are collaborators given as functions.
 */
module SqlChain {
  import opened PyStr
  import opened SqlClean

  /** What one invocation of the chain passed from stage to stage. */
  datatype ChainRun = ChainRun(generated: string, executed: string, result: string)

  /**
   * Generation comes first, cleaning second, execution last: the database
   * receives the cleaned statement, never the raw model output with its marker.
   */
  function InvokeSqlChain(question: string, writeQuery: string -> string, executeQuery: string -> string): (run: ChainRun)
    ensures run.generated == writeQuery(question)
    ensures IsPrefix(Marker, run.generated) ==> run.executed == Strip(run.generated[|Marker|..])
    ensures !IsPrefix(Marker, run.generated) ==> run.executed == run.generated
    ensures run.result == executeQuery(run.executed)
  {
    var generated := writeQuery(question);
    var cleaned := CleanSqlResponse(generated);
    ChainRun(generated, cleaned, executeQuery(cleaned))
  }

  /**
   * When the model writes the marker, then any whitespace, a trimmed statement and
   * any whitespace, the database receives exactly that statement.
   */
  lemma {:induction false} MarkedStatementReachesDatabase(
    question: string, lead: string, sql: string, trail: string,
    writeQuery: string -> string, executeQuery: string -> string)
    requires writeQuery(question) == Marker + lead + sql + trail
    requires AllIn(lead, Whitespace) && AllIn(trail, Whitespace)
    requires sql == [] || (sql[0] !in Whitespace && sql[|sql| - 1] !in Whitespace)
    ensures InvokeSqlChain(question, writeQuery, executeQuery).executed == sql
    ensures InvokeSqlChain(question, writeQuery, executeQuery).result == executeQuery(sql)
  {
    CleanRoundTrip(lead, sql, trail);
  }
}
