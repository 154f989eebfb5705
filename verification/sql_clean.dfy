/**
 * `clean_sql_response`: the SQL-producing chain answers "SQLQuery: <statement>";
 * the marker is cut off before the statement is executed. The three source files
 * that use it carry identical copies; this module is the one definition.
 */
module SqlClean {
  import opened Wrappers
  import opened PyStr

  /** The marker the SQL-writing chain puts in front of its statement. */
  const Marker := "SQLQuery:"

  /** `s.split(sep, 1)`: at most one cut, made at the first occurrence of `sep`. */
  function SplitOnce(s: string, sep: string): (parts: seq<string>)
    requires sep != ""
    ensures 1 <= |parts| <= 2
    ensures |parts| == 1 ==> parts[0] == s && forall k :: 0 <= k <= |s| ==> !IsPrefix(sep, s[k..])
    ensures |parts| == 2 ==> parts[0] + sep + parts[1] == s
    ensures |parts| == 2 ==> forall k :: 0 <= k < |parts[0]| ==> !IsPrefix(sep, s[k..])
  {
    match FirstAt(s, sep)
    case None => [s]
    case Some(k) =>
      CutAt(s, sep, k);
      [s[..k], s[k + |sep|..]]
  }

  /**
   * A response that starts with the marker becomes what follows the marker,
   * with surrounding whitespace stripped; any other response is returned as it is.
   */
  function CleanSqlResponse(response: string): (r: string)
    ensures IsPrefix(Marker, response) ==> r == Strip(response[|Marker|..])
    ensures !IsPrefix(Marker, response) ==> r == response
    ensures |r| <= |response|
  {
    if IsPrefix(Marker, response) then
      var parts := SplitOnce(response, Marker);
      assert IsPrefix(Marker, response[0..]) by { assert response[0..] == response; }
      assert |parts| == 2 && parts[0] == "";
      assert parts[1] == response[|Marker|..];
      Strip(parts[1])
    else response
  }

  /**
   * Round trip: a trimmed statement written after the marker, with any whitespace
   * around it, is cleaned back to exactly that statement.
   */
  lemma {:induction false} CleanRoundTrip(lead: string, sql: string, trail: string)
    requires AllIn(lead, Whitespace) && AllIn(trail, Whitespace)
    requires sql == [] || (sql[0] !in Whitespace && sql[|sql| - 1] !in Whitespace)
    ensures CleanSqlResponse(Marker + lead + sql + trail) == sql
  {
    var s := Marker + lead + sql + trail;
    assert s[..|Marker|] == Marker;
    assert s[|Marker|..] == lead + sql + trail;
    StripCharsPadded(lead, sql, trail, Whitespace);
  }

  /** A cleaned prefixed response carries no whitespace at either end. */
  lemma {:induction false} CleanedIsTrimmed(response: string)
    requires IsPrefix(Marker, response)
    ensures var r := CleanSqlResponse(response);
      r == [] || (r[0] !in Whitespace && r[|r| - 1] !in Whitespace)
  {
    var r := Strip(response[|Marker|..]);
    assert r == CleanSqlResponse(response);
  }

  /**
   * Cleaning is idempotent whenever the first cleaning leaves no marker in front:
   * in particular on every response that did not start with the marker.
   */
  lemma {:induction false} CleanIdempotent(response: string)
    requires !IsPrefix(Marker, CleanSqlResponse(response))
    ensures CleanSqlResponse(CleanSqlResponse(response)) == CleanSqlResponse(response)
    ensures !IsPrefix(Marker, response) ==> CleanSqlResponse(response) == response
  {
  }

  /** Only one marker is removed: a doubled marker leaves the second one in place. */
  lemma {:induction false} OnlyOneMarkerRemoved()
    ensures CleanSqlResponse("SQLQuery:SQLQuery: x") == "SQLQuery: x"
  {
    var s := "SQLQuery:SQLQuery: x";
    assert IsPrefix(Marker, s);
    var rest := s[|Marker|..];
    assert rest == "SQLQuery: x";
    assert rest[0] !in Whitespace && rest[|rest| - 1] !in Whitespace;
    TrimLeftNoop(rest, Whitespace);
    TrimRightNoop(rest, Whitespace);
  }

  /** A marker that appears later in a response is not removed. */
  lemma {:induction false} LaterMarkerKept()
    ensures CleanSqlResponse("SELECT 1 -- SQLQuery:") == "SELECT 1 -- SQLQuery:"
  {
    assert !IsPrefix(Marker, "SELECT 1 -- SQLQuery:") by {
      assert "SELECT 1 -- SQLQuery:"[..|Marker|][1] == 'E' != Marker[1];
    }
  }

  /** Cleaning the marker's output twice strips the inner marker as well, so cleaning is not idempotent in general. */
  lemma {:induction false} NotIdempotentInGeneral()
    ensures CleanSqlResponse(CleanSqlResponse("SQLQuery:SQLQuery: x")) == "x"
  {
    OnlyOneMarkerRemoved();
    var s := "SQLQuery: x";
    assert IsPrefix(Marker, s);
    var rest := s[|Marker|..];
    assert rest == " x";
    assert TrimLeft(rest, Whitespace) == "x" by {
      assert rest[0] in Whitespace;
      assert rest[1..] == "x";
      TrimLeftNoop("x", Whitespace);
    }
    TrimRightNoop("x", Whitespace);
  }
}
