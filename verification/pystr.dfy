/**
 * The Python `str` operations the pipeline is built from, on Dafny strings:
 * `startswith`, `endswith`, `in`, `find`, `strip`, `split`, `count` and `lower`.
 */
module PyStr {
  import opened Wrappers

  /** The characters `str.isspace` accepts; `str.strip()` without arguments removes these. */
  const Whitespace: set<char> := {
    '\t', '\n', '\U{B}', '\U{C}', '\r', '\U{1C}', '\U{1D}', '\U{1E}', '\U{1F}', ' ',
    '\U{85}', '\U{A0}', '\U{1680}',
    '\U{2000}', '\U{2001}', '\U{2002}', '\U{2003}', '\U{2004}', '\U{2005}',
    '\U{2006}', '\U{2007}', '\U{2008}', '\U{2009}', '\U{200A}',
    '\U{2028}', '\U{2029}', '\U{202F}', '\U{205F}', '\U{3000}'
  }

  /** `s.startswith(p)` */
  predicate IsPrefix(p: string, s: string) {
    |p| <= |s| && s[..|p|] == p
  }

  /** `s.endswith(p)` */
  predicate IsSuffix(p: string, s: string) {
    |p| <= |s| && s[|s| - |p|..] == p
  }

  /** `p in s`: some position of `s` starts with `p`. */
  predicate Contains(s: string, p: string)
    decreases |s|
  {
    IsPrefix(p, s) || (|s| > 0 && Contains(s[1..], p))
  }

  /** Every character of `s` is in `cs`. */
  predicate AllIn(s: string, cs: set<char>) {
    forall k :: 0 <= k < |s| ==> s[k] in cs
  }

  /** `s.find(sep)` for a non-empty separator: the first position where `sep` occurs. */
  function FirstAt(s: string, sep: string): (r: Option<nat>)
    requires sep != ""
    ensures r.Some? ==> r.value + |sep| <= |s| && IsPrefix(sep, s[r.value..])
    ensures r.Some? ==> forall k :: 0 <= k < r.value ==> !IsPrefix(sep, s[k..])
    ensures r.None? ==> forall k :: 0 <= k <= |s| ==> !IsPrefix(sep, s[k..])
    decreases |s|
  {
    if |s| < |sep| then None
    else if IsPrefix(sep, s) then Some(0)
    else
      assert forall j :: 1 <= j <= |s| ==> s[j..] == s[1..][j - 1..];
      match FirstAt(s[1..], sep)
      case None => None
      case Some(k) => Some(k + 1)
  }

  /** `s.lstrip(cs)`: drops the longest prefix made of characters in `cs`. */
  function TrimLeft(s: string, cs: set<char>): (r: string)
    ensures |r| <= |s| && r == s[|s| - |r|..]
    ensures AllIn(s[..|s| - |r|], cs)
    ensures r != [] ==> r[0] !in cs
    decreases |s|
  {
    if |s| > 0 && s[0] in cs then
      var r := TrimLeft(s[1..], cs);
      assert s[..|s| - |r|] == [s[0]] + s[1..][..|s| - 1 - |r|];
      r
    else s
  }

  /** `s.rstrip(cs)`: drops the longest suffix made of characters in `cs`. */
  function TrimRight(s: string, cs: set<char>): (r: string)
    ensures |r| <= |s| && r == s[..|r|]
    ensures AllIn(s[|r|..], cs)
    ensures r != [] ==> r[|r| - 1] !in cs
    decreases |s|
  {
    if |s| > 0 && s[|s| - 1] in cs then
      var r := TrimRight(s[..|s| - 1], cs);
      assert s[|r|..] == s[..|s| - 1][|r|..] + [s[|s| - 1]];
      r
    else s
  }

  /** `s.strip(chars)`: no character of `cs` remains at either end. */
  function StripChars(s: string, cs: set<char>): (r: string)
    ensures |r| <= |s|
    ensures r != [] ==> r[0] !in cs && r[|r| - 1] !in cs
  {
    var l := TrimLeft(s, cs);
    var r := TrimRight(l, cs);
    assert r != [] ==> r[0] == l[0];
    r
  }

  /** `s.strip()` */
  function Strip(s: string): string {
    StripChars(s, Whitespace)
  }

  lemma {:induction false} TrimLeftNoop(s: string, cs: set<char>)
    requires s == [] || s[0] !in cs
    ensures TrimLeft(s, cs) == s
  {
  }

  lemma {:induction false} TrimRightNoop(s: string, cs: set<char>)
    requires s == [] || s[|s| - 1] !in cs
    ensures TrimRight(s, cs) == s
  {
  }

  /** Characters of `cs` in front of `t` are all dropped by `lstrip`. */
  lemma {:induction false} TrimLeftPadded(lead: string, t: string, cs: set<char>)
    requires AllIn(lead, cs)
    ensures TrimLeft(lead + t, cs) == TrimLeft(t, cs)
    decreases |lead|
  {
    if lead != [] {
      assert (lead + t)[1..] == lead[1..] + t;
      TrimLeftPadded(lead[1..], t, cs);
    } else {
      assert lead + t == t;
    }
  }

  /** Characters of `cs` after `t` are all dropped by `rstrip`. */
  lemma {:induction false} TrimRightPadded(t: string, trail: string, cs: set<char>)
    requires AllIn(trail, cs)
    ensures TrimRight(t + trail, cs) == TrimRight(t, cs)
    decreases |trail|
  {
    if trail != [] {
      var n := |trail| - 1;
      assert (t + trail)[..|t + trail| - 1] == t + trail[..n];
      TrimRightPadded(t, trail[..n], cs);
    } else {
      assert t + trail == t;
    }
  }

  /** Padding a string that has no `cs` character at either end, then stripping, gives the string back. */
  lemma {:induction false} StripCharsPadded(lead: string, t: string, trail: string, cs: set<char>)
    requires AllIn(lead, cs) && AllIn(trail, cs)
    requires t == [] || (t[0] !in cs && t[|t| - 1] !in cs)
    ensures StripChars(lead + t + trail, cs) == t
  {
    assert lead + t + trail == lead + (t + trail);
    TrimLeftPadded(lead, t + trail, cs);
    if t == [] {
      assert t + trail == trail + [];
      TrimLeftPadded(trail, [], cs);
      assert TrimLeft(t + trail, cs) == [];
    } else {
      assert (t + trail)[0] == t[0];
      TrimLeftNoop(t + trail, cs);
      TrimRightPadded(t, trail, cs);
      TrimRightNoop(t, cs);
    }
  }

  /** Cutting `s` around an occurrence of `sep` at `k`. */
  lemma {:induction false} CutAt(s: string, sep: string, k: nat)
    requires k + |sep| <= |s| && IsPrefix(sep, s[k..])
    ensures s == s[..k] + sep + s[k + |sep|..]
  {
    assert s[k..k + |sep|] == s[k..][..|sep|];
  }

  /** `s.split(sep)` for a non-empty separator: the pieces between non-overlapping occurrences, left to right. */
  function Split(s: string, sep: string): (pieces: seq<string>)
    requires sep != ""
    ensures |pieces| >= 1
    decreases |s|
  {
    match FirstAt(s, sep)
    case None => [s]
    case Some(k) => [s[..k]] + Split(s[k + |sep|..], sep)
  }

  /** `sep.join(pieces)` */
  function Join(pieces: seq<string>, sep: string): string
    decreases |pieces|
  {
    if pieces == [] then ""
    else if |pieces| == 1 then pieces[0]
    else pieces[0] + sep + Join(pieces[1..], sep)
  }

  /** `s.count(sep)`: non-overlapping occurrences, scanning left to right. */
  function Count(s: string, sep: string): nat
    requires sep != ""
    decreases |s|
  {
    if |s| < |sep| then 0
    else if IsPrefix(sep, s) then 1 + Count(s[|sep|..], sep)
    else Count(s[1..], sep)
  }

  /** Joining the pieces with the separator gives back the string that was split. */
  lemma {:induction false} JoinSplit(s: string, sep: string)
    requires sep != ""
    ensures Join(Split(s, sep), sep) == s
    decreases |s|
  {
    match FirstAt(s, sep)
    case None =>
    case Some(k) =>
      JoinSplit(s[k + |sep|..], sep);
      CutAt(s, sep, k);
  }

  /** Skipping a stretch of `s` in which no occurrence starts leaves the count unchanged. */
  lemma {:induction false} CountSkip(s: string, sep: string, k: nat)
    requires sep != "" && k <= |s|
    requires forall j :: 0 <= j < k ==> !IsPrefix(sep, s[j..])
    ensures Count(s, sep) == Count(s[k..], sep)
    decreases k
  {
    if k > 0 {
      assert !IsPrefix(sep, s[0..]);
      assert s[0..] == s;
      if |s| >= |sep| {
        assert Count(s, sep) == Count(s[1..], sep);
        forall j | 0 <= j < k - 1 ensures !IsPrefix(sep, s[1..][j..]) {
          assert s[1..][j..] == s[j + 1..];
        }
        CountSkip(s[1..], sep, k - 1);
        assert s[1..][k - 1..] == s[k..];
      } else {
        assert Count(s[k..], sep) == 0;
      }
    }
  }

  /** `s.split(sep)` has exactly `s.count(sep) + 1` pieces. */
  lemma {:induction false} SplitCount(s: string, sep: string)
    requires sep != ""
    ensures |Split(s, sep)| == Count(s, sep) + 1
    decreases |s|
  {
    match FirstAt(s, sep)
    case None =>
      if |s| >= |sep| {
        var k := |s| - |sep| + 1;
        CountSkip(s, sep, k);
        assert Count(s[k..], sep) == 0;
      }
    case Some(k) =>
      CountSkip(s, sep, k);
      assert s[k..][|sep|..] == s[k + |sep|..];
      SplitCount(s[k + |sep|..], sep);
  }

  /** ASCII case mapping of `str.lower`. */
  function LowerChar(c: char): char {
    if 'A' <= c <= 'Z' then (c as int + 32) as char else c
  }

  /** `s.lower()`, restricted to the ASCII letters. */
  function Lower(s: string): (r: string)
    ensures |r| == |s|
    ensures forall i :: 0 <= i < |s| ==> r[i] == LowerChar(s[i])
  {
    seq(|s|, i requires 0 <= i < |s| => LowerChar(s[i]))
  }
}
