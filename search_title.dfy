/**
 * `search_title` (tools/cebta/search/tools_8.py): search work titles; the query must have at
 * least three characters once surrounding whitespace is stripped.
 */
module SearchTitle {
  import opened Wrappers
  import opened Json
  import opened Responses

  const TitleUrl: string := "https://api.cbetaonline.cn/search/title"
  const TooShort: string := "搜尋關鍵字至少需三個字以上"
  const FailPrefix: string := "外部 API 請求失敗: "

  datatype TitleParams = TitleParams(q: string, rows: Option<int>, start: Option<int>)

  /** The parameters with their declared defaults, as validation fills them in when omitted. */
  function WithDefaults(q: string): TitleParams
  {
    TitleParams(q, Some(20), Some(0))
  }

  /** Python's `str.isspace()` for one character: the characters `str.strip()` removes. */
  predicate IsSpace(c: char)
  {
    ('\t' <= c <= '\r') || ('\U{1C}' <= c <= ' ') || c == '\U{85}' || c == '\U{A0}' || c == '\U{1680}' ||
    ('\U{2000}' <= c <= '\U{200A}') || c == '\U{2028}' || c == '\U{2029}' || c == '\U{202F}' || c == '\U{205F}' ||
    c == '\U{3000}'
  }

  /** The number of leading whitespace characters. */
  function LeadingSpace(s: string): (n: nat)
    ensures n <= |s|
    ensures forall k :: 0 <= k < n ==> IsSpace(s[k])
    ensures n < |s| ==> !IsSpace(s[n])
  {
    if s == [] || !IsSpace(s[0]) then 0 else 1 + LeadingSpace(s[1..])
  }

  /** The length of `s` without its trailing whitespace. */
  function TrailingStart(s: string): (n: nat)
    ensures n <= |s|
    ensures forall k :: n <= k < |s| ==> IsSpace(s[k])
    ensures n > 0 ==> !IsSpace(s[n - 1])
  {
    if s == [] || !IsSpace(s[|s| - 1]) then |s| else TrailingStart(s[..|s| - 1])
  }

  /** `s[..i]` and `s[j..]` are whitespace. */
  predicate StrippedAt(s: string, i: int, j: int)
  {
    0 <= i <= j <= |s| && (forall k :: 0 <= k < i ==> IsSpace(s[k])) && (forall k :: j <= k < |s| ==> IsSpace(s[k]))
  }

  /** `s.strip()`: a slice of `s` with only whitespace cut from either end, not beginning or ending with whitespace. */
  function Strip(s: string): (r: string)
    ensures exists i, j :: StrippedAt(s, i, j) && r == s[i..j]
    ensures r != [] ==> !IsSpace(r[0]) && !IsSpace(r[|r| - 1])
  {
    var t := s[LeadingSpace(s)..];
    var r := t[..TrailingStart(t)];
    assert r == s[LeadingSpace(s)..LeadingSpace(s) + TrailingStart(t)];
    r
  }

  /** Stripping twice strips nothing more. */
  lemma StripIdempotent(s: string)
    ensures Strip(Strip(s)) == Strip(s)
  {
    var r := Strip(s);
    if r != [] {
      assert LeadingSpace(r) == 0;
      assert r[0..] == r;
      assert TrailingStart(r) == |r|;
      assert r[..|r|] == r;
    }
  }

  /** Three non-whitespace characters anywhere in the query are enough to pass the guard. */
  lemma {:induction false} NonSpaceSurvives(s: string, a: nat, b: nat, c: nat)
    requires a < b < c < |s| && !IsSpace(s[a]) && !IsSpace(s[b]) && !IsSpace(s[c])
    ensures |Strip(s)| >= 3
  {
    var r := Strip(s);
    var i, j :| StrippedAt(s, i, j) && r == s[i..j];
    assert !(a < i) && !(j <= c);
    assert r[a - i] == s[a] && r[c - i] == s[c];
  }

  function SearchTitle(params: TitleParams, remote: Remote<Json>): (x: Exchange)
    // no request when fewer than three characters remain after stripping
    ensures x.sent.None? <==> |Strip(params.q)| < 3
    ensures x.sent.None? ==> x.envelope == Error(TooShort)
    // `params.dict()`: the unstripped q, rows and start
    ensures x.sent.Some? ==>
      x.sent.value == Request(TitleUrl, [("q", JStr(params.q)), ("rows", IntOrNull(params.rows)), ("start", IntOrNull(params.start))])
    ensures x.sent.Some? && remote.Ok? ==> x.envelope == Success(remote.value)
    ensures x.sent.Some? && !remote.Ok? ==> x.envelope == Error(FailPrefix + remote.msg)
  {
    if |Strip(params.q)| < 3 then Exchange(None, Error(TooShort))
    else
      var query := [("q", JStr(params.q)), ("rows", IntOrNull(params.rows)), ("start", IntOrNull(params.start))];
      Exchange(Some(Request(TitleUrl, query)), Attempt(FailPrefix, remote, (data: Json) => Val(data)))
  }

  /** With q alone (and long enough), q, rows = 20 and start = 0 are sent. */
  lemma DefaultsSent(q: string, remote: Remote<Json>)
    requires |Strip(q)| >= 3
    ensures SearchTitle(WithDefaults(q), remote).sent ==
      Some(Request(TitleUrl, [("q", JStr(q)), ("rows", JInt(20)), ("start", JInt(0))]))
  {
  }
}
