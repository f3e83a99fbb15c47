/**
 * `cbeta_search_sc` (tools/cebta/search/tools_4.py): simplified/traditional search, returning
 * only the query and the hit count.
 */
module SearchSc {
  import opened Wrappers
  import opened Json
  import opened Responses

  const ScUrl: string := "https://api.cbetaonline.cn/search/sc"
  const FailPrefix: string := "查詢 CBETA 失敗："

  datatype ScParams = ScParams(
    q: string,
    fields: Option<string>,
    rows: Option<int>,
    start: Option<int>,
    order: Option<string>)

  /** The parameters with their declared defaults, as validation fills them in when omitted. */
  function WithDefaults(q: string): ScParams
  {
    ScParams(q, None, Some(10), Some(0), None)
  }

  /** `{"q": params.q, "hits": data.get("hits", 0)}`. */
  function Hits(q: string, data: Json): (r: Py<Json>)
    ensures !data.JObj? ==> r.Raise?
    ensures data.JObj? ==> r.Val? && r.value.JObj? && Keys(r.value.fields) == ["q", "hits"]
    ensures r.Val? ==> r.value.fields[0].1 == JStr(q)
    ensures r.Val? ==> r.value.fields[1].1 == GetOr(data.fields, "hits", JInt(0))
  {
    match PyGet(data, "hits", JInt(0))
    case Raise(e) => Raise(e)
    case Val(hits) => Val(JObj([("q", JStr(q)), ("hits", hits)]))
  }

  function CbetaSearchSc(params: ScParams, remote: Remote<Json>): (x: Exchange)
    // all five keys are sent, None values included
    ensures x.sent.Some? && x.sent.value.url == ScUrl
    ensures Keys(x.sent.value.query) == ["q", "fields", "rows", "start", "order"]
    ensures x.sent.value.query[0].1 == JStr(params.q) && x.sent.value.query[1].1 == StrOrNull(params.fields)
    ensures x.sent.value.query[2].1 == IntOrNull(params.rows) && x.sent.value.query[3].1 == IntOrNull(params.start)
    ensures x.sent.value.query[4].1 == StrOrNull(params.order)
    ensures remote.Ok? ==> x.envelope == match Hits(params.q, remote.value)
      case Val(v) => Success(v)
      case Raise(e) => Error(FailPrefix + e.Message())
    ensures !remote.Ok? ==> x.envelope == Error(FailPrefix + remote.msg)
  {
    var query := [("q", JStr(params.q)), ("fields", StrOrNull(params.fields)), ("rows", IntOrNull(params.rows)),
                  ("start", IntOrNull(params.start)), ("order", StrOrNull(params.order))];
    Exchange(Some(Request(ScUrl, query)), Attempt(FailPrefix, remote, (data: Json) => Hits(params.q, data)))
  }

  /** The success result echoes the caller's q, and the hit count defaults to 0. */
  lemma EchoesQuery(params: ScParams, data: Fields)
    requires Get(data, "hits").None?
    ensures CbetaSearchSc(params, Ok(JObj(data))).envelope
         == Success(JObj([("q", JStr(params.q)), ("hits", JInt(0))]))
  {
  }

  /** With q alone, rows = 10 and start = 0 are sent, and fields and order are sent as null. */
  lemma DefaultsSent(q: string, remote: Remote<Json>)
    ensures CbetaSearchSc(WithDefaults(q), remote).sent ==
      Some(Request(ScUrl, [("q", JStr(q)), ("fields", JNull), ("rows", JInt(10)), ("start", JInt(0)), ("order", JNull)]))
  {
  }
}
