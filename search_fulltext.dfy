/**
 * `cbeta_fulltext_search` (tools/cebta/search/tools_1.py): full-text search, forwarding every
 * parameter that is not None.
 */
module SearchFulltext {
  import opened Wrappers
  import opened Json
  import opened Responses

  const SearchUrl: string := "https://api.cbetaonline.cn/search"
  const FailPrefix: string := "CBETA 搜尋失敗: "

  datatype FulltextParams = FulltextParams(
    q: string,
    fields: Option<string>,
    rows: Option<int>,
    start: Option<int>,
    order: Option<string>)

  /** The parameters with their declared defaults, as validation fills them in when omitted. */
  function WithDefaults(q: string): FulltextParams
  {
    FulltextParams(q, None, Some(20), Some(0), None)
  }

  /** `params.dict()`: every field in declaration order, None as null. */
  function ParamsDict(p: FulltextParams): Fields
  {
    [("q", JStr(p.q)), ("fields", StrOrNull(p.fields)), ("rows", IntOrNull(p.rows)),
     ("start", IntOrNull(p.start)), ("order", StrOrNull(p.order))]
  }

  function CbetaFulltextSearch(params: FulltextParams, remote: Remote<Json>): (x: Exchange)
    ensures x.sent == Some(Request(SearchUrl, DropNulls(ParamsDict(params))))
    ensures remote.Ok? ==> x.envelope == Success(remote.value)
    ensures !remote.Ok? ==> x.envelope == Error(FailPrefix + remote.msg)
  {
    Exchange(Some(Request(SearchUrl, DropNulls(ParamsDict(params)))), Attempt(FailPrefix, remote, (data: Json) => Val(data)))
  }

  /**
   * The query is the parameters without their None entries: an entry is sent exactly when its
   * value is not None (so 0 and "" are sent), `q` always comes first, and the order is kept.
   */
  lemma QueryIsNonNoneParams(p: FulltextParams, e: (string, Json))
    ensures e in DropNulls(ParamsDict(p)) <==> e in ParamsDict(p) && e.1 != JNull
    ensures DropNulls(ParamsDict(p))[0] == ("q", JStr(p.q))
    ensures IsSubsequence(DropNulls(ParamsDict(p)), ParamsDict(p))
  {
    DropNullsMembers(ParamsDict(p), e);
    DropNullsOrdered(ParamsDict(p));
  }

  /** With the defaults, q, rows = 20 and start = 0 are sent and nothing else. */
  lemma DefaultsSent(q: string)
    ensures DropNulls(ParamsDict(WithDefaults(q))) == [("q", JStr(q)), ("rows", JInt(20)), ("start", JInt(0))]
  {
    var t4: Fields := [("order", JNull)];
    var t3 := [("start", JInt(0))] + t4;
    var t2 := [("rows", JInt(20))] + t3;
    var t1 := [("fields", JNull)] + t2;
    var t0 := [("q", JStr(q))] + t1;
    DropNullsCons(("order", JNull), []);
    assert t4 == [("order", JNull)] + [];
    DropNullsCons(("start", JInt(0)), t4);
    DropNullsCons(("rows", JInt(20)), t3);
    DropNullsCons(("fields", JNull), t2);
    DropNullsCons(("q", JStr(q)), t1);
    assert ParamsDict(WithDefaults(q)) == t0;
  }
}
