/**
 * `extended_search` (tools/cebta/search/tools_2.py): extended-syntax full-text search; the query
 * expression is percent-encoded before it is sent, and each hit is cut down to its title,
 * juan and content.
 */
module SearchExtended {
  import opened Wrappers
  import opened Json
  import opened Responses
  import opened PercentEncoding

  const ExtendedUrl: string := "https://api.cbetaonline.cn/search/extended"
  const FailPrefix: string := "CBETA 擴充搜尋失敗: "

  datatype ExtendedParams = ExtendedParams(q: string, start: Option<int>, rows: Option<int>)

  /** The parameters with their declared defaults, as validation fills them in when omitted. */
  function WithDefaults(q: string): ExtendedParams
  {
    ExtendedParams(q, Some(0), Some(20))
  }

  /** `for r in value`: a list gives its items, a string its characters, a dict its keys. */
  function Iterate(value: Json): (r: Py<seq<Json>>)
    ensures value.JList? ==> r == Val(value.items)
    ensures value.JStr? ==>
      r.Val? && |r.value| == |value.s| && forall i :: 0 <= i < |value.s| ==> r.value[i] == JStr([value.s[i]])
    ensures value.JObj? ==>
      r.Val? && |r.value| == |value.fields| && forall i :: 0 <= i < |value.fields| ==> r.value[i] == JStr(value.fields[i].0)
    ensures r.Raise? <==> !(value.JList? || value.JStr? || value.JObj?)
  {
    match value
    case JList(items) => Val(items)
    case JStr(s) => Val(seq(|s|, k requires 0 <= k < |s| => JStr([s[k]])))
    case JObj(fs) => Val(seq(|fs|, k requires 0 <= k < |fs| => JStr(fs[k].0)))
    case _ => Raise(TypeError("'" + TypeName(value) + "' object is not iterable"))
  }

  /** The keys each row keeps. */
  const RowKeys: seq<string> := ["title", "juan", "content"]

  /** `{"title": r.get("title", ""), "juan": r.get("juan", ""), "content": r.get("content", "")}`. */
  function Row(record: Json): (r: Py<Json>)
    ensures r.Raise? <==> !record.JObj?
    ensures r.Val? ==> r.value.JObj? && Keys(r.value.fields) == RowKeys
    ensures r.Val? ==> forall i :: 0 <= i < 3 ==> r.value.fields[i].1 == GetOr(record.fields, RowKeys[i], JStr(""))
  {
    match record
    case JObj(fs) =>
      Val(JObj([("title", GetOr(fs, "title", JStr(""))), ("juan", GetOr(fs, "juan", JStr(""))),
                ("content", GetOr(fs, "content", JStr("")))]))
    case _ => Raise(AttributeError(TypeName(record), "get"))
  }

  /** The list comprehension: one row per hit, in order; it raises at the first hit that is not a dict. */
  function Rows(items: seq<Json>): (r: Py<seq<Json>>)
    ensures r.Val? <==> forall i :: 0 <= i < |items| ==> items[i].JObj?
    ensures r.Val? ==> |r.value| == |items| && forall i :: 0 <= i < |items| ==> Row(items[i]) == Val(r.value[i])
  {
    if items == [] then Val([])
    else match Row(items[0])
      case Raise(e) => Raise(e)
      case Val(row) =>
        match Rows(items[1..])
        case Raise(e) => Raise(e)
        case Val(rest) =>
          assert forall i :: 1 <= i < |items| ==> items[i] == items[1..][i - 1];
          Val([row] + rest)
  }

  /** The reshaping of the body into `{"total": ..., "rows": [...]}`. */
  function Condense(data: Json): (r: Py<Json>)
    ensures !data.JObj? ==> r.Raise?
    ensures r.Val? ==> r.value.JObj? && Keys(r.value.fields) == ["total", "rows"]
    ensures r.Val? ==> r.value.fields[0].1 == GetOr(data.fields, "total", JInt(0))
    // no results: no rows
    ensures data.JObj? && Get(data.fields, "results").None? ==> r.Val? && r.value.fields[1].1 == JList([])
    // a list of dicts: one row per hit, in order
    ensures data.JObj? && Get(data.fields, "results").Some? && Get(data.fields, "results").value.JList? ==>
      var items := Get(data.fields, "results").value.items;
      (r.Val? <==> forall i :: 0 <= i < |items| ==> items[i].JObj?) &&
      (r.Val? ==> r.value.fields[1].1.JList? && |r.value.fields[1].1.items| == |items| &&
                  forall i :: 0 <= i < |items| ==> Row(items[i]) == Val(r.value.fields[1].1.items[i]))
    // a string or a dict is iterated too: empty, it gives no rows; otherwise its first
    // character or key is a string, and `.get` on it raises
    ensures data.JObj? && Get(data.fields, "results").Some? && Get(data.fields, "results").value.JStr? ==>
      (r.Val? <==> Get(data.fields, "results").value.s == "") &&
      (r.Val? ==> r.value.fields[1].1 == JList([]))
    ensures data.JObj? && Get(data.fields, "results").Some? && Get(data.fields, "results").value.JObj? ==>
      (r.Val? <==> Get(data.fields, "results").value.fields == []) &&
      (r.Val? ==> r.value.fields[1].1 == JList([]))
    // null, a number or a boolean is not iterable
    ensures (data.JObj? && Get(data.fields, "results").Some? &&
             (Get(data.fields, "results").value.JNull? || Get(data.fields, "results").value.JInt? ||
              Get(data.fields, "results").value.JBool?))
      ==> r.Raise?
  {
    match PyGet(data, "total", JInt(0))
    case Raise(e) => Raise(e)
    case Val(total) =>
      match Iterate(GetOr(data.fields, "results", JList([])))
      case Raise(e) => Raise(e)
      case Val(items) =>
        match Rows(items)
        case Raise(e) => Raise(e)
        case Val(rows) => Val(JObj([("total", total), ("rows", JList(rows))]))
  }

  function ExtendedSearch(params: ExtendedParams, remote: Remote<Json>): (x: Exchange)
    // q is sent percent-encoded (see PercentEncoding.QuoteRecoverable), start and rows as given
    ensures x.sent == Some(Request(ExtendedUrl, [("q", JStr(Quote(params.q))), ("start", IntOrNull(params.start)), ("rows", IntOrNull(params.rows))]))
    ensures remote.Ok? ==> x.envelope == match Condense(remote.value)
      case Val(v) => Success(v)
      case Raise(e) => Error(FailPrefix + e.Message())
    ensures !remote.Ok? ==> x.envelope == Error(FailPrefix + remote.msg)
  {
    var query := [("q", JStr(Quote(params.q))), ("start", IntOrNull(params.start)), ("rows", IntOrNull(params.rows))];
    Exchange(Some(Request(ExtendedUrl, query)), Attempt(FailPrefix, remote, Condense))
  }

  /** A row keeps only title, juan and content, so no other key of a hit gets through. */
  lemma RowDropsExtras(record: Json, k: string)
    requires record.JObj? && k !in RowKeys
    ensures Row(record).Val? && Get(Row(record).value.fields, k).None?
  {
    var fs := Row(record).value.fields;
    assert Keys(fs) == RowKeys;
    forall i | 0 <= i < |fs| ensures fs[i].0 != k {
      assert fs[i].0 == Keys(fs)[i];
    }
  }

  /** With q alone, the encoded q, start = 0 and rows = 20 are sent. */
  lemma DefaultsSent(q: string, remote: Remote<Json>)
    ensures ExtendedSearch(WithDefaults(q), remote).sent ==
      Some(Request(ExtendedUrl, [("q", JStr(Quote(q))), ("start", JInt(0)), ("rows", JInt(20))]))
  {
  }
}
