/**
 * `search_cbeta_by_dynasty` (tools/cebta/catalog/tools_5.py): search the works catalogue by
 * dynasty or by a range of years, and return the hit count with at most two sample works.
 */
module CatalogDynasty {
  import opened Wrappers
  import opened Json
  import opened Responses

  const WorksUrl: string := "https://api.cbetaonline.cn/works"
  const MissingCriterion: string := "请提供 dynasty 或 time_start 与 time_end 参数"
  const FailPrefix: string := "CBETA 查詢失敗: "

  datatype DynastySearchParams = DynastySearchParams(
    dynasty: Option<string>,
    time_start: Option<int>,
    time_end: Option<int>)

  /** The guard: neither a dynasty nor both ends of the year range. */
  predicate LacksCriterion(p: DynastySearchParams)
  {
    !TruthyStr(p.dynasty) && !(TruthyInt(p.time_start) && TruthyInt(p.time_end))
  }

  /** `data.get("results", [])[:2]`: slicing works on a list or a string and raises on anything else. */
  function FirstTwo(results: Json): (r: Py<Json>)
    ensures results.JList? ==> r == Val(JList(results.items[..if |results.items| < 2 then |results.items| else 2]))
    ensures results.JStr? ==> r == Val(JStr(results.s[..if |results.s| < 2 then |results.s| else 2]))
    ensures !results.JList? && !results.JStr? ==> r.Raise?
  {
    match results
    case JList(items) => Val(JList(items[..if |items| < 2 then |items| else 2]))
    case JStr(s) => Val(JStr(s[..if |s| < 2 then |s| else 2]))
    case JObj(_) => Raise(TypeError("unhashable type: 'slice'"))
    case _ => Raise(TypeError("'" + TypeName(results) + "' object is not subscriptable"))
  }

  /** The reshaping of the body into `{"num_found": ..., "sample_result": ...}`. */
  function Sample(data: Json): (r: Py<Json>)
    ensures !data.JObj? ==> r == Raise(AttributeError(TypeName(data), "get"))
    ensures r.Val? ==> r.value.JObj? && Keys(r.value.fields) == ["num_found", "sample_result"]
    ensures r.Val? ==> r.value.fields[0].1 == GetOr(data.fields, "num_found", JInt(0))
    // the sample is the first min(2, n) results, and empty when the body has none
    ensures data.JObj? && Get(data.fields, "results").None? ==> r.Val? && r.value.fields[1].1 == JList([])
    ensures data.JObj? && Get(data.fields, "results").Some? && Get(data.fields, "results").value.JList? ==>
      var items := Get(data.fields, "results").value.items;
      r.Val? && r.value.fields[1].1.JList? && r.value.fields[1].1.items <= items &&
      |r.value.fields[1].1.items| == (if |items| < 2 then |items| else 2)
    // a string is sliced as well: the sample is its first min(2, n) characters
    ensures data.JObj? && Get(data.fields, "results").Some? && Get(data.fields, "results").value.JStr? ==>
      var s := Get(data.fields, "results").value.s;
      r.Val? && r.value.fields[1].1.JStr? && r.value.fields[1].1.s <= s &&
      |r.value.fields[1].1.s| == (if |s| < 2 then |s| else 2)
    // a dict, null, a number or a boolean cannot be sliced
    ensures (data.JObj? && Get(data.fields, "results").Some? &&
             !Get(data.fields, "results").value.JList? && !Get(data.fields, "results").value.JStr?)
      ==> r.Raise?
  {
    match PyGet(data, "num_found", JInt(0))
    case Raise(e) => Raise(e)
    case Val(numFound) =>
      match FirstTwo(GetOr(data.fields, "results", JList([])))
      case Raise(e) => Raise(e)
      case Val(sample) => Val(JObj([("num_found", numFound), ("sample_result", sample)]))
  }

  /** The three criteria with their values, in the order the source tests them. */
  function Criteria(p: DynastySearchParams): Fields
  {
    [("dynasty", StrOrNull(p.dynasty)), ("time_start", IntOrNull(p.time_start)), ("time_end", IntOrNull(p.time_end))]
  }

  /**
   * Each criterion is sent exactly when it is truthy, so a year 0 is left out, and the keys
   * sent keep the order dynasty, time_start, time_end.
   */
  lemma CriteriaSent(p: DynastySearchParams)
    ensures IsSubsequence(Keys(DropFalsy(Criteria(p))), ["dynasty", "time_start", "time_end"])
    ensures Get(DropFalsy(Criteria(p)), "dynasty") == if TruthyStr(p.dynasty) then Some(JStr(p.dynasty.value)) else None
    ensures Get(DropFalsy(Criteria(p)), "time_start") == if TruthyInt(p.time_start) then Some(JInt(p.time_start.value)) else None
    ensures Get(DropFalsy(Criteria(p)), "time_end") == if TruthyInt(p.time_end) then Some(JInt(p.time_end.value)) else None
  {
    var c := Criteria(p);
    DropFalsyOrdered(c);
    KeysSubsequence(DropFalsy(c), c);
    assert Keys(c) == ["dynasty", "time_start", "time_end"];
    CriteriaSplit(p);
    var p0: Fields := if TruthyStr(p.dynasty) then [("dynasty", JStr(p.dynasty.value))] else [];
    var p1: Fields := if TruthyInt(p.time_start) then [("time_start", JInt(p.time_start.value))] else [];
    var p2: Fields := if TruthyInt(p.time_end) then [("time_end", JInt(p.time_end.value))] else [];
    CriterionLookup(p0, p1, p2, "dynasty");
    CriterionLookup(p0, p1, p2, "time_start");
    CriterionLookup(p0, p1, p2, "time_end");
  }

  lemma CriterionLookup(p0: Fields, p1: Fields, p2: Fields, k: string)
    ensures Get(p0 + p1 + p2, k) == if Get(p2, k).Some? then Get(p2, k) else if Get(p1, k).Some? then Get(p1, k) else Get(p0, k)
  {
    GetAppend(p0 + p1, p2, k);
    GetAppend(p0, p1, k);
  }

  /** The truthy criteria, one `if` at a time. */
  lemma CriteriaSplit(p: DynastySearchParams)
    ensures DropFalsy(Criteria(p)) ==
      (if TruthyStr(p.dynasty) then [("dynasty", JStr(p.dynasty.value))] else []) +
      (if TruthyInt(p.time_start) then [("time_start", JInt(p.time_start.value))] else []) +
      (if TruthyInt(p.time_end) then [("time_end", JInt(p.time_end.value))] else [])
  {
    var c := Criteria(p);
    assert c == [c[0]] + [c[1]] + [c[2]];
    DropFalsyAppend([c[0]] + [c[1]], [c[2]]);
    DropFalsyAppend([c[0]], [c[1]]);
  }

  /** A truthy dynasty passes the guard on its own, and a time_start beside it is sent too. */
  lemma DynastyWithStartOnly(p: DynastySearchParams)
    requires TruthyStr(p.dynasty) && TruthyInt(p.time_start) && !TruthyInt(p.time_end)
    ensures !LacksCriterion(p)
    ensures Keys(DropFalsy(Criteria(p))) == ["dynasty", "time_start"]
  {
    CriteriaSplit(p);
  }

  method SearchCbetaByDynasty(params: DynastySearchParams, remote: Remote<Json>) returns (x: Exchange)
    ensures x.sent.None? <==> LacksCriterion(params)
    ensures x.sent.None? ==> x.envelope == Error(MissingCriterion)
    ensures x.sent.Some? ==> x.sent.value.url == WorksUrl
    // the criteria sent are the truthy ones (see CriteriaSent)
    ensures x.sent.Some? ==> x.sent.value.query == DropFalsy(Criteria(params))
    ensures x.sent.Some? && remote.Ok? ==> x.envelope == match Sample(remote.value)
      case Val(v) => Success(v)
      case Raise(e) => Error(FailPrefix + e.Message())
    ensures x.sent.Some? && !remote.Ok? ==> x.envelope == Error(FailPrefix + remote.msg)
  {
    if LacksCriterion(params) {
      return Exchange(None, Error(MissingCriterion));
    }
    var query: Fields := [];
    if TruthyStr(params.dynasty) {
      query := query + [("dynasty", JStr(params.dynasty.value))];
    }
    if TruthyInt(params.time_start) {
      query := query + [("time_start", JInt(params.time_start.value))];
    }
    if TruthyInt(params.time_end) {
      query := query + [("time_end", JInt(params.time_end.value))];
    }
    CriteriaSplit(params);
    var envelope := Attempt(FailPrefix, remote, Sample);
    x := Exchange(Some(Request(WorksUrl, query)), envelope);
  }
}
