/**
 * `get_cbeta_work_info` (tools/cebta/work/tools_1.py): look a work up by its number and return
 * fourteen fields of the first catalogue record. Unlike the other tools it converts only
 * `httpx.HTTPError` into an error envelope; anything raised after the call escapes the handler.
 */
module WorkInfo {
  import opened Wrappers
  import opened Json
  import opened Responses

  const WorksUrl: string := "https://api.cbetaonline.cn/works"
  const FailPrefix: string := "取得佛典資料失敗："
  const NotFound: string := "查無此佛典資訊"

  /** The fields copied from the record, in the order of the result. */
  const InfoKeys: seq<string> := [
    "work", "title", "byline", "creators", "category", "orig_category", "time_dynasty",
    "time_from", "time_to", "cjk_chars", "en_words", "file", "juan_start", "places"]

  datatype WorkInfoParams = WorkInfoParams(work: string)

  /** What the handler does: return an envelope, or let an exception (its `str`) escape. */
  datatype WorkInfoOutcome =
    | Replied(sent: Request, envelope: Envelope)
    | Raised(sent: Request, exception: string)

  /** `x == 0` in Python for a parsed JSON value: 0 and False compare equal to 0. */
  predicate EqualsZero(j: Json)
  {
    j == JInt(0) || j == JBool(false)
  }

  /** `data.get("num_found", 0) == 0`. */
  predicate NoneFound(fs: Fields)
  {
    Get(fs, "num_found").None? || EqualsZero(Get(fs, "num_found").value)
  }

  /** `data["results"][0]`, which must then be a dict for `.get`. */
  function FirstRecord(fs: Fields): (r: Py<Fields>)
    ensures r.Val? <==> (Get(fs, "results").Some? && Get(fs, "results").value.JList? &&
                         |Get(fs, "results").value.items| > 0 && Get(fs, "results").value.items[0].JObj?)
    ensures r.Val? ==> r.value == Get(fs, "results").value.items[0].fields
  {
    match Get(fs, "results")
    case None => Raise(KeyError("'results'"))
    case Some(results) =>
      match results
      case JList(items) =>
        if items == [] then Raise(IndexError("list"))
        else if items[0].JObj? then Val(items[0].fields)
        else Raise(AttributeError(TypeName(items[0]), "get"))
      case JStr(s) => if s == "" then Raise(IndexError("string")) else Raise(AttributeError("str", "get"))
      case JObj(_) => Raise(KeyError("0"))
      case _ => Raise(TypeError("'" + TypeName(results) + "' object is not subscriptable"))
  }

  /** What follows the `try` block, given the parsed body. */
  function AfterCall(data: Json): Py<Envelope>
  {
    match PyGet(data, "num_found", JInt(0))
    case Raise(e) => Raise(e)
    case Val(n) =>
      if EqualsZero(n) then Val(Error(NotFound))
      else match FirstRecord(data.fields)
        case Raise(e) => Raise(e)
        case Val(record) => Val(Success(JObj(Project(record, InfoKeys))))
  }

  function GetCbetaWorkInfo(params: WorkInfoParams, remote: Remote<Json>): (x: WorkInfoOutcome)
    ensures x.sent == Request(WorksUrl, [("work", JStr(params.work))])
    // only HTTP errors are reported; a body that is not JSON raises out of the handler
    ensures remote.HttpFail? ==> x == Replied(x.sent, Error(FailPrefix + remote.msg))
    ensures remote.DecodeFail? ==> x == Raised(x.sent, remote.msg)
    ensures remote.Ok? && !remote.value.JObj? ==> x.Raised?
    // a missing or zero num_found is "not found"
    ensures remote.Ok? && remote.value.JObj? && NoneFound(remote.value.fields) ==>
      x == Replied(x.sent, Error(NotFound))
    // otherwise the first record, projected onto the fourteen keys (missing ones null)
    ensures remote.Ok? && remote.value.JObj? && !NoneFound(remote.value.fields) ==>
      match FirstRecord(remote.value.fields)
      case Val(record) => x.Replied? && x.envelope.Success? && x.envelope.result.JObj? &&
        Keys(x.envelope.result.fields) == InfoKeys &&
        forall i :: 0 <= i < |InfoKeys| ==> x.envelope.result.fields[i].1 == GetOr(record, InfoKeys[i], JNull)
      case Raise(_) => x.Raised?
  {
    var sent := Request(WorksUrl, [("work", JStr(params.work))]);
    match remote
    case HttpFail(m) => Replied(sent, Error(FailPrefix + m))
    case DecodeFail(m) => Raised(sent, m)
    case Ok(data) =>
      match AfterCall(data)
      case Val(envelope) => Replied(sent, envelope)
      case Raise(e) => Raised(sent, e.Message())
  }

  /** A positive count with an empty result list is not caught: the handler raises. */
  lemma CountWithoutResultsRaises(params: WorkInfoParams, n: int)
    requires n != 0
    ensures GetCbetaWorkInfo(params, Ok(JObj([("num_found", JInt(n)), ("results", JList([]))]))).Raised?
  {
    var fs: Fields := [("num_found", JInt(n)), ("results", JList([]))];
    assert Get(fs, "results") == Some(JList([]));
    assert Get(fs, "num_found") == Some(JInt(n));
  }

  /** Keys of the record other than the fourteen are dropped, and the result's keys are distinct. */
  lemma ProjectionDropsExtras(record: Fields, k: string)
    requires k !in InfoKeys
    ensures Get(Project(record, InfoKeys), k).None?
  {
    var r := Project(record, InfoKeys);
    assert Keys(r) == InfoKeys;
    forall i | 0 <= i < |r| ensures r[i].0 != k {
      assert r[i].0 == Keys(r)[i];
    }
  }
}
