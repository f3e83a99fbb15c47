/**
 * `search_buddhist_canons_by_vol` (tools/cebta/catalog/tools_3.py): the works of one canon
 * within a range of volumes.
 */
module CatalogVolume {
  import opened Wrappers
  import opened Json
  import opened Responses

  const WorksUrl: string := "https://api.cbetaonline.cn/works"
  const FailPrefix: string := "API 請求失敗: "

  datatype VolumeParams = VolumeParams(canon: string, vol_start: int, vol_end: int)

  /** `{"num_found": data.get("num_found"), "results": data.get("results", [])}`. */
  function Listing(data: Json): (r: Py<Json>)
    ensures !data.JObj? ==> r.Raise?
    ensures data.JObj? ==> r.Val? && r.value.JObj? && Keys(r.value.fields) == ["num_found", "results"]
    ensures r.Val? ==> r.value.fields[0].1 == GetOr(data.fields, "num_found", JNull)
    ensures r.Val? ==> r.value.fields[1].1 == GetOr(data.fields, "results", JList([]))
  {
    match PyGet(data, "num_found", JNull)
    case Raise(e) => Raise(e)
    case Val(numFound) => Val(JObj([("num_found", numFound), ("results", GetOr(data.fields, "results", JList([])))]))
  }

  function SearchBuddhistCanonsByVol(params: VolumeParams, remote: Remote<Json>): (x: Exchange)
    // always sent, whatever the volume range (no check that vol_start <= vol_end)
    ensures x.sent == Some(Request(WorksUrl, [("canon", JStr(params.canon)), ("vol_start", JInt(params.vol_start)), ("vol_end", JInt(params.vol_end))]))
    ensures remote.Ok? ==> x.envelope == match Listing(remote.value)
      case Val(v) => Success(v)
      case Raise(e) => Error(FailPrefix + e.Message())
    ensures !remote.Ok? ==> x.envelope == Error(FailPrefix + remote.msg)
  {
    var query := [("canon", JStr(params.canon)), ("vol_start", JInt(params.vol_start)), ("vol_end", JInt(params.vol_end))];
    Exchange(Some(Request(WorksUrl, query)), Attempt(FailPrefix, remote, Listing))
  }
}
