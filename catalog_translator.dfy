/**
 * `search_works_by_translator` (tools/cebta/catalog/tools_4.py): search the works catalogue by
 * one creator criterion, chosen as creator_id, else creator, else creator_name.
 */
module CatalogTranslator {
  import opened Wrappers
  import opened Json
  import opened Responses

  const WorksUrl: string := "https://api.cbetaonline.cn/works"
  const MissingCriterion: string := "請至少提供一個搜尋參數：creator_id、creator 或 creator_name"
  const FailPrefix: string := "查詢失敗: "

  datatype TranslatorSearchParams = TranslatorSearchParams(
    creator_id: Option<string>,
    creator: Option<string>,
    creator_name: Option<string>)

  method SearchWorksByTranslator(params: TranslatorSearchParams, remote: Remote<Json>) returns (x: Exchange)
    // no request at all exactly when none of the three is given (None or empty)
    ensures x.sent.None? <==> !TruthyStr(params.creator_id) && !TruthyStr(params.creator) && !TruthyStr(params.creator_name)
    ensures x.sent.None? ==> x.envelope == Error(MissingCriterion)
    // the one criterion sent follows the priority creator_id > creator > creator_name
    ensures TruthyStr(params.creator_id) ==>
      x.sent == Some(Request(WorksUrl, [("creator_id", JStr(params.creator_id.value))]))
    ensures !TruthyStr(params.creator_id) && TruthyStr(params.creator) ==>
      x.sent == Some(Request(WorksUrl, [("creator", JStr(params.creator.value))]))
    ensures !TruthyStr(params.creator_id) && !TruthyStr(params.creator) && TruthyStr(params.creator_name) ==>
      x.sent == Some(Request(WorksUrl, [("creator_name", JStr(params.creator_name.value))]))
    ensures x.sent.Some? ==> |x.sent.value.query| == 1
    // the body is returned unchanged; every failure is reported with the prefix
    ensures x.sent.Some? && remote.Ok? ==> x.envelope == Success(remote.value)
    ensures x.sent.Some? && !remote.Ok? ==> x.envelope == Error(FailPrefix + remote.msg)
  {
    var query: Fields;
    if TruthyStr(params.creator_id) {
      query := [("creator_id", JStr(params.creator_id.value))];
    } else if TruthyStr(params.creator) {
      query := [("creator", JStr(params.creator.value))];
    } else if TruthyStr(params.creator_name) {
      query := [("creator_name", JStr(params.creator_name.value))];
    } else {
      return Exchange(None, Error(MissingCriterion));
    }
    var envelope := Attempt(FailPrefix, remote, (data: Json) => Val(data));
    x := Exchange(Some(Request(WorksUrl, query)), envelope);
  }
}
