/**
 * `cbeta_facet_query` (tools/cebta/search/tools_5.py): facet counts for a query, for one facet
 * kind named in the URL path or for all of them.
 */
module SearchFacet {
  import opened Wrappers
  import opened Json
  import opened Responses

  const FacetBase: string := "https://api.cbetaonline.cn/search/facet"
  const FailPrefix: string := "CBETA facet 查詢失敗: "

  datatype FacetParams = FacetParams(q: string, f: Option<string>)

  /** `f"{base_url}/{params.f}" if params.f else base_url`. */
  function FacetUrl(f: Option<string>): (url: string)
    ensures FacetBase <= url
    ensures TruthyStr(f) ==> url == FacetBase + "/" + f.value
    ensures !TruthyStr(f) ==> url == FacetBase
  {
    if TruthyStr(f) then FacetBase + "/" + f.value else FacetBase
  }

  /** Reading the facet kind back from a URL. */
  function FacetOf(url: string): Option<string>
  {
    if |url| > |FacetBase| + 1 && url[..|FacetBase| + 1] == FacetBase + "/" then Some(url[|FacetBase| + 1..])
    else None
  }

  /** The URL determines the facet kind asked for: none for the base URL, else the one appended. */
  lemma FacetRecoverable(f: Option<string>)
    ensures FacetOf(FacetUrl(f)) == if TruthyStr(f) then f else None
  {
    if TruthyStr(f) {
      var url := FacetBase + "/" + f.value;
      assert url[..|FacetBase| + 1] == FacetBase + "/";
      assert url[|FacetBase| + 1..] == f.value;
    }
  }

  function CbetaFacetQuery(params: FacetParams, remote: Remote<Json>): (x: Exchange)
    // only q is sent as a query parameter; f goes into the path
    ensures x.sent == Some(Request(FacetUrl(params.f), [("q", JStr(params.q))]))
    ensures remote.Ok? ==> x.envelope == Success(remote.value)
    ensures !remote.Ok? ==> x.envelope == Error(FailPrefix + remote.msg)
  {
    Exchange(Some(Request(FacetUrl(params.f), [("q", JStr(params.q))])), Attempt(FailPrefix, remote, (data: Json) => Val(data)))
  }
}
