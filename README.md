# CbetaMCP gateway core in Dafny

CbetaMCP is an MCP server that gives a language model a set of tools. Each tool is a thin
proxy to one endpoint of the CBETA Online API, the search and catalogue service for the
Chinese Buddhist canon. This project models two parts of it:

- `main.py`. The two envelope constructors every tool returns (`success_response` and
  `error_response`). The registration scan `recursive_import_tools`, which imports every tool
  module and reports duplicate tool names and modules that fail to import.
- The tool handlers that have logic of their own. For each one the model covers how it picks
  and filters its parameters, when a guard answers without calling the service, the query
  dict and URL it sends, and how it reshapes the parsed reply.

The one HTTP GET of each handler is an input value, `Remote<T>`. It is the parsed body (for
`cbeta_goto`, the final URL), an HTTP-client failure, or a body that is not JSON. Each handler
is a function or method from its parameter record and that input to an `Exchange`. An
`Exchange` holds the request sent (`None` when a guard returned first) and the `Envelope`
(`Success(result)` or `Error(message)`). `get_cbeta_work_info` instead returns a
`WorkInfoOutcome`, because exceptions other than HTTP errors escape from it. When the reply
has an unexpected type, Python may raise while reshaping it: for a body that is not a dict, a
`results` value that cannot be sliced or iterated, or a hit that is not a dict. A string in
`results` is sliced (catalog/tools_5.py:44) or iterated (search/tools_2.py:77) without
raising. A dict is iterated over its keys without raising, but slicing it raises. The model carries these exceptions as
`Py<T>` values. Where the source catches them with `except Exception`, they become
`Error(prefix + str(e))`.

The registry in `main.py` is only a duplicate detector. `registered_tool_names` keeps names,
not tool descriptors, and reporting a duplicate does not stop that function from being
registered: the MCP library's decorator registers every decorated function when its module is
imported. The model's `ToolRegistry` is this set and the printed log. `Scan` specifies it as a
function, and the lemmas about `Scan` state the properties.

Files: `wrappers.dfy` (Option), `json.dfy` (JSON values, dict lookup, Python truthiness and
exceptions, the None and falsy filters), `responses.dfy` (envelopes, requests, the shared
`try` block), `loader.dfy` (main.py scan), `percent.dfy` (`urllib.parse.quote`), and one file
per tool module: `catalog_translator.dfy`, `catalog_dynasty.dfy`, `catalog_volume.dfy`,
`work_goto.dfy`, `work_info.dfy`, `search_fulltext.dfy`, `search_extended.dfy`,
`search_sc.dfy`, `search_facet.dfy`, `search_title.dfy`.

## Model

| member | source | states |
|---|---|---|
| Responses.Envelope.ToJson | main.py:21-25 | the dict an envelope is returned as; ParseToJson and ToJsonInjective state that the two shapes can always be told apart and read back |
| Responses.SuccessResponse | main.py:21-22 | the success envelope has exactly the keys status and result, in that order, with status "success", the given result, and no message key |
| Responses.ErrorResponse | main.py:24-25 | the error envelope has exactly the keys status and message, with status "error", the given message, and no result key |
| Responses.ParseToJson | main.py:20-25 | a caller that reads status and then result or message recovers every envelope from its dict |
| Responses.Attempt | tools/cebta/catalog/tools_4.py:85-92 | the try block the handlers share: a failed call gives an error with the tool's prefix followed by the exception text; otherwise the reshaped body is a success, and an exception raised while reshaping gives an error with the prefix and its message |
| Responses.ToJsonInjective | main.py:20-25 | two different envelopes never give the same dict, so status always tells the two shapes apart |
| ToolLoader.Diagnostic.Text | main.py:43-47 | the printed line starts with ⚠️ exactly for a duplicate and with ❌ exactly for a failed import, and ends with the module path or the import error |
| ToolLoader.WithoutSuffix | main.py:35 | with_suffix("") only ever cuts a tail from the file name |
| ToolLoader.ModulePath | main.py:35-36 | the dotted module path of a file; its components are stated by ModulePathComponents |
| ToolLoader.IsPrivate | main.py:33 | the file name starts with "_"; PrivateUnitIgnored states what the scan does with such a unit |
| ToolLoader.OfferAll | main.py:39-45 | the inner loop over dir(mod), one Offer per attribute in order; its effect is stated by OfferAllNames, OfferAllLog and OfferAllCount |
| ToolLoader.ScanUnit | main.py:33-47 | one iteration of the outer loop; its effect is stated by ScanUnitEffect |
| ToolLoader.Scan | main.py:32-47 | the whole outer loop in rglob order, against which RecursiveImportTools is proved; its effect is stated by ScanEffect, CountsFromEmpty, ScanGrows and ScanAppend |
| ToolLoader.ToolRegistry.constructor | main.py:28 | the scan starts with an empty name set and an empty log |
| ToolLoader.ToolRegistry.RecursiveImportTools | main.py:30-47 | the loop over units, with the nested loop over each unit's attributes, leaves the set and the log equal to what Scan computes from their old values |
| ToolLoader.IsToolCandidate | main.py:41 | callable(attr) and a truthy _is_mcp_tool marker; Offer states that nothing else is added or reported |
| ToolLoader.Offer | main.py:41-45 | an attribute that is not a marked callable changes nothing; a marked name already present adds one duplicate report and leaves the set unchanged; a new name is added without a report; the set and the log only grow |
| ToolLoader.WithoutSuffixPy | main.py:35 | with_suffix("") turns stem.py into stem for every non-empty stem |
| ToolLoader.Join | main.py:36 | ".".join(parts); SplitJoin states that splitting on "." gives back dot-free components |
| ToolLoader.SplitJoin | main.py:36 | splitting the dotted join on "." gives back the components when none of them contains a dot |
| ToolLoader.ModulePathComponents | main.py:35-36 | the module path of d1/.../dn/stem.py is d1.….dn.stem: its dot-separated components are the directories followed by the file name without .py |
| ToolLoader.UnmarkedUnitIgnored | main.py:39-41 | a loaded unit with no callable attribute carrying a truthy tool marker changes neither the set nor the log |
| ToolLoader.OfferAllNames | main.py:39-45 | scanning a unit's attributes adds exactly the names of its marked callables to the set |
| ToolLoader.OfferAllCount | main.py:39-45 | within one unit, the duplicate reports plus the set size go up by exactly the number of marked callables offered |
| ToolLoader.OfferAllLog | main.py:42-45 | scanning a unit's attributes only appends to the log |
| ToolLoader.ScanUnitEffect | main.py:33-47 | a unit adds exactly its offered names to the set, with the same counting identity; a private unit or one that fails to load offers none |
| ToolLoader.ScanEffect | main.py:32-47 | after the scan the set is the starting set plus every name offered by a non-private unit that loaded; duplicate reports plus set size equal the starting values plus the total number of offers |
| ToolLoader.CountsFromEmpty | main.py:28-45 | from an empty start the set is exactly the distinct offered names, and the number of duplicate reports is the total offers minus the distinct names |
| ToolLoader.ScanGrows | main.py:42-45 | the name set only grows and the log is only appended to |
| ToolLoader.ScanAppend | main.py:32-47 | scanning two runs of units one after the other is the same as scanning their concatenation |
| ToolLoader.PrivateUnitIgnored | main.py:33-34 | a unit whose file name starts with "_" is never imported and leaves the scan as if it were absent |
| ToolLoader.FailedUnitIsolated | main.py:37-47 | a unit that fails to import adds exactly one failure report with its module path and error, and the later units are scanned as usual |
| ToolLoader.FailedUnitKeepsOthers | main.py:37-47 | a failing unit never keeps a name offered by any other unit, before or after it, out of the final set |
| ToolLoader.CandidatesAppend | main.py:32-45 | the names offered by two runs of units are the names of the first followed by those of the second |
| Json.Get | tools/cebta/catalog/tools_3.py:41-42 | a key is absent exactly when no entry carries it, and a value found is one the dict holds under that key |
| Json.GetOr | tools/cebta/catalog/tools_3.py:41-42 | d.get(k, default) is the default exactly when k is absent, and otherwise the dict's value for k |
| Json.PyGet | tools/cebta/search/tools_4.py:44 | .get on anything but a dict raises an AttributeError naming the value's type; on a dict it is the lookup with its default |
| Json.DropNulls | tools/cebta/search/tools_1.py:78 | the None filter never lengthens the dict and leaves no None value |
| Json.DropNullsMembers | tools/cebta/search/tools_1.py:78 | the None filter keeps an entry exactly when it is in the input and its value is not None, so 0 and "" are kept |
| Json.DropNullsOrdered | tools/cebta/search/tools_1.py:78 | the None filter keeps the insertion order of the entries it keeps |
| Json.DropNullsAppend | tools/cebta/work/tools_4.py:52-55 | filtering a concatenation is filtering each part, which is what filling the dict field by field in a loop does |
| Json.DropNullsAllNull | tools/cebta/work/tools_4.py:52-55 | when every value is None the filter leaves an empty dict |
| Json.DropNullsNoNulls | tools/cebta/search/tools_1.py:78 | a dict without None values passes the filter unchanged |
| Json.DropFalsy | tools/cebta/catalog/tools_5.py:27-33 | the run of "if value:" insertions never lengthens the dict and keeps only truthy values |
| Json.DropFalsyMembers | tools/cebta/catalog/tools_5.py:27-33 | a run of "if value:" insertions keeps an entry exactly when its value is truthy |
| Json.DropFalsyOrdered | tools/cebta/catalog/tools_5.py:27-33 | the truthy entries keep their insertion order |
| Json.Project | tools/cebta/work/tools_1.py:105-120 | the projection has exactly the listed keys in order, each mapped to the record's value, or to null when the record lacks it |
| Json.TruthyStr | tools/cebta/catalog/tools_4.py:76-80 | `if params.x:` on an optional string: not None and not empty; SearchWorksByTranslator and SearchCbetaByDynasty state its use |
| Json.TruthyInt | tools/cebta/catalog/tools_5.py:23-33 | `if params.x:` on an optional integer: not None and not 0; CriteriaSent states that a year 0 is not sent |
| Json.PyTruthy | tools/cebta/catalog/tools_5.py:23-33 | Python truthiness of a JSON value; DropFalsyMembers states that exactly the truthy entries are kept |
| CatalogTranslator.SearchWorksByTranslator | tools/cebta/catalog/tools_4.py:72-92 | no request and the fixed message exactly when creator_id, creator and creator_name are all None or empty; otherwise one key chosen by creator_id > creator > creator_name; the body wrapped unchanged; failures prefixed "查詢失敗: " |
| CatalogDynasty.LacksCriterion | tools/cebta/catalog/tools_5.py:23 | the guard: dynasty is falsy and time_start and time_end are not both truthy |
| CatalogDynasty.Criteria | tools/cebta/catalog/tools_5.py:28-33 | the three criteria with their values, in the order the source tests them; CriteriaSent states which of them are sent |
| CatalogDynasty.SearchCbetaByDynasty | tools/cebta/catalog/tools_5.py:23-49 | no request and the fixed message exactly when dynasty is falsy and time_start and time_end are not both truthy; otherwise the query is the truthy criteria; the envelope is the reshaped body, and failures are prefixed "CBETA 查詢失敗: " |
| CatalogDynasty.CriteriaSent | tools/cebta/catalog/tools_5.py:27-33 | each of dynasty, time_start and time_end is sent, with its value, exactly when it is truthy (a year 0 is left out), and the keys keep that order |
| CatalogDynasty.DynastyWithStartOnly | tools/cebta/catalog/tools_5.py:23-31 | a truthy dynasty with only time_start passes the guard and sends both keys |
| CatalogDynasty.FirstTwo | tools/cebta/catalog/tools_5.py:44 | [:2] on a list or a string keeps its first min(2, n) elements, and raises on any other value |
| CatalogDynasty.Sample | tools/cebta/catalog/tools_5.py:42-45 | the result has exactly num_found and sample_result; num_found defaults to 0; the sample is a prefix of the results of length min(2, n), whether results is a list or a string, and empty when the body has no results; a dict, null, number or boolean results, or a body that is not a dict, raises |
| CatalogVolume.Listing | tools/cebta/catalog/tools_3.py:40-43 | the result has exactly num_found and results; num_found defaults to null and results to the empty list; a body that is not a dict raises |
| CatalogVolume.SearchBuddhistCanonsByVol | tools/cebta/catalog/tools_3.py:28-45 | the query is exactly canon, vol_start and vol_end, sent for any volume numbers; the envelope is the reshaped body, and failures are prefixed "API 請求失敗: " |
| WorkGoto.Getattr | tools/cebta/work/tools_4.py:53 | getattr(params, field) for the seven position fields, None as null; PositionFieldsSent states which values are sent |
| WorkGoto.Attrs | tools/cebta/work/tools_4.py:52-53 | pairs each position field, in the loop's order, with its value |
| WorkGoto.GotoQuery | tools/cebta/work/tools_4.py:46-55 | the query: the linehead alone when truthy, else the position fields that are not None; stated by LineheadFirst, PositionFieldsSent and NothingGivenEmptyQuery |
| WorkGoto.CbetaGoto | tools/cebta/work/tools_4.py:45-64 | the loop builds exactly GotoQuery; the request is always made; success is exactly {"url": final URL}; failures are prefixed "CBETA 跳轉失敗：" |
| WorkGoto.LineheadFirst | tools/cebta/work/tools_4.py:49-50 | a truthy linehead is the whole query, whatever the other fields hold |
| WorkGoto.PositionFieldsSent | tools/cebta/work/tools_4.py:52-55 | without a linehead, a position field is sent with its value exactly when it is not None (so 0 and "" are sent), in the loop's order, and nothing else is sent |
| WorkGoto.NothingGivenEmptyQuery | tools/cebta/work/tools_4.py:46-59 | there is no guard: with every field None the query is empty and the request is still made |
| WorkInfo.EqualsZero | tools/cebta/work/tools_1.py:100 | Python's x == 0 on a parsed value: 0 and False; the handler's contract sends both to the not-found error |
| WorkInfo.NoneFound | tools/cebta/work/tools_1.py:100 | data.get("num_found", 0) == 0: the count is missing or equals 0; GetCbetaWorkInfo states this gives the not-found error |
| WorkInfo.FirstRecord | tools/cebta/work/tools_1.py:103 | data["results"][0] succeeds exactly when results is a non-empty list whose first item is a dict, and then it is that item |
| WorkInfo.AfterCall | tools/cebta/work/tools_1.py:100-120 | what follows the try block: the not-found check, the first record and the projection; the handler's contract states its outcomes |
| WorkInfo.GetCbetaWorkInfo | tools/cebta/work/tools_1.py:88-120 | the query is exactly {work}; an HTTP error is reported with the prefix "取得佛典資料失敗："; a body that is not JSON, or not a dict, raises; a missing or zero num_found gives the fixed not-found error; otherwise the first record is projected onto the 14 keys in order, with null for missing keys, and a bad results value raises |
| WorkInfo.CountWithoutResultsRaises | tools/cebta/work/tools_1.py:100-103 | a non-zero num_found with an empty results list is not caught: the handler raises |
| WorkInfo.ProjectionDropsExtras | tools/cebta/work/tools_1.py:105-120 | a key outside the fourteen never appears in the result |
| SearchFulltext.WithDefaults | tools/cebta/search/tools_1.py:64-69 | the declared defaults rows = 20 and start = 0, with fields and order None; DefaultsSent states what is then sent |
| SearchFulltext.ParamsDict | tools/cebta/search/tools_1.py:64-78 | params.dict(): the five fields in declaration order, None as null; QueryIsNonNoneParams states what is sent |
| SearchFulltext.CbetaFulltextSearch | tools/cebta/search/tools_1.py:77-84 | the query is the parameters without their None entries; the body is wrapped unchanged; failures are prefixed "CBETA 搜尋失敗: " |
| SearchFulltext.QueryIsNonNoneParams | tools/cebta/search/tools_1.py:64-78 | an entry is sent exactly when it is a parameter whose value is not None (0 and "" included); q always comes first; the order is kept |
| SearchFulltext.DefaultsSent | tools/cebta/search/tools_1.py:64-78 | with q alone, q, rows = 20 and start = 0 are sent, and nothing else |
| SearchExtended.Iterate | tools/cebta/search/tools_2.py:77 | iterating a list gives its items, a string its characters and a dict its keys, each as a string; iterating null, a number or a boolean raises |
| SearchExtended.Row | tools/cebta/search/tools_2.py:72-76 | a row has exactly title, juan and content, each the hit's value or "" when absent; a hit that is not a dict raises |
| SearchExtended.Rows | tools/cebta/search/tools_2.py:71-78 | succeeds exactly when every hit is a dict, and then gives one row per hit, in order |
| SearchExtended.Condense | tools/cebta/search/tools_2.py:70-79 | the result has exactly total and rows; total defaults to 0; no results gives no rows; a list succeeds exactly when every hit is a dict, with one row per hit in order; a string or a dict succeeds exactly when it is empty, with no rows; null, a number or a boolean raises; a body that is not a dict raises |
| SearchExtended.ExtendedSearch | tools/cebta/search/tools_2.py:55-82 | the query is quote(q), start and rows, in that order; the envelope is the condensed body, and failures are prefixed "CBETA 擴充搜尋失敗: " |
| SearchExtended.WithDefaults | tools/cebta/search/tools_2.py:25-28 | the declared defaults start = 0 and rows = 20; DefaultsSent states what is then sent |
| SearchExtended.DefaultsSent | tools/cebta/search/tools_2.py:25-28 | with q alone, quote(q), start = 0 and rows = 20 are sent |
| SearchExtended.RowDropsExtras | tools/cebta/search/tools_2.py:72-76 | no key of a hit other than title, juan and content gets into its row |
| PercentEncoding.Utf8 | tools/cebta/search/tools_2.py:57 | UTF-8 (RFC 3629) takes one to four bytes per character |
| PercentEncoding.IsSafeChar | tools/cebta/search/tools_2.py:57 | quote's always-safe set (ASCII letters, digits, "_.-~") plus the default safe "/"; QuoteSafeUnchanged and EncodeAlphabet state its effect |
| PercentEncoding.EncodeByte | tools/cebta/search/tools_2.py:57 | a safe byte as its own character, otherwise "%XX" in upper-case hex; DecodeEncodeByte states that it decodes back |
| PercentEncoding.PercentEncode | tools/cebta/search/tools_2.py:57 | each byte becomes one or three characters |
| PercentEncoding.Quote | tools/cebta/search/tools_2.py:57 | quote(q) is between one and twelve characters per character of q; QuoteRecoverable and QuoteInjective state that q can be read back |
| PercentEncoding.EncodeCharDecodes | tools/cebta/search/tools_2.py:57 | the lead byte of a character's UTF-8 encoding gives its length, and the bytes give back the character |
| PercentEncoding.Utf8Injective | tools/cebta/search/tools_2.py:57 | two strings with the same UTF-8 bytes are equal |
| PercentEncoding.QuoteInjective | tools/cebta/search/tools_2.py:57 | different queries are sent as different strings, so q can be recovered from quote(q) |
| PercentEncoding.DecodeEncode | tools/cebta/search/tools_2.py:57 | percent-decoding the encoding of any byte string gives back the bytes |
| PercentEncoding.QuoteRecoverable | tools/cebta/search/tools_2.py:57 | percent-decoding quote(q) gives exactly q's UTF-8 bytes |
| PercentEncoding.EncodeAlphabet | tools/cebta/search/tools_2.py:57 | the encoding uses only unreserved characters, "/", "%" and upper-case hex digits |
| PercentEncoding.QuoteSafeUnchanged | tools/cebta/search/tools_2.py:57 | a query made only of ASCII letters, digits, "_.-~" and "/" is sent unchanged |
| PercentEncoding.EncodeChar | tools/cebta/search/tools_2.py:57 | each character is 1 to 4 UTF-8 bytes, and exactly 1 for ASCII |
| SearchSc.Hits | tools/cebta/search/tools_4.py:42-45 | the result has exactly q and hits; q is the caller's input unchanged; hits defaults to 0; a body that is not a dict raises |
| SearchSc.CbetaSearchSc | tools/cebta/search/tools_4.py:28-48 | the query always has the five keys q, fields, rows, start and order, in order, None values included; the envelope is the reshaped body, and failures are prefixed "查詢 CBETA 失敗：" |
| SearchSc.WithDefaults | tools/cebta/search/tools_4.py:6-11 | the declared defaults rows = 10 and start = 0, with fields and order None; DefaultsSent states what is then sent |
| SearchSc.DefaultsSent | tools/cebta/search/tools_4.py:6-11 | with q alone, q, rows = 10 and start = 0 are sent, with fields and order as null |
| SearchSc.EchoesQuery | tools/cebta/search/tools_4.py:42-45 | a body without hits gives {"q": input q, "hits": 0} |
| SearchFacet.FacetUrl | tools/cebta/search/tools_5.py:47-48 | the URL is base + "/" + f when f is truthy, and exactly the base otherwise |
| SearchFacet.FacetRecoverable | tools/cebta/search/tools_5.py:47-48 | the facet kind can be read back from the URL: none for the base URL, else the f given |
| SearchFacet.CbetaFacetQuery | tools/cebta/search/tools_5.py:44-58 | the query is exactly {q}, and f is never sent as a parameter; the body is wrapped unchanged; failures are prefixed "CBETA facet 查詢失敗: " |
| SearchTitle.IsSpace | tools/cebta/search/tools_8.py:49 | the characters for which str.isspace() holds, which strip() removes; Strip states that only they are cut |
| SearchTitle.Strip | tools/cebta/search/tools_8.py:49 | strip() cuts only whitespace, in Python's str.isspace sense, from the two ends, and leaves no whitespace at either end |
| SearchTitle.StripIdempotent | tools/cebta/search/tools_8.py:49 | stripping twice is stripping once |
| SearchTitle.NonSpaceSurvives | tools/cebta/search/tools_8.py:49 | a query with three non-whitespace characters anywhere passes the length guard |
| SearchTitle.WithDefaults | tools/cebta/search/tools_8.py:41-44 | the declared defaults rows = 20 and start = 0; DefaultsSent states what is then sent |
| SearchTitle.DefaultsSent | tools/cebta/search/tools_8.py:41-44 | with q alone and long enough, q, rows = 20 and start = 0 are sent |
| SearchTitle.SearchTitle | tools/cebta/search/tools_8.py:41-59 | no request and the fixed message exactly when the stripped q is shorter than 3; otherwise the unstripped q, rows and start are forwarded; the body is wrapped unchanged; failures are prefixed "外部 API 請求失敗: " |

## Left out

- The HTTP calls (`httpx.AsyncClient`, `raise_for_status`, `resp.json()`, timeouts) are not modelled. Each call's outcome is an input.
- `async`/`await` and concurrency are left out. Each handler is sequential apart from its single awaited call.
- How httpx turns the query dict into a query string is not modelled. That covers how it renders None values, and that it percent-encodes again the already-quoted `q` of `extended_search`.
- Reflection and the filesystem (`pathlib.rglob`, `importlib.import_module`, `dir`, `getattr`) are replaced by a given sequence of units in `rglob` order, each with its exported attributes.
- Python's module cache is not modelled. Neither is the re-entrant `from main import ...` that the tool modules execute while `main` is still being imported.
- An exception raised by `dir()` or `getattr` after a successful import is not modelled. Only the import itself can fail.
- The MCP server and the registration the decorator performs are not modelled. Neither are FastAPI, uvicorn, or the `APP_BASE_URL`/`APP_PORT` configuration. Tool lookup, dispatch and argument validation belong to that library.
- pydantic validation is not modelled. Each parameter record is taken as already validated; `WithDefaults` gives its declared defaults, and None stays possible for optional fields.
- The service's bodies carry floats, for example coordinates in work records and search timings. `success_response(data)` passes them through, but `Json` has no float case. No tool computes on them.
- When a parsed body repeats a key, `Get` returns the last value, as Python's json module does. The position of that key in the dict is not modelled.
- The messages of Python's built-in exceptions follow CPython for missing attributes, non-subscriptable values, non-iterable values, index errors and key errors. Slicing a dict uses the CPython 3.11 message, `unhashable type: 'slice'`; later versions raise a KeyError instead. Either way the envelope is an error with the tool's prefix.
- The pass-through tools have no logic besides the GET and the envelope, so they are not modelled: search/tools_3, tools_6, tools_7, tools_9 and tools_10; work/tools_2, tools_3 and tools_5; catalog/tools_1 and tools_2.
- Docstrings and sample payloads are not modelled.
- PercentEncoding.EncodeChar: encodes Unicode scalar values as UTF-8 (RFC 3629). Dafny strings cannot hold lone surrogates, for which Python's strict codec raises, so that error is not modelled.
