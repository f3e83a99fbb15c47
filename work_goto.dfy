/**
 * `cbeta_goto` (tools/cebta/work/tools_4.py): ask the jump endpoint for the URL of a text
 * position, given either a line-head reference or canon/work/juan/vol/page/col/line fields.
 */
module WorkGoto {
  import opened Wrappers
  import opened Json
  import opened Responses

  const GotoUrl: string := "https://api.cbetaonline.cn/juans/goto"
  const FailPrefix: string := "CBETA 跳轉失敗："

  datatype GotoParams = GotoParams(
    canon: Option<string>,
    work: Option<string>,
    juan: Option<int>,
    vol: Option<int>,
    page: Option<int>,
    col: Option<string>,
    line: Option<int>,
    linehead: Option<string>)

  /** The position fields the loop visits, in its order. */
  const PositionFields: seq<string> := ["canon", "work", "juan", "vol", "page", "col", "line"]

  /** `getattr(params, field)` for a position field, None as null. */
  function Getattr(p: GotoParams, field: string): Json
  {
    match field
    case "canon" => StrOrNull(p.canon)
    case "work" => StrOrNull(p.work)
    case "juan" => IntOrNull(p.juan)
    case "vol" => IntOrNull(p.vol)
    case "page" => IntOrNull(p.page)
    case "col" => StrOrNull(p.col)
    case "line" => IntOrNull(p.line)
    case _ => JNull
  }

  /** The listed fields paired with their values. */
  function Attrs(p: GotoParams, fields: seq<string>): (r: Fields)
    ensures |r| == |fields|
    ensures forall i :: 0 <= i < |fields| ==> r[i] == (fields[i], Getattr(p, fields[i]))
  {
    if fields == [] then [] else Attrs(p, fields[..|fields| - 1]) + [(fields[|fields| - 1], Getattr(p, fields[|fields| - 1]))]
  }

  /** The query the tool sends: the line head alone when given, else every position field that is not None. */
  function GotoQuery(p: GotoParams): Fields
  {
    if TruthyStr(p.linehead) then [("linehead", JStr(p.linehead.value))]
    else DropNulls(Attrs(p, PositionFields))
  }

  /**
   * The remote reply stands for whatever `str(response.url)` is once the request succeeds; the
   * tool returns it as `{"url": ...}`.
   */
  method CbetaGoto(params: GotoParams, remote: Remote<string>) returns (x: Exchange)
    ensures x.sent == Some(Request(GotoUrl, GotoQuery(params)))
    ensures remote.Ok? ==> x.envelope == Success(JObj([("url", JStr(remote.value))]))
    ensures !remote.Ok? ==> x.envelope == Error(FailPrefix + remote.msg)
  {
    var query: Fields := [];
    if TruthyStr(params.linehead) {
      query := [("linehead", JStr(params.linehead.value))];
    } else {
      for i := 0 to |PositionFields|
        invariant query == DropNulls(Attrs(params, PositionFields[..i]))
      {
        var field := PositionFields[i];
        var value := Getattr(params, field);
        assert PositionFields[..i + 1][..i] == PositionFields[..i];
        DropNullsAppend(Attrs(params, PositionFields[..i]), [(field, value)]);
        if value != JNull {
          query := query + [(field, value)];
        }
      }
      assert PositionFields[..|PositionFields|] == PositionFields;
    }
    var envelope := Attempt(FailPrefix, remote, (u: string) => Val(JObj([("url", JStr(u))])));
    x := Exchange(Some(Request(GotoUrl, query)), envelope);
  }

  /** A line head overrides every other field. */
  lemma LineheadFirst(p: GotoParams, q: GotoParams)
    requires TruthyStr(p.linehead) && p.linehead == q.linehead
    ensures GotoQuery(p) == GotoQuery(q) == [("linehead", JStr(p.linehead.value))]
  {
  }

  /**
   * Without a line head, a position field is sent exactly when it is not None, with its value
   * (so 0 and "" are sent), the fields keep the loop's order, and nothing else is sent.
   */
  lemma PositionFieldsSent(p: GotoParams, field: string, v: Json)
    requires !TruthyStr(p.linehead)
    ensures (field, v) in GotoQuery(p) <==> field in PositionFields && v == Getattr(p, field) && v != JNull
    ensures IsSubsequence(GotoQuery(p), Attrs(p, PositionFields))
  {
    var all := Attrs(p, PositionFields);
    DropNullsMembers(all, (field, v));
    DropNullsOrdered(all);
    if (field, v) in all {
      var i :| 0 <= i < |all| && all[i] == (field, v);
      assert field == PositionFields[i];
    }
    if field in PositionFields && v == Getattr(p, field) {
      var i :| 0 <= i < |PositionFields| && PositionFields[i] == field;
      assert all[i] == (field, v);
    }
  }

  /** There is no guard: with no field at all the query is empty and the request is still made. */
  lemma NothingGivenEmptyQuery(p: GotoParams)
    requires p.linehead.None? && p.canon.None? && p.work.None? && p.juan.None? && p.vol.None?
    requires p.page.None? && p.col.None? && p.line.None?
    ensures GotoQuery(p) == []
  {
    var all := Attrs(p, PositionFields);
    DropNullsAllNull(all);
  }
}
