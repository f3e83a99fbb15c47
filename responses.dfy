/**
 * The response envelope every tool returns (main.py `success_response` / `error_response`),
 * and the shape of one tool invocation: the request it sends, if any, and the envelope.
 */
module Responses {
  import opened Wrappers
  import opened Json

  /** The two envelope shapes; no tool returns anything else. */
  datatype Envelope = Success(result: Json) | Error(message: string)
  {
    /** The dict the tool hands back to its caller. */
    function ToJson(): Json
    {
      match this
      case Success(r) => SuccessResponse(r)
      case Error(m) => ErrorResponse(m)
    }
  }

  /** `{"status": "success", "result": result}`. */
  function SuccessResponse(result: Json): (j: Json)
    ensures j.JObj? && Keys(j.fields) == ["status", "result"]
    ensures Get(j.fields, "status") == Some(JStr("success"))
    ensures Get(j.fields, "result") == Some(result)
    ensures Get(j.fields, "message") == None
  {
    JObj([("status", JStr("success")), ("result", result)])
  }

  /** `{"status": "error", "message": message}`. */
  function ErrorResponse(message: string): (j: Json)
    ensures j.JObj? && Keys(j.fields) == ["status", "message"]
    ensures Get(j.fields, "status") == Some(JStr("error"))
    ensures Get(j.fields, "message") == Some(JStr(message))
    ensures Get(j.fields, "result") == None
  {
    JObj([("status", JStr("error")), ("message", JStr(message))])
  }

  /** How a caller reads an envelope back: by its `status`, then `result` or `message`. */
  function ParseEnvelope(j: Json): Option<Envelope>
  {
    if !j.JObj? then None
    else match (Get(j.fields, "status"), Get(j.fields, "result"), Get(j.fields, "message"))
      case (Some(JStr("success")), Some(r), None) => Some(Success(r))
      case (Some(JStr("error")), None, Some(JStr(m))) => Some(Error(m))
      case _ => None
  }

  /** Reading back the dict of an envelope gives the envelope. */
  lemma ParseToJson(e: Envelope)
    ensures ParseEnvelope(e.ToJson()) == Some(e)
  {
  }

  /** Two different envelopes never produce the same dict: `status` tells the shapes apart. */
  lemma {:induction false} ToJsonInjective(e1: Envelope, e2: Envelope)
    requires e1.ToJson() == e2.ToJson()
    ensures e1 == e2
  {
    ParseToJson(e1);
    ParseToJson(e2);
  }

  /** What a tool sends to the remote service: a URL and its query dict. */
  datatype Request = Request(url: string, query: Fields)

  /**
   * The outcome of the one HTTP GET a tool makes, given as an input: the parsed body (or, for
   * the jump tool, the final URL), a failure of the HTTP client (transport, timeout,
   * `raise_for_status`), or a body that is not JSON (`resp.json()` raising).
   */
  datatype Remote<+T> = Ok(value: T) | HttpFail(msg: string) | DecodeFail(msg: string)

  /** One invocation of a tool: the request it made (None when a guard returned early) and its envelope. */
  datatype Exchange = Exchange(sent: Option<Request>, envelope: Envelope)

  /**
   * The `try` block shared by the tools: make the call, reshape the parsed body with `shape`,
   * and turn any exception, of the call or of the reshaping, into `error_response(prefix + str(e))`.
   */
  function Attempt<T>(prefix: string, remote: Remote<T>, shape: T -> Py<Json>): (e: Envelope)
    ensures !remote.Ok? ==> e == Error(prefix + remote.msg)
    ensures remote.Ok? ==> match shape(remote.value)
      case Val(v) => e == Success(v)
      case Raise(err) => e == Error(prefix + err.Message())
  {
    match remote
    case Ok(data) =>
      (match shape(data)
       case Val(v) => Success(v)
       case Raise(err) => Error(prefix + err.Message()))
    case _ => Error(prefix + remote.msg)
  }
}
