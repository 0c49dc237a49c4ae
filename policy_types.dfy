/**
 * The types the rate-limiter and set-header models share: loosely typed
 * parameter and request values, the processing mode a policy announces, the
 * request and response contexts it receives and the actions it returns.
 * The two policies' main.go files each declare these locally, and only the
 * rate limiter declares `ImmediateResponse`; the sample policy declares none
 * of them.  The model keeps one copy.
 */
module PolicyTypes {
  import opened Wrappers

  /**
   * A value of Go type `interface{}` as decoded from a JSON configuration or
   * request: a number (`float64` in Go, an integer here), a string, a boolean
   * or anything else.  A Go type assertion `v.(float64)`, `v.(string)` or
   * `v.(bool)` succeeds exactly when the value has the matching constructor.
   */
  datatype Value = Num(n: int) | Str(s: string) | Bool(b: bool) | Other

  /** `map[string]interface{}`: a policy's parameters, or a request for the sample policy. */
  type Params = map<string, Value>

  /** `map[string][]string`: header names to their list of values. */
  type Headers = map<string, seq<string>>

  /** `m[key]` in Go: the stored value, or `None` (the nil interface) when the key is absent. */
  function Get(m: Params, key: string): (r: Option<Value>)
    ensures r.Some? <==> key in m
    ensures key in m ==> r.value == m[key]
  {
    if key in m then Some(m[key]) else None
  }

  /** `_, ok := m[key].(float64)` yields `ok`. */
  function IsNumber(m: Params, key: string): (ok: bool)
    ensures ok <==> key in m && m[key].Num?
  {
    match Get(m, key)
    case Some(Num(_)) => true
    case _ => false
  }

  /** `_, ok := m[key].(string)` yields `ok`. */
  function IsString(m: Params, key: string): (ok: bool)
    ensures ok <==> key in m && m[key].Str?
  {
    match Get(m, key)
    case Some(Str(_)) => true
    case _ => false
  }

  /** How a policy wants the header phase handled; the Go constants are the strings "SKIP" and "PROCESS". */
  datatype HeaderProcessingMode = HeaderModeSkip | HeaderModeProcess {
    function Name(): string {
      match this
      case HeaderModeSkip => "SKIP"
      case HeaderModeProcess => "PROCESS"
    }
  }

  /** How a policy wants the body phase handled; the Go constants are "SKIP", "BUFFER" and "STREAM". */
  datatype BodyProcessingMode = BodyModeSkip | BodyModeBuffer | BodyModeStream {
    function Name(): string {
      match this
      case BodyModeSkip => "SKIP"
      case BodyModeBuffer => "BUFFER"
      case BodyModeStream => "STREAM"
    }
  }

  /** The four processing slots a policy declares through its `Mode` method. */
  datatype ProcessingMode = ProcessingMode(
    requestHeaderMode: HeaderProcessingMode,
    requestBodyMode: BodyProcessingMode,
    responseHeaderMode: HeaderProcessingMode,
    responseBodyMode: BodyProcessingMode)

  /** The mode of a policy that looks at request headers and skips everything else. */
  predicate ProcessesRequestHeadersOnly(m: ProcessingMode) {
    && m.requestHeaderMode == HeaderModeProcess
    && m.requestBodyMode == BodyModeSkip
    && m.responseHeaderMode == HeaderModeSkip
    && m.responseBodyMode == BodyModeSkip
  }

  /** The Go strings a request-headers-only mode declares: "PROCESS" for request headers, "SKIP" for the other three slots. */
  lemma RequestHeadersOnlyNames(m: ProcessingMode)
    requires ProcessesRequestHeadersOnly(m)
    ensures m.requestHeaderMode.Name() == "PROCESS"
    ensures m.requestBodyMode.Name() == "SKIP"
    ensures m.responseHeaderMode.Name() == "SKIP"
    ensures m.responseBodyMode.Name() == "SKIP"
  {
  }

  /**
   * What a policy's request or response phase returns.  Go types both as the
   * empty interface, so any of these values may come back from either phase:
   * let the request continue upstream, let the response continue, or answer
   * the client directly.
   */
  datatype Action =
    | UpstreamRequestModifications
    | UpstreamResponseModifications
    | ImmediateResponse(status: int, headers: Headers, body: string)

  type RequestAction = Action
  type ResponseAction = Action

  /**
   * The request a policy sees.  A policy may change its header map in place,
   * so the context is an object.  The body, path and method carry no
   * behaviour in the policies modelled here and are left out.
   */
  class RequestContext {
    var headers: Headers

    constructor (headers: Headers)
      ensures this.headers == headers
    {
      this.headers := headers;
    }
  }

  /** The response a policy sees in its response phase; no modelled policy reads or changes it. */
  datatype ResponseContext = ResponseContext(responseHeaders: Headers, responseStatus: int)
}
