/**
 * The set-header policy: validates that a header name and value are
 * configured as strings, and in the request phase replaces whatever the
 * request carries under that name with exactly the configured value.
 * `SetHeaderPolicy` has no fields, so its methods are modelled as
 * functions and methods of this module.
 */
module SetHeader {
  import opened Wrappers
  import opened PolicyTypes

  const HeaderNameKey: string := "headerName"
  const HeaderValueKey: string := "headerValue"

  const HeaderNameError: string := "headerName is required and must be a string"
  const HeaderValueError: string := "headerValue is required and must be a string"

  /** Checks that both parameters are strings; the `headerName` check comes first. */
  function Validate(params: Params): (r: Outcome<string>)
    ensures r == Pass <==> IsString(params, HeaderNameKey) && IsString(params, HeaderValueKey)
    ensures !IsString(params, HeaderNameKey) ==> r == Fail(HeaderNameError)
    ensures IsString(params, HeaderNameKey) && !IsString(params, HeaderValueKey) ==> r == Fail(HeaderValueError)
  {
    if !IsString(params, HeaderNameKey) then Fail(HeaderNameError)
    else if !IsString(params, HeaderValueKey) then Fail(HeaderValueError)
    else Pass
  }

  /** The policy processes request headers and skips the other three slots. */
  function Mode(): (m: ProcessingMode)
    ensures ProcessesRequestHeadersOnly(m)
  {
    ProcessingMode(
      requestHeaderMode := HeaderModeProcess,
      requestBodyMode := BodyModeSkip,
      responseHeaderMode := HeaderModeSkip,
      responseBodyMode := BodyModeSkip)
  }

  /**
   * The header map after `name` is set to `value`: the name carries exactly
   * that one value, whatever it carried before, and every other name, compared
   * exactly as given, is untouched.
   */
  function SetHeader(headers: Headers, name: string, value: string): (h: Headers)
    ensures name in h && h[name] == [value]
    ensures h.Keys == headers.Keys + {name}
    ensures forall k :: k in headers && k != name ==> h[k] == headers[k]
  {
    headers[name := [value]]
  }

  /** The decoded `headerName` parameter. */
  function HeaderName(params: Params): (r: string)
    requires IsString(params, HeaderNameKey)
    ensures params[HeaderNameKey] == Str(r)
  {
    params[HeaderNameKey].s
  }

  /** The decoded `headerValue` parameter. */
  function HeaderValue(params: Params): (r: string)
    requires IsString(params, HeaderValueKey)
    ensures params[HeaderValueKey] == Str(r)
  {
    params[HeaderValueKey].s
  }

  /**
   * Sets the configured header on the request in place and lets the request
   * continue.  The parameters must have passed `Validate` (the source panics
   * otherwise).
   */
  method OnRequest(ctx: RequestContext, params: Params) returns (action: RequestAction)
    requires Validate(params) == Pass
    modifies ctx
    ensures ctx.headers == SetHeader(old(ctx.headers), HeaderName(params), HeaderValue(params))
    ensures action == UpstreamRequestModifications
  {
    var headerName := params[HeaderNameKey].s;
    var headerValue := params[HeaderValueKey].s;
    ctx.headers := ctx.headers[headerName := [headerValue]];
    return UpstreamRequestModifications;
  }

  /** The response phase is not used: the response always continues. */
  function OnResponse(ctx: ResponseContext, params: Params): (a: ResponseAction)
    ensures a == UpstreamResponseModifications
  {
    UpstreamResponseModifications
  }

  /** Setting the same header twice gives the same map as setting it once. */
  lemma SetHeaderIdempotent(headers: Headers, name: string, value: string)
    ensures SetHeader(SetHeader(headers, name, value), name, value) == SetHeader(headers, name, value)
  {
  }

  /** The result depends only on the name, the value and the other headers: prior values under `name` are discarded. */
  lemma SetHeaderOverwrites(h1: Headers, h2: Headers, name: string, value: string)
    requires h1 - {name} == h2 - {name}
    ensures SetHeader(h1, name, value) == SetHeader(h2, name, value)
  {
    var r1, r2 := SetHeader(h1, name, value), SetHeader(h2, name, value);
    assert r1.Keys == r2.Keys by {
      forall k ensures k in r1 <==> k in r2 {
        if k != name {
          assert k in h1 <==> k in h1 - {name};
          assert k in h2 <==> k in h2 - {name};
        }
      }
    }
    forall k | k in r1 ensures r1[k] == r2[k] {
      if k != name {
        assert (h1 - {name})[k] == (h2 - {name})[k];
      }
    }
  }

  /** Header names are compared exactly: setting one name leaves a name differing only in letter case alone. */
  lemma NoCaseFolding(headers: Headers, value: string)
    requires "x-request-id" in headers
    ensures var h := SetHeader(headers, "X-Request-Id", value);
      "x-request-id" in h && h["x-request-id"] == headers["x-request-id"]
  {
  }

  /** A request through the policy twice with the same parameters ends with the same headers as once. */
  method OnRequestTwice(ctx: RequestContext, params: Params)
    requires Validate(params) == Pass
    modifies ctx
    ensures ctx.headers == SetHeader(old(ctx.headers), HeaderName(params), HeaderValue(params))
  {
    var _ := OnRequest(ctx, params);
    var _ := OnRequest(ctx, params);
    SetHeaderIdempotent(old(ctx.headers), HeaderName(params), HeaderValue(params));
  }
}
