# Gateway policy plug-ins, modelled in Dafny

This project models three small gateway policy plug-ins written in Go and proves properties of them:

- **rate-limiter** (`policies/rate-limiter/v1.0.6/src/main.go`): a fixed-window request counter. `Validate` checks the numeric parameters `requestsPerMinute` and `burstLimit`. `OnRequest` clears all counters once more than a minute has passed. It then answers a client whose count has reached `requestsPerMinute + burstLimit` with a canned 429 response. Any other request increments the client's counter and goes upstream.
- **set-header** (`policies/set-header/v1.0.2/src/main.go`): `Validate` checks the string parameters `headerName` and `headerValue`. `OnRequest` replaces the request's values under that header with the one configured value.
- **sample-policy** (`examples/examples/sample-policy/v1.0.0/src/main.go`): `Evaluate` allows a request that is authenticated and not blocked.

Layout:

- `wrappers.dfy`, module `Wrappers`: `Option` (a Go nil, or a lookup that found nothing) and `Outcome` (a Go `error`: `Pass` is nil, `Fail` carries the message).
- `policy_types.dfy`, module `PolicyTypes`: the types the rate-limiter and set-header models share. `Value` stands for Go's `interface{}`, and `Params` and `Headers` for Go's built-in map types. The other types are declared locally in both the rate-limiter and set-header files; only the rate limiter declares `ImmediateResponse`. They are the processing modes, the `Action` a phase returns, the `RequestContext` class whose header map a policy may change, and `ResponseContext`. A Go type assertion such as `v.(float64)` becomes a constructor test such as `v.Num?`.
- `rate_limiter.dfy`, module `RateLimiter`:
  - The class `RateLimiterPolicy` has the source's two fields. `requestCounts` is an `Option<map<string, int>>`, where `None` is the nil map of a fresh policy. `lastReset` is an integer time.
  - `OnRequest` is an imperative method. Its postcondition ties the new fields and the returned action to the pure function `Step` of the old fields.
  - The lemmas about `Step` and about `Run` (a sequence of calls) state the reset rule, the admission rule, the quota invariant and the exact number of admitted requests.
- `set_header.dfy`, module `SetHeader`: `SetHeaderPolicy` has no fields, so its members are module-level. `OnRequest` changes `ctx.headers` in place. Its postcondition is stated through `SetHeader`, and the lemmas about that function give overwrite, framing and idempotence.
- `sample_policy.dfy`, module `SamplePolicy`: the `SamplePolicy` struct becomes a datatype and `Evaluate` a function on it. Being a function, it cannot change the request map or the policy's `name`, `version` and `description`.

Time is an integer count of nanoseconds. `Minute` is `time.Minute` in nanoseconds. A fresh policy's `lastReset` is Go's zero `time.Time`, modelled as 0. The clock reading `now` is a parameter of `OnRequest`. It is a reading on whichever clock Go uses to compare it with `lastReset`. For the first request, that is the wall clock measured from the zero time. Once a reset has stored a `time.Now()` value, Go compares on the monotonic clock. Go's `now.Sub(lastReset)` saturates at the limits of `time.Duration`. Saturation never changes the result of comparing with one minute, so the exact integer difference is used.

## Model

| member | source | states |
|---|---|---|
| `PolicyTypes.RequestHeadersOnlyNames` | policies/rate-limiter/v1.0.6/src/main.go:12-23 | a request-headers-only mode declares the Go strings "PROCESS" for request headers and "SKIP" for the other three slots |
| `PolicyTypes.Get` | policies/rate-limiter/v1.0.6/src/main.go:73-76 | reading `params[key]` yields the stored value when the key is present, and nothing (the nil interface) when it is absent |
| `PolicyTypes.IsNumber` | policies/rate-limiter/v1.0.6/src/main.go:73-76 | the `.(float64)` assertion succeeds iff the key is present with a numeric value |
| `PolicyTypes.IsString` | policies/set-header/v1.0.2/src/main.go:62-65 | the `.(string)` assertion succeeds iff the key is present with a string value |
| `RateLimiter.RequestsPerMinute` | policies/rate-limiter/v1.0.6/src/main.go:94 | on validated parameters, yields the number stored under `requestsPerMinute` |
| `RateLimiter.BurstLimit` | policies/rate-limiter/v1.0.6/src/main.go:95 | on validated parameters, yields the number stored under `burstLimit` |
| `RateLimiter.RateLimitExceeded` | policies/rate-limiter/v1.0.6/src/main.go:113-119 | the rejection is an immediate response with status 429, exactly one header `Content-Type: application/json`, and the body `{"error": "Rate limit exceeded"}` |
| `RateLimiter.Lookup` | policies/rate-limiter/v1.0.6/src/main.go:110 | reading a counter map yields the stored count, or 0 for a client with no entry (Go's zero value) |
| `RateLimiter.RateLimiterPolicy.constructor` | policies/rate-limiter/v1.0.6/src/main.go:65-69 | a fresh policy has a nil counter map and the zero time as its last reset |
| `RateLimiter.RateLimiterPolicy.Validate` | policies/rate-limiter/v1.0.6/src/main.go:72-80 | passes iff both `requestsPerMinute` and `burstLimit` are present and numeric; a bad `requestsPerMinute` gives its own message even when `burstLimit` is also bad; otherwise a bad `burstLimit` gives its message |
| `RateLimiter.RateLimiterPolicy.Mode` | policies/rate-limiter/v1.0.6/src/main.go:83-90 | request headers PROCESS; request body, response headers and response body SKIP |
| `RateLimiter.RateLimiterPolicy.OnRequest` | policies/rate-limiter/v1.0.6/src/main.go:93-124 | given validated parameters, the new fields and the returned action are those of `Step` on the old fields, the decoded parameters and `now` |
| `RateLimiter.RateLimiterPolicy.OnResponse` | policies/rate-limiter/v1.0.6/src/main.go:127-129 | the response phase always returns `UpstreamResponseModifications` |
| `RateLimiter.ResetRule` | policies/rate-limiter/v1.0.6/src/main.go:104-108 | when more than a minute has passed, the window restarts at `now`, holds only the client's key, and the client's counter restarts: 1 if the request is admitted, 0 if it is rejected; otherwise `lastReset` is kept |
| `RateLimiter.NoResetAtExactlyOneMinute` | policies/rate-limiter/v1.0.6/src/main.go:105 | a request exactly one minute after the last reset keeps the window and its counters |
| `RateLimiter.ExpiredIsFreshWindow` | policies/rate-limiter/v1.0.6/src/main.go:104-108 | a request that finds the window expired is handled exactly as from an empty window opened at `now` |
| `RateLimiter.NilCountsReadAsEmpty` | policies/rate-limiter/v1.0.6/src/main.go:99-101 | a nil counter map behaves as an empty one, so the first lookup yields 0 |
| `RateLimiter.RejectAtQuota` | policies/rate-limiter/v1.0.6/src/main.go:110-120 | a client whose count is at or above `rpm + burst` gets the 429 response, and its counter is not incremented |
| `RateLimiter.AdmitUnderQuota` | policies/rate-limiter/v1.0.6/src/main.go:110-123 | a client under the quota goes upstream; its counter becomes count + 1; every other entry is unchanged and no other key is added |
| `RateLimiter.AdmissionRule` | policies/rate-limiter/v1.0.6/src/main.go:110-123 | a request is admitted iff the client's count in the current window is below `rpm + burst`; otherwise the action is the 429 response |
| `RateLimiter.StepKeepsQuota` | policies/rate-limiter/v1.0.6/src/main.go:110-122 | if every counter lies in `0..max(0, rpm + burst)` and only the client key is counted, this still holds after a request |
| `RateLimiter.InitialWithinQuota` | policies/rate-limiter/v1.0.6/src/main.go:65-69 | a fresh policy satisfies the quota invariant for any limit |
| `RateLimiter.RunKeepsQuota` | policies/rate-limiter/v1.0.6/src/main.go:104-123 | over any sequence of requests at any times, every counter stays in `0..max(0, rpm + burst)` and only the client key is counted |
| `RateLimiter.RunWithinWindow` | policies/rate-limiter/v1.0.6/src/main.go:104-123 | requests arriving while the window is still open admit `min(n, max(0, rpm + burst - c))`, where `c` is the client's count; the window is kept and the counter grows by the number admitted |
| `RateLimiter.AdmittedFromEmptyWindow` | policies/rate-limiter/v1.0.6/src/main.go:110-123 | starting from an empty window, `n` calls without a reset admit exactly `min(n, max(0, rpm + burst))` |
| `RateLimiter.AdmittedAfterReset` | policies/rate-limiter/v1.0.6/src/main.go:104-123 | `n` calls whose first finds the window expired and whose others come within a minute of it admit exactly `min(n, max(0, rpm + burst))` |
| `SetHeader.Validate` | policies/set-header/v1.0.2/src/main.go:61-69 | passes iff `headerName` and `headerValue` are both present strings; a bad `headerName` is reported first; otherwise a bad `headerValue` is reported |
| `SetHeader.HeaderName` | policies/set-header/v1.0.2/src/main.go:83 | on validated parameters, yields the string stored under `headerName` |
| `SetHeader.HeaderValue` | policies/set-header/v1.0.2/src/main.go:84 | on validated parameters, yields the string stored under `headerValue` |
| `SetHeader.Mode` | policies/set-header/v1.0.2/src/main.go:72-79 | request headers PROCESS; request body, response headers and response body SKIP |
| `SetHeader.SetHeader` | policies/set-header/v1.0.2/src/main.go:85 | afterwards the header name carries exactly the one configured value; the key set grows by that name only; every other header is unchanged |
| `SetHeader.OnRequest` | policies/set-header/v1.0.2/src/main.go:82-87 | given validated parameters, the request's header map becomes `SetHeader` of the old map, the configured name and the configured value; the action is `UpstreamRequestModifications` |
| `SetHeader.OnResponse` | policies/set-header/v1.0.2/src/main.go:90-92 | the response phase always returns `UpstreamResponseModifications` |
| `SetHeader.SetHeaderIdempotent` | policies/set-header/v1.0.2/src/main.go:85 | setting the same header twice gives the same map as setting it once |
| `SetHeader.SetHeaderOverwrites` | policies/set-header/v1.0.2/src/main.go:85 | maps that differ only in their values under the header name give the same result, so prior values are discarded |
| `SetHeader.NoCaseFolding` | policies/set-header/v1.0.2/src/main.go:85 | names are compared exactly: a name differing only in letter case keeps its values |
| `SetHeader.OnRequestTwice` | policies/set-header/v1.0.2/src/main.go:82-87 | running the request phase twice with the same parameters leaves the headers as one run does |
| `SamplePolicy.BoolField` | examples/examples/sample-policy/v1.0.0/src/main.go:19-20 | the boolean type assertion succeeds iff the key is present with a boolean value, and then yields that boolean |
| `SamplePolicy.SamplePolicy.Evaluate` | examples/examples/sample-policy/v1.0.0/src/main.go:17-25 | a request is allowed iff `authenticated` is the boolean true and `blocked` is the boolean false |
| `SamplePolicy.DeniedWhenBlockedUnknown` | examples/examples/sample-policy/v1.0.0/src/main.go:20-24 | fail-closed: a missing or non-boolean `blocked` denies, even when the request is authenticated |
| `SamplePolicy.DeniedUnlessAuthenticated` | examples/examples/sample-policy/v1.0.0/src/main.go:19-24 | a missing, non-boolean or false `authenticated` denies whatever `blocked` says |
| `SamplePolicy.OnlyTwoKeysMatter` | examples/examples/sample-policy/v1.0.0/src/main.go:19-20 | requests that agree on `authenticated` and `blocked` get the same verdict, whatever their other keys |
| `SamplePolicy.VerdictIgnoresPolicyFields` | examples/examples/sample-policy/v1.0.0/src/main.go:17-25 | the verdict does not depend on the policy's name, version or description |

## Left out

- Floating point: parameters arrive as JSON numbers (`float64`), and `OnRequest` truncates them with `int(...)`. The model's numbers are integers from the start.
- RateLimiter.RateLimiterPolicy.OnRequest: does not model 64-bit overflow of `rpm + burst` or of `count + 1`. The model's integers are unbounded. A realistic configuration stays far from the 64-bit range, and the out-of-range `float64`-to-`int` conversion before the sum has no defined result in Go anyway.
- Panics: `OnRequest` in both policies panics on parameters that fail the type assertion. The model instead requires that `Validate` passed.
- Nil context and nil header map: set-header's `OnRequest` panics in Go when `ctx` is nil, or when `ctx.Headers` is a nil map, because it assigns into it. The model's `RequestContext` parameter is never null and its `headers` is always a map.
- Aliasing: a Go map is a reference, so other holders of the request's header map see the set-header update. The model's map is a value held by the `RequestContext` object.
- Wall clock: `time.Now()` becomes the `now` parameter of `OnRequest`. The model has one integer clock. It does not capture Go's switch from wall time (first request, compared against the zero time) to monotonic time (after a reset). A caller must pass readings of the clock Go would compare on. For example, after a reset a wall-clock step forward of an hour does not clear the window in Go.
- Client identity: the source counts every request under the fixed key `127.0.0.1`, and so does the model. Nothing reads a client address from the request.
- Concurrency: the rate limiter's map is not safe for concurrent use. The model treats all calls as sequential.
- The sample policy's `main` and its printing: they are demonstration I/O, and the file's duplicate `package` line and scrambled `main` do not parse. Only `Evaluate` is modelled.
- Placeholders: `Body`, the request's `Path` and `Method`, the response body and status carry no behaviour in these policies.
