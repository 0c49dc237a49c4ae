/**
 * The rate-limiter policy: a fixed-window counter per client.  Once more
 * than a minute has passed since the window opened, all counters are
 * cleared; a client whose counter has reached `requestsPerMinute +
 * burstLimit` is answered with 429 and its counter is left alone; any other
 * request increments the client's counter and goes upstream.
 *
 * Time is an integer count of nanoseconds.  A fresh policy's `lastReset` is
 * Go's zero `time.Time`, modelled as 0.  The clock reading `now` is a
 * parameter: a reading on the clock Go compares it with `lastReset` on, which
 * is the monotonic clock once a reset has stored a `time.Now()` value.
 */
module RateLimiter {
  import opened Wrappers
  import opened PolicyTypes

  /** `time.Minute`, in nanoseconds. */
  const Minute: int := 60 * 1000 * 1000 * 1000

  /** The client key every request is counted under (a fixed placeholder in the source). */
  const ClientIP: string := "127.0.0.1"

  const RequestsPerMinuteKey: string := "requestsPerMinute"
  const BurstLimitKey: string := "burstLimit"

  const RequestsPerMinuteError: string := "requestsPerMinute is required and must be an integer"
  const BurstLimitError: string := "burstLimit is required and must be an integer"

  /** The canned answer to a client over its quota. */
  function RateLimitExceeded(): (a: Action)
    ensures a.ImmediateResponse? && a.status == 429
    ensures a.headers.Keys == {"Content-Type"} && a.headers["Content-Type"] == ["application/json"]
    ensures a.body == "{\"error\": \"Rate limit exceeded\"}"
  {
    ImmediateResponse(429, map["Content-Type" := ["application/json"]], "{\"error\": \"Rate limit exceeded\"}")
  }

  /** Reading a Go `map[string]int`: a missing key reads as 0. */
  function Lookup(m: map<string, int>, k: string): (r: int)
    ensures k !in m ==> r == 0
    ensures k in m ==> r == m[k]
  {
    if k in m then m[k] else 0
  }

  function Min(a: int, b: int): int { if a <= b then a else b }
  function Max(a: int, b: int): int { if a >= b then a else b }

  /** The two fields of the policy: the counters (`None` is a nil Go map) and when the window opened. */
  datatype RateState = RateState(requestCounts: Option<map<string, int>>, lastReset: int)

  /** The state of a policy value that has never handled a request. */
  const Initial: RateState := RateState(None, 0)

  /** Whether a request at `now` finds the window older than a minute (strictly). */
  predicate Expired(s: RateState, now: int) {
    now - s.lastReset > Minute
  }

  /** The counters a request at `now` is checked against: after the nil map is allocated and an expired window cleared. */
  function WindowCounts(s: RateState, now: int): map<string, int> {
    if Expired(s, now) then map[] else s.requestCounts.GetOr(map[])
  }

  /** The client's count a request at `now` is checked against. */
  function WindowCount(s: RateState, now: int): int {
    Lookup(WindowCounts(s, now), ClientIP)
  }

  /** What one call of `OnRequest` at `now` does: the new state and the action returned. */
  datatype Decision = Decision(state: RateState, action: Action)

  /** One call of `OnRequest` with the decoded parameters `rpm` and `burst`, as a function of the old state. */
  function Step(s: RateState, rpm: int, burst: int, now: int): Decision {
    var counts := s.requestCounts.GetOr(map[]);
    var expired := now - s.lastReset > Minute;
    var window := if expired then map[] else counts;
    var lastReset := if expired then now else s.lastReset;
    var count := Lookup(window, ClientIP);
    if count >= rpm + burst then
      Decision(RateState(Some(window), lastReset), RateLimitExceeded())
    else
      Decision(RateState(Some(window[ClientIP := count + 1]), lastReset), UpstreamRequestModifications)
  }

  /** Whether `OnRequest` let the request through. */
  predicate Admitted(d: Decision) {
    d.action == UpstreamRequestModifications
  }

  /** `OnRequest` called once per clock reading in `times`, in order: the final state and how many requests were admitted. */
  datatype RunResult = RunResult(state: RateState, admitted: nat)

  function Run(s: RateState, rpm: int, burst: int, times: seq<int>): RunResult
    decreases |times|
  {
    if times == [] then RunResult(s, 0)
    else
      var d := Step(s, rpm, burst, times[0]);
      var r := Run(d.state, rpm, burst, times[1..]);
      RunResult(r.state, r.admitted + if Admitted(d) then 1 else 0)
  }

  /** Every counter lies between 0 and the quota (0 when the quota is negative), and only the client key is ever counted. */
  predicate WithinQuota(s: RateState, limit: int) {
    forall k :: k in s.requestCounts.GetOr(map[]) ==>
      k == ClientIP && 0 <= s.requestCounts.GetOr(map[])[k] <= Max(0, limit)
  }

  /** The decoded `requestsPerMinute` parameter. */
  function RequestsPerMinute(params: Params): (r: int)
    requires IsNumber(params, RequestsPerMinuteKey)
    ensures params[RequestsPerMinuteKey] == Num(r)
  {
    params[RequestsPerMinuteKey].n
  }

  /** The decoded `burstLimit` parameter. */
  function BurstLimit(params: Params): (r: int)
    requires IsNumber(params, BurstLimitKey)
    ensures params[BurstLimitKey] == Num(r)
  {
    params[BurstLimitKey].n
  }

  class RateLimiterPolicy {
    var requestCounts: Option<map<string, int>>
    var lastReset: int

    /** The zero value of the Go struct: a nil map and the zero time. */
    constructor ()
      ensures State() == Initial
    {
      requestCounts := None;
      lastReset := 0;
    }

    /** The policy's fields as a value. */
    function State(): RateState
      reads this
    {
      RateState(requestCounts, lastReset)
    }

    /** Checks that both numeric parameters are present; the `requestsPerMinute` check comes first. */
    function Validate(params: Params): (r: Outcome<string>)
      ensures r == Pass <==> IsNumber(params, RequestsPerMinuteKey) && IsNumber(params, BurstLimitKey)
      ensures !IsNumber(params, RequestsPerMinuteKey) ==> r == Fail(RequestsPerMinuteError)
      ensures IsNumber(params, RequestsPerMinuteKey) && !IsNumber(params, BurstLimitKey) ==> r == Fail(BurstLimitError)
    {
      if !IsNumber(params, RequestsPerMinuteKey) then Fail(RequestsPerMinuteError)
      else if !IsNumber(params, BurstLimitKey) then Fail(BurstLimitError)
      else Pass
    }

    /** The policy processes request headers and skips the other three slots. */
    function Mode(): (m: ProcessingMode)
      ensures ProcessesRequestHeadersOnly(m)
    {
      ProcessingMode(
        requestHeaderMode := HeaderModeProcess,
        requestBodyMode := BodyModeSkip,
        responseHeaderMode := HeaderModeSkip,
        responseBodyMode := BodyModeSkip)
    }

    /**
     * Counts the request against the client's quota for the current window.
     * The parameters must have passed `Validate` (the source panics otherwise).
     */
    method OnRequest(ctx: RequestContext, params: Params, now: int) returns (action: RequestAction)
      requires Validate(params) == Pass
      modifies this
      ensures State() == Step(old(State()), RequestsPerMinute(params), BurstLimit(params), now).state
      ensures action == Step(old(State()), RequestsPerMinute(params), BurstLimit(params), now).action
    {
      var rpm := params[RequestsPerMinuteKey].n;
      var burst := params[BurstLimitKey].n;

      var clientIP := ClientIP;
      if requestCounts == None {
        requestCounts := Some(map[]);
      }

      if now - lastReset > Minute {
        requestCounts := Some(map[]);
        lastReset := now;
      }

      var count := Lookup(requestCounts.value, clientIP);
      if count >= rpm + burst {
        return RateLimitExceeded();
      }

      requestCounts := Some(requestCounts.value[clientIP := count + 1]);
      return UpstreamRequestModifications;
    }

    /** The response phase is not used: the response always continues. */
    function OnResponse(ctx: ResponseContext, params: Params): (a: ResponseAction)
      ensures a == UpstreamResponseModifications
    {
      UpstreamResponseModifications
    }
  }

  /** The window is cleared exactly when more than a minute has passed; at exactly one minute it is kept. */
  lemma ResetRule(s: RateState, rpm: int, burst: int, now: int)
    ensures var d := Step(s, rpm, burst, now);
      && (Expired(s, now) ==>
            && d.state.lastReset == now
            && d.state.requestCounts.value.Keys <= {ClientIP}
            && Lookup(d.state.requestCounts.value, ClientIP) == (if Admitted(d) then 1 else 0))
      && (!Expired(s, now) ==> d.state.lastReset == s.lastReset)
  {
  }

  /** A request exactly one minute after the window opened does not clear it. */
  lemma NoResetAtExactlyOneMinute(s: RateState, rpm: int, burst: int)
    ensures !Expired(s, s.lastReset + Minute)
    ensures Step(s, rpm, burst, s.lastReset + Minute).state.lastReset == s.lastReset
    ensures WindowCounts(s, s.lastReset + Minute) == s.requestCounts.GetOr(map[])
  {
  }

  /** A request that finds the window expired is handled as if a fresh, empty window had opened at `now`. */
  lemma ExpiredIsFreshWindow(s: RateState, rpm: int, burst: int, now: int)
    requires Expired(s, now)
    ensures Step(s, rpm, burst, now) == Step(RateState(Some(map[]), now), rpm, burst, now)
  {
  }

  /** A nil counter map behaves as an empty one: the first lookup yields 0. */
  lemma NilCountsReadAsEmpty(lastReset: int, rpm: int, burst: int, now: int)
    ensures WindowCount(RateState(None, lastReset), now) == 0
    ensures Step(RateState(None, lastReset), rpm, burst, now) == Step(RateState(Some(map[]), lastReset), rpm, burst, now)
  {
  }

  /** A client at or over its quota gets the 429 answer, and no counter changes beyond the window's reset. */
  lemma RejectAtQuota(s: RateState, rpm: int, burst: int, now: int)
    requires WindowCount(s, now) >= rpm + burst
    ensures var d := Step(s, rpm, burst, now);
      && d.action == RateLimitExceeded()
      && d.action.status == 429
      && d.state.requestCounts == Some(WindowCounts(s, now))
  {
  }

  /** A client under its quota goes upstream; its counter goes up by one and no other counter changes. */
  lemma AdmitUnderQuota(s: RateState, rpm: int, burst: int, now: int)
    requires WindowCount(s, now) < rpm + burst
    ensures var d := Step(s, rpm, burst, now);
      && d.action == UpstreamRequestModifications
      && d.state.requestCounts.Some?
      && var after := d.state.requestCounts.value;
      && Lookup(after, ClientIP) == WindowCount(s, now) + 1
      && after.Keys == WindowCounts(s, now).Keys + {ClientIP}
      && forall k :: k in after && k != ClientIP ==> after[k] == WindowCounts(s, now)[k]
  {
  }

  /** The request goes upstream if and only if the client's count in the current window is below the quota; otherwise it gets the 429 answer. */
  lemma AdmissionRule(s: RateState, rpm: int, burst: int, now: int)
    ensures Admitted(Step(s, rpm, burst, now)) <==> WindowCount(s, now) < rpm + burst
    ensures !Admitted(Step(s, rpm, burst, now)) <==> Step(s, rpm, burst, now).action == RateLimitExceeded()
  {
  }

  /** Handling a request keeps every counter within the quota. */
  lemma StepKeepsQuota(s: RateState, rpm: int, burst: int, now: int)
    requires WithinQuota(s, rpm + burst)
    ensures WithinQuota(Step(s, rpm, burst, now).state, rpm + burst)
  {
  }

  /** A fresh policy's counters are within any quota. */
  lemma InitialWithinQuota(limit: int)
    ensures WithinQuota(Initial, limit)
  {
  }

  /** However many requests arrive, at whatever times, every counter stays within the quota. */
  lemma {:induction false} RunKeepsQuota(s: RateState, rpm: int, burst: int, times: seq<int>)
    requires WithinQuota(s, rpm + burst)
    ensures WithinQuota(Run(s, rpm, burst, times).state, rpm + burst)
    decreases |times|
  {
    if times != [] {
      StepKeepsQuota(s, rpm, burst, times[0]);
      RunKeepsQuota(Step(s, rpm, burst, times[0]).state, rpm, burst, times[1..]);
    }
  }

  /**
   * Requests that all arrive within a minute of the window's opening admit
   * as many as the remaining quota allows and no more; the window stays
   * open and the client's counter grows by the number admitted.
   */
  lemma {:induction false} RunWithinWindow(s: RateState, rpm: int, burst: int, times: seq<int>)
    requires forall i :: 0 <= i < |times| ==> !Expired(s, times[i])
    ensures var r := Run(s, rpm, burst, times);
      var c := WindowCount(s, s.lastReset);
      && r.admitted == Min(|times|, Max(0, rpm + burst - c))
      && r.state.lastReset == s.lastReset
      && WindowCount(r.state, s.lastReset) == c + r.admitted
    decreases |times|
  {
    if times != [] {
      var d := Step(s, rpm, burst, times[0]);
      assert WindowCount(s, times[0]) == WindowCount(s, s.lastReset);
      assert d.state.lastReset == s.lastReset;
      assert Lookup(d.state.requestCounts.value, ClientIP) == WindowCount(d.state, s.lastReset);
      forall i | 0 <= i < |times[1..]|
        ensures !Expired(d.state, times[1..][i])
      {
        assert times[1..][i] == times[i + 1];
      }
      RunWithinWindow(d.state, rpm, burst, times[1..]);
    }
  }

  /**
   * Starting from an empty window, `n` requests within the minute admit
   * exactly `min(n, max(0, requestsPerMinute + burstLimit))`.
   */
  lemma AdmittedFromEmptyWindow(s: RateState, rpm: int, burst: int, times: seq<int>)
    requires WindowCount(s, s.lastReset) == 0
    requires forall i :: 0 <= i < |times| ==> !Expired(s, times[i])
    ensures Run(s, rpm, burst, times).admitted == Min(|times|, Max(0, rpm + burst))
  {
    RunWithinWindow(s, rpm, burst, times);
  }

  /**
   * A burst of requests whose first one finds the window expired, and whose
   * others come within a minute of the first, admits exactly
   * `min(n, max(0, requestsPerMinute + burstLimit))`.
   */
  lemma AdmittedAfterReset(s: RateState, rpm: int, burst: int, times: seq<int>)
    requires |times| > 0 && Expired(s, times[0])
    requires forall i :: 0 <= i < |times| ==> times[i] - times[0] <= Minute
    ensures Run(s, rpm, burst, times).admitted == Min(|times|, Max(0, rpm + burst))
  {
    var window0 := RateState(Some(map[]), times[0]);
    ExpiredIsFreshWindow(s, rpm, burst, times[0]);
    assert Run(s, rpm, burst, times) == Run(window0, rpm, burst, times);
    AdmittedFromEmptyWindow(window0, rpm, burst, times);
  }
}
