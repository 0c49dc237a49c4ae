/**
 * The sample access policy: a request is allowed when it says it is
 * authenticated and says it is not blocked.  Anything missing or of the
 * wrong type denies.
 */
module SamplePolicy {
  import opened Wrappers
  import opened PolicyTypes

  const AuthenticatedKey: string := "authenticated"
  const BlockedKey: string := "blocked"

  /** `request[key].(bool)`: the boolean stored under `key`, or `None` when it is missing or not a boolean. */
  function BoolField(request: Params, key: string): (r: Option<bool>)
    ensures r.Some? <==> key in request && request[key].Bool?
    ensures r.Some? ==> request[key] == Bool(r.value)
  {
    match Get(request, key)
    case Some(Bool(b)) => Some(b)
    case _ => None
  }

  /** The policy's descriptive fields; evaluation reads none of them and changes nothing. */
  datatype SamplePolicy = SamplePolicy(name: string, version: string, description: string) {

    /** Allows the request if the user is authenticated and not blocked. */
    function Evaluate(request: Params): (allowed: bool)
      ensures allowed <==>
        && AuthenticatedKey in request && request[AuthenticatedKey] == Bool(true)
        && BlockedKey in request && request[BlockedKey] == Bool(false)
    {
      match BoolField(request, AuthenticatedKey)
      case Some(auth) =>
        if auth then
          match BoolField(request, BlockedKey)
          case Some(blocked) => !blocked
          case None => false
        else false
      case None => false
    }
  }

  /** Fail-closed: a missing or non-boolean `blocked` denies, even for an authenticated request. */
  lemma DeniedWhenBlockedUnknown(p: SamplePolicy, request: Params)
    requires BlockedKey !in request || !request[BlockedKey].Bool?
    ensures !p.Evaluate(request)
  {
  }

  /** A missing, non-boolean or false `authenticated` denies whatever `blocked` says. */
  lemma DeniedUnlessAuthenticated(p: SamplePolicy, request: Params)
    requires AuthenticatedKey !in request || request[AuthenticatedKey] != Bool(true)
    ensures !p.Evaluate(request)
  {
  }

  /** Only the `authenticated` and `blocked` entries matter: requests that agree on them get the same verdict. */
  lemma OnlyTwoKeysMatter(p: SamplePolicy, r1: Params, r2: Params)
    requires Get(r1, AuthenticatedKey) == Get(r2, AuthenticatedKey)
    requires Get(r1, BlockedKey) == Get(r2, BlockedKey)
    ensures p.Evaluate(r1) == p.Evaluate(r2)
  {
    assert BoolField(r1, AuthenticatedKey) == BoolField(r2, AuthenticatedKey);
    assert BoolField(r1, BlockedKey) == BoolField(r2, BlockedKey);
  }

  /** The verdict does not depend on the policy's name, version or description. */
  lemma VerdictIgnoresPolicyFields(p: SamplePolicy, q: SamplePolicy, request: Params)
    ensures p.Evaluate(request) == q.Evaluate(request)
  {
  }
}
