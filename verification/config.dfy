/**
 * The CORS policy (GoaCORSConfig) and how a missing or partial policy is
 * filled with defaults when the filter is built (New / WithConfig).
 */
module Config {

  import opened Wrappers

  /** The allow-list entry that admits every origin. */
  const Wildcard: string := "*"

  /** The methods a preflight answer allows when the policy names none. */
  const DefaultAllowMethods: seq<string> := ["GET", "HEAD", "PUT", "PATCH", "POST", "DELETE"]

  /**
   * A policy. Empty lists stand for unset slices; `maxAge` is in seconds and
   * is only sent when positive. The skip predicate is not a field: the filter
   * takes what it returned for the current request as an input.
   */
  datatype Policy = Policy(
    allowOrigins: seq<string>,
    allowMethods: seq<string>,
    allowHeaders: seq<string>,
    exposeHeaders: seq<string>,
    allowCredentials: bool,
    maxAge: int)

  /** The policy used when none is given: any origin, the standard methods, nothing else. */
  const DefaultPolicy: Policy := Policy([Wildcard], DefaultAllowMethods, [], [], false, 0)

  /** Fills the two lists that have defaults, leaving every other setting as given. */
  function WithDefaults(p: Policy): (r: Policy)
    ensures r.allowOrigins != [] && r.allowMethods != []
    ensures p.allowOrigins != [] ==> r.allowOrigins == p.allowOrigins
    ensures p.allowOrigins == [] ==> r.allowOrigins == [Wildcard]
    ensures p.allowMethods != [] ==> r.allowMethods == p.allowMethods
    ensures p.allowMethods == [] ==> r.allowMethods == DefaultAllowMethods
    ensures r.allowHeaders == p.allowHeaders && r.exposeHeaders == p.exposeHeaders
    ensures r.allowCredentials == p.allowCredentials && r.maxAge == p.maxAge
  {
    p.(allowOrigins := if p.allowOrigins == [] then [Wildcard] else p.allowOrigins,
       allowMethods := if p.allowMethods == [] then DefaultAllowMethods else p.allowMethods)
  }

  /** The policy a filter built by WithConfig uses; `None` is a nil configuration. */
  function WithConfig(given: Option<Policy>): (r: Policy)
    ensures given.None? ==> r == DefaultPolicy
    ensures given.Some? ==> r == WithDefaults(given.value)
  {
    match given
    case None => DefaultPolicy
    case Some(p) => WithDefaults(p)
  }

  /** The policy a filter built by New uses. */
  function New(): (r: Policy)
    ensures r == WithConfig(None)
  {
    DefaultPolicy
  }

  /** Defaulting changes nothing the second time. */
  lemma WithDefaultsIdempotent(p: Policy)
    ensures WithDefaults(WithDefaults(p)) == WithDefaults(p)
  {
  }

  /** The default policy is a fixed point of defaulting. */
  lemma DefaultPolicyIsDefaulted()
    ensures WithDefaults(DefaultPolicy) == DefaultPolicy
    ensures WithConfig(Some(DefaultPolicy)) == WithConfig(None)
  {
  }

  /** An empty given policy defaults to the same thing as no policy at all. */
  lemma EmptyPolicyIsNoPolicy()
    ensures WithConfig(Some(Policy([], [], [], [], false, 0))) == WithConfig(None)
  {
  }
}
