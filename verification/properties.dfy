/**
 * What the filter promises for every policy and request, stated over
 * `Decide` (which `Serve` is proved to carry out on the response writer).
 */
module FilterProperties {

  import opened Wrappers
  import opened Text
  import opened Config
  import opened Origin
  import opened Filter

  /** The header names the filter may write. */
  const CorsHeaderNames: set<string> := {HeaderAllowOrigin, HeaderAllowMethods, HeaderAllowHeaders,
                                         HeaderAllowCredentials, HeaderExposeHeaders, HeaderMaxAge}

  /** The Origin value the filter sees in `req`. */
  function RequestOrigin(req: Request): string
  {
    HeaderGet(req.headers, HeaderOrigin)
  }

  /** The filter only ever writes the six Access-Control response headers, and a forwarded
      request never gets the preflight-only ones. */
  lemma WritesOnlyCorsHeaders(p: Policy, req: Request, skipped: bool)
    ensures Written(Decide(p, req, skipped)).Keys <= CorsHeaderNames
    ensures Decide(p, req, skipped).Forwarded? ==>
              Written(Decide(p, req, skipped)).Keys <= {HeaderAllowOrigin, HeaderAllowCredentials, HeaderExposeHeaders}
    ensures Decide(p, req, skipped).Answered? ==> HeaderExposeHeaders !in Written(Decide(p, req, skipped))
  {
  }

  /** The Allow-Origin header is written exactly when the matcher admits the origin, with its value. */
  lemma AllowOriginIsMatcherDecision(p: Policy, req: Request)
    ensures var w := Written(Decide(p, req, false));
            var a := AllowedOrigin(p.allowOrigins, p.allowCredentials, RequestOrigin(req));
            (HeaderAllowOrigin in w <==> a.Some?) && (a.Some? ==> w[HeaderAllowOrigin] == a.value)
  {
  }

  /** An absent Origin header and an empty one lead to the same outcome. */
  lemma AbsentOriginLikeEmpty(p: Policy, verb: string, h: Headers, skipped: bool)
    ensures Decide(p, Request(verb, h - {HeaderOrigin}), skipped)
         == Decide(p, Request(verb, h[HeaderOrigin := ""]), skipped)
  {
    assert HeaderGet(h - {HeaderOrigin}, HeaderOrigin) == HeaderGet(h[HeaderOrigin := ""], HeaderOrigin);
  }

  /** Under a wildcard policy (no allow-list given), a request without an Origin gets `*`,
      whatever the credentials flag and whether preflight or not. */
  lemma NoOriginGetsWildcard(given: Policy, req: Request)
    requires given.allowOrigins == []
    requires RequestOrigin(req) == ""
    ensures var w := Written(Decide(WithConfig(Some(given)), req, false));
            HeaderAllowOrigin in w && w[HeaderAllowOrigin] == Wildcard
    ensures var w := Written(Decide(New(), req, false));
            HeaderAllowOrigin in w && w[HeaderAllowOrigin] == Wildcard
  {
  }

  /** Under a wildcard policy with credentials on, a non-empty Origin is echoed verbatim, not `*`. */
  lemma WildcardWithCredentialsEchoes(given: Policy, req: Request)
    requires given.allowOrigins == [] && given.allowCredentials
    requires RequestOrigin(req) != ""
    ensures var w := Written(Decide(WithConfig(Some(given)), req, false));
            HeaderAllowOrigin in w && w[HeaderAllowOrigin] == RequestOrigin(req)
  {
  }

  /** Under a wildcard policy with credentials off, every origin gets `*`. */
  lemma WildcardWithoutCredentials(given: Policy, req: Request)
    requires given.allowOrigins == [] && !given.allowCredentials
    ensures var w := Written(Decide(WithConfig(Some(given)), req, false));
            HeaderAllowOrigin in w && w[HeaderAllowOrigin] == Wildcard
  {
  }

  /** A listed origin (ahead of any wildcard entry) is echoed verbatim. */
  lemma ListedOriginAllowed(given: Policy, req: Request, k: nat)
    requires k < |given.allowOrigins| && given.allowOrigins[k] == RequestOrigin(req) != ""
    requires forall j :: 0 <= j < k ==> given.allowOrigins[j] != Wildcard
    ensures var w := Written(Decide(WithConfig(Some(given)), req, false));
            HeaderAllowOrigin in w && w[HeaderAllowOrigin] == RequestOrigin(req)
  {
    ListedOriginEchoed(given.allowOrigins, given.allowCredentials, RequestOrigin(req), k);
  }

  /** An explicit allow-list that neither holds the origin nor a wildcard leaves Allow-Origin
      out; the request is still forwarded (or answered, if a preflight), never refused. */
  lemma UnlistedOriginDenied(given: Policy, req: Request)
    requires given.allowOrigins != []
    requires Wildcard !in given.allowOrigins && RequestOrigin(req) !in given.allowOrigins
    ensures HeaderAllowOrigin !in Written(Decide(WithConfig(Some(given)), req, false))
    ensures !IsPreflight(req) ==> Decide(WithConfig(Some(given)), req, false).Forwarded?
  {
  }

  /** A skipped request is handed to the handler with no header written. */
  lemma SkippedWritesNothing(p: Policy, req: Request)
    ensures Decide(p, req, true) == Bypassed
    ensures Written(Decide(p, req, true)) == map[]
  {
  }

  /** A forwarded request gets the credentials flag when enabled and the joined expose list when
      one is configured. */
  lemma ForwardedHeaders(p: Policy, req: Request)
    requires !IsPreflight(req)
    ensures var w := Written(Decide(p, req, false));
            && (HeaderAllowCredentials in w <==> p.allowCredentials)
            && (p.allowCredentials ==> w[HeaderAllowCredentials] == "true")
            && (HeaderExposeHeaders in w <==> p.exposeHeaders != [])
            && (p.exposeHeaders != [] ==> w[HeaderExposeHeaders] == Join(p.exposeHeaders))
            && (p.exposeHeaders != [] && (forall i :: 0 <= i < |p.exposeHeaders| ==> Comma !in p.exposeHeaders[i])
                ==> Split(w[HeaderExposeHeaders]) == p.exposeHeaders)
  {
    if p.exposeHeaders != [] && forall i :: 0 <= i < |p.exposeHeaders| ==> Comma !in p.exposeHeaders[i] {
      SplitJoin(p.exposeHeaders);
    }
  }

  /** A preflight answer carries the joined method list (the standard list when none was given),
      the credentials flag when enabled, and the max-age in decimal when it is positive. */
  lemma PreflightAnswer(given: Policy, req: Request)
    requires IsPreflight(req)
    ensures var p := WithConfig(Some(given));
            var w := Written(Decide(p, req, false));
            && Decide(p, req, false).Answered?
            && HeaderAllowMethods in w
            && w[HeaderAllowMethods] == Join(if given.allowMethods == [] then DefaultAllowMethods else given.allowMethods)
            && (HeaderAllowCredentials in w <==> given.allowCredentials)
            && (given.allowCredentials ==> w[HeaderAllowCredentials] == "true")
            && (HeaderMaxAge in w <==> given.maxAge > 0)
            && (given.maxAge > 0 ==> w[HeaderMaxAge] == Decimal(given.maxAge))
            && (given.maxAge > 0 ==> ParseDecimal(w[HeaderMaxAge]) == Some(given.maxAge))
  {
    if given.maxAge > 0 {
      ParseDecimalOfDecimal(given.maxAge);
    }
  }

  /** A preflight answer's Allow-Headers is the configured list when there is one, and otherwise
      the request's Access-Control-Request-Headers verbatim. */
  lemma PreflightAllowHeaders(p: Policy, req: Request)
    requires IsPreflight(req)
    ensures var w := Written(Decide(p, req, false));
            && HeaderAllowHeaders in w
            && (p.allowHeaders == [] ==> w[HeaderAllowHeaders] == HeaderGet(req.headers, HeaderRequestHeaders))
            && (p.allowHeaders != [] ==> w[HeaderAllowHeaders] == Join(p.allowHeaders))
  {
  }

  // The standard method list joined suffix by suffix, one element per step.

  lemma JoinedFromPost()
    ensures Join(DefaultAllowMethods[4..]) == "POST,DELETE"
  {
    assert DefaultAllowMethods[4..] == ["POST"] + ["DELETE"];
    JoinCons("POST", ["DELETE"], "DELETE");
  }

  lemma JoinedFromPatch()
    ensures Join(DefaultAllowMethods[3..]) == "PATCH,POST,DELETE"
  {
    assert DefaultAllowMethods[3..] == ["PATCH"] + DefaultAllowMethods[4..];
    JoinedFromPost();
    JoinCons("PATCH", DefaultAllowMethods[4..], "POST,DELETE");
  }

  lemma JoinedFromPut()
    ensures Join(DefaultAllowMethods[2..]) == "PUT,PATCH,POST,DELETE"
  {
    assert DefaultAllowMethods[2..] == ["PUT"] + DefaultAllowMethods[3..];
    JoinedFromPatch();
    JoinCons("PUT", DefaultAllowMethods[3..], "PATCH,POST,DELETE");
  }

  lemma JoinedFromHead()
    ensures Join(DefaultAllowMethods[1..]) == "HEAD,PUT,PATCH,POST,DELETE"
  {
    assert DefaultAllowMethods[1..] == ["HEAD"] + DefaultAllowMethods[2..];
    JoinedFromPut();
    JoinCons("HEAD", DefaultAllowMethods[2..], "PUT,PATCH,POST,DELETE");
  }

  /** The standard method list joins to the exact string a preflight answer carries by default. */
  lemma DefaultMethodsJoined()
    ensures Join(DefaultAllowMethods) == "GET,HEAD,PUT,PATCH,POST,DELETE"
  {
    assert DefaultAllowMethods == ["GET"] + DefaultAllowMethods[1..];
    JoinedFromHead();
    JoinCons("GET", DefaultAllowMethods[1..], "HEAD,PUT,PATCH,POST,DELETE");
  }

  /** An hour of max-age renders as "3600". */
  lemma MaxAgeHour()
    ensures Decimal(3600) == "3600"
  {
    assert NatDigits(3) == "3";
    assert NatDigits(36) == "36";
    assert NatDigits(360) == "360";
  }
}
