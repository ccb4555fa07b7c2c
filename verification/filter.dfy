/**
 * The CORS filter wrapped around a handler: per request it either bypasses
 * (skip predicate true), answers a preflight (OPTIONS) itself with 204 and
 * no body, or annotates the response and forwards to the handler.
 *
 * `Decide` states the outcome as a value; `Serve` performs it on a response
 * writer, setting the headers one by one, and is proved to agree with it.
 */
module Filter {

  import opened Wrappers
  import opened Text
  import opened Config
  import opened Origin

  // Request header names read by the filter
  const HeaderOrigin: string := "Origin"
  const HeaderRequestHeaders: string := "Access-Control-Request-Headers"

  // Response header names written by the filter
  const HeaderAllowOrigin: string := "Access-Control-Allow-Origin"
  const HeaderAllowMethods: string := "Access-Control-Allow-Methods"
  const HeaderAllowHeaders: string := "Access-Control-Allow-Headers"
  const HeaderAllowCredentials: string := "Access-Control-Allow-Credentials"
  const HeaderExposeHeaders: string := "Access-Control-Expose-Headers"
  const HeaderMaxAge: string := "Access-Control-Max-Age"

  const MethodOptions: string := "OPTIONS"
  const StatusNoContent: int := 204

  /** Header storage keyed by exact name. */
  type Headers = map<string, string>

  /** The value of a header, "" when it is absent (so absent and empty read alike). */
  function HeaderGet(h: Headers, name: string): (v: string)
    ensures name in h ==> v == h[name]
    ensures name !in h ==> v == ""
  {
    if name in h then h[name] else ""
  }

  /** The read-only view of a request: its method and its headers. */
  datatype Request = Request(verb: string, headers: Headers)

  predicate IsPreflight(req: Request)
  {
    req.verb == MethodOptions
  }

  /** The three ways a request can leave the filter, with the headers it set. */
  datatype Step =
    | Bypassed                     // skip predicate true: handler called, nothing set
    | Forwarded(written: Headers)  // headers set, then the handler is called
    | Answered(written: Headers)   // preflight: headers set, 204, handler not called

  /** The headers written by a step, in the order of a map union over the writer's. */
  function Written(s: Step): Headers
  {
    match s
    case Bypassed => map[]
    case Forwarded(w) => w
    case Answered(w) => w
  }

  function Allowed(p: Policy, req: Request): Option<string>
  {
    AllowedOrigin(p.allowOrigins, p.allowCredentials, HeaderGet(req.headers, HeaderOrigin))
  }

  /** Headers set on a request that is forwarded to the handler. */
  function SimpleHeaders(p: Policy, req: Request): (r: Headers)
    ensures r.Keys <= {HeaderAllowOrigin, HeaderAllowCredentials, HeaderExposeHeaders}
    ensures HeaderAllowOrigin in r <==> Allowed(p, req).Some?
    ensures Allowed(p, req).Some? ==> r[HeaderAllowOrigin] == Allowed(p, req).value
    ensures HeaderAllowCredentials in r <==> p.allowCredentials
    ensures p.allowCredentials ==> r[HeaderAllowCredentials] == "true"
    ensures HeaderExposeHeaders in r <==> p.exposeHeaders != []
  {
    var allowed := Allowed(p, req);
    var h0: Headers := map[];
    var h1 := if allowed.Some? then h0[HeaderAllowOrigin := allowed.value] else h0;
    var h2 := if p.allowCredentials then h1[HeaderAllowCredentials := "true"] else h1;
    if p.exposeHeaders != [] then h2[HeaderExposeHeaders := Join(p.exposeHeaders)] else h2
  }

  /** Headers set on a preflight answer. */
  function PreflightHeaders(p: Policy, req: Request): (r: Headers)
    ensures r.Keys <= {HeaderAllowOrigin, HeaderAllowMethods, HeaderAllowHeaders, HeaderAllowCredentials, HeaderMaxAge}
    ensures HeaderAllowOrigin in r <==> Allowed(p, req).Some?
    ensures Allowed(p, req).Some? ==> r[HeaderAllowOrigin] == Allowed(p, req).value
    ensures HeaderAllowMethods in r && HeaderAllowHeaders in r
    ensures HeaderAllowCredentials in r <==> p.allowCredentials
    ensures p.allowCredentials ==> r[HeaderAllowCredentials] == "true"
    ensures HeaderMaxAge in r <==> p.maxAge > 0
  {
    var allowed := Allowed(p, req);
    var h0: Headers := map[];
    var h1 := if allowed.Some? then h0[HeaderAllowOrigin := allowed.value] else h0;
    var h2 := h1[HeaderAllowMethods := Join(p.allowMethods)];
    var h3 := h2[HeaderAllowHeaders := if p.allowHeaders != [] then Join(p.allowHeaders)
                                       else HeaderGet(req.headers, HeaderRequestHeaders)];
    var h4 := if p.allowCredentials then h3[HeaderAllowCredentials := "true"] else h3;
    if p.maxAge > 0 then h4[HeaderMaxAge := Decimal(p.maxAge)] else h4
  }

  /** What the filter does with `req` under policy `p`, given what the skip predicate returned. */
  function Decide(p: Policy, req: Request, skipped: bool): (s: Step)
    ensures skipped <==> s.Bypassed?
    ensures s.Answered? <==> !skipped && IsPreflight(req)
  {
    if skipped then Bypassed
    else if IsPreflight(req) then Answered(PreflightHeaders(p, req))
    else Forwarded(SimpleHeaders(p, req))
  }

  /**
   * The response target: the header map, the status written (0 until one is),
   * the body, and how many times the wrapped handler has run against it.
   * The handler's own writes are not modelled, only that it was called.
   */
  class ResponseWriter {
    var header: Headers
    var status: int
    var body: seq<char>
    var handlerCalls: nat

    constructor ()
      ensures header == map[] && status == 0 && body == [] && handlerCalls == 0
    {
      header, status, body, handlerCalls := map[], 0, [], 0;
    }

    /** Sets one header, replacing any earlier value under that name. */
    method SetHeader(name: string, value: string)
      modifies this
      ensures header == old(header)[name := value]
      ensures status == old(status) && body == old(body) && handlerCalls == old(handlerCalls)
    {
      header := header[name := value];
    }

    /** Writes the status line; the body is left as it is. */
    method WriteHeader(code: int)
      modifies this
      ensures status == code
      ensures header == old(header) && body == old(body) && handlerCalls == old(handlerCalls)
    {
      status := code;
    }

    /** Runs the wrapped handler, whose outcome (an error or none) is `outcome`. */
    method CallHandler(outcome: Option<string>) returns (err: Option<string>)
      modifies this
      ensures err == outcome
      ensures handlerCalls == old(handlerCalls) + 1
      ensures header == old(header) && status == old(status) && body == old(body)
    {
      handlerCalls := handlerCalls + 1;
      err := outcome;
    }
  }

  /** Setting a header after a union is the union with the updated map. */
  lemma UnionThenSet(base: Headers, w: Headers, name: string, value: string)
    ensures (base + w)[name := value] == base + w[name := value]
  {
  }

  /** Sets, one by one, the headers of a request that is forwarded to the handler. */
  method AnnotateSimple(p: Policy, req: Request, rw: ResponseWriter)
    modifies rw
    ensures rw.header == old(rw.header) + SimpleHeaders(p, req)
    ensures rw.status == old(rw.status) && rw.body == old(rw.body) && rw.handlerCalls == old(rw.handlerCalls)
  {
    var allowed := Allowed(p, req);
    ghost var w: Headers := map[];
    assert old(rw.header) + w == rw.header;
    if allowed.Some? {
      UnionThenSet(old(rw.header), w, HeaderAllowOrigin, allowed.value);
      rw.SetHeader(HeaderAllowOrigin, allowed.value);
      w := w[HeaderAllowOrigin := allowed.value];
    }
    if p.allowCredentials {
      UnionThenSet(old(rw.header), w, HeaderAllowCredentials, "true");
      rw.SetHeader(HeaderAllowCredentials, "true");
      w := w[HeaderAllowCredentials := "true"];
    }
    if p.exposeHeaders != [] {
      UnionThenSet(old(rw.header), w, HeaderExposeHeaders, Join(p.exposeHeaders));
      rw.SetHeader(HeaderExposeHeaders, Join(p.exposeHeaders));
      w := w[HeaderExposeHeaders := Join(p.exposeHeaders)];
    }
    assert w == SimpleHeaders(p, req);
  }

  /** Sets, one by one, the headers of a preflight answer. */
  method AnnotatePreflight(p: Policy, req: Request, rw: ResponseWriter)
    modifies rw
    ensures rw.header == old(rw.header) + PreflightHeaders(p, req)
    ensures rw.status == old(rw.status) && rw.body == old(rw.body) && rw.handlerCalls == old(rw.handlerCalls)
  {
    var allowed := Allowed(p, req);
    ghost var w: Headers := map[];
    assert old(rw.header) + w == rw.header;
    if allowed.Some? {
      UnionThenSet(old(rw.header), w, HeaderAllowOrigin, allowed.value);
      rw.SetHeader(HeaderAllowOrigin, allowed.value);
      w := w[HeaderAllowOrigin := allowed.value];
    }
    UnionThenSet(old(rw.header), w, HeaderAllowMethods, Join(p.allowMethods));
    rw.SetHeader(HeaderAllowMethods, Join(p.allowMethods));
    w := w[HeaderAllowMethods := Join(p.allowMethods)];
    var allowHeaders := if p.allowHeaders != [] then Join(p.allowHeaders)
                        else HeaderGet(req.headers, HeaderRequestHeaders);
    UnionThenSet(old(rw.header), w, HeaderAllowHeaders, allowHeaders);
    rw.SetHeader(HeaderAllowHeaders, allowHeaders);
    w := w[HeaderAllowHeaders := allowHeaders];
    if p.allowCredentials {
      UnionThenSet(old(rw.header), w, HeaderAllowCredentials, "true");
      rw.SetHeader(HeaderAllowCredentials, "true");
      w := w[HeaderAllowCredentials := "true"];
    }
    if p.maxAge > 0 {
      UnionThenSet(old(rw.header), w, HeaderMaxAge, Decimal(p.maxAge));
      rw.SetHeader(HeaderMaxAge, Decimal(p.maxAge));
      w := w[HeaderMaxAge := Decimal(p.maxAge)];
    }
    assert w == PreflightHeaders(p, req);
  }

  /**
   * One pass of the filter. `skipped` is what the skip predicate returned for
   * this request; `handlerOutcome` is what the wrapped handler would return.
   */
  method Serve(p: Policy, req: Request, skipped: bool, rw: ResponseWriter, handlerOutcome: Option<string>)
    returns (err: Option<string>)
    modifies rw
    ensures rw.header == old(rw.header) + Written(Decide(p, req, skipped))
    ensures rw.status == if Decide(p, req, skipped).Answered? then StatusNoContent else old(rw.status)
    ensures rw.body == old(rw.body)
    ensures rw.handlerCalls == old(rw.handlerCalls) + if Decide(p, req, skipped).Answered? then 0 else 1
    ensures err == if Decide(p, req, skipped).Answered? then None else handlerOutcome
  {
    if skipped {
      err := rw.CallHandler(handlerOutcome);
      assert old(rw.header) + map[] == rw.header;
    } else if !IsPreflight(req) {
      AnnotateSimple(p, req, rw);
      err := rw.CallHandler(handlerOutcome);
    } else {
      AnnotatePreflight(p, req, rw);
      rw.WriteHeader(StatusNoContent);
      err := None;
    }
  }
}
