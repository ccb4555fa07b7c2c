/**
 * The scenarios of the package's test suite, each run through `Serve` on a
 * fresh response writer with a handler that succeeds. Every method returns
 * what its test inspects and promises what its test asserts.
 */
module Scenarios {

  import opened Wrappers
  import opened Config
  import opened Filter
  import opened FilterProperties

  const MethodGet: string := "GET"
  const HeaderContentType: string := "Content-Type"

  /** A policy as a test literal gives it: only the named settings, the rest unset. */
  function Given(allowOrigins: seq<string>, allowHeaders: seq<string>, exposeHeaders: seq<string>,
                 allowCredentials: bool, maxAge: int): Policy
  {
    Policy(allowOrigins, [], allowHeaders, exposeHeaders, allowCredentials, maxAge)
  }

  /** GET through New(): no error and Allow-Origin `*`. */
  method NewPolicyGet() returns (err: Option<string>, allowOrigin: string)
    ensures err == None && allowOrigin == "*"
  {
    var rw := new ResponseWriter();
    err := Serve(New(), Request(MethodGet, map[]), false, rw, None);
    allowOrigin := HeaderGet(rw.header, HeaderAllowOrigin);
  }

  /** GET through WithConfig(nil): no error and Allow-Origin `*`. */
  method NilPolicyGet() returns (err: Option<string>, allowOrigin: string)
    ensures err == None && allowOrigin == "*"
  {
    var rw := new ResponseWriter();
    err := Serve(WithConfig(None), Request(MethodGet, map[]), false, rw, None);
    allowOrigin := HeaderGet(rw.header, HeaderAllowOrigin);
  }

  /** Credentials on, no allow-list, no Origin header: Allow-Origin `*`. */
  method NoOriginWithCredentials() returns (err: Option<string>, allowOrigin: string)
    ensures err == None && allowOrigin == "*"
  {
    var rw := new ResponseWriter();
    var p := WithConfig(Some(Given([], [], [], true, 0)));
    err := Serve(p, Request(MethodGet, map[]), false, rw, None);
    allowOrigin := HeaderGet(rw.header, HeaderAllowOrigin);
  }

  /** Credentials on, no allow-list, an empty Origin header: Allow-Origin `*`. */
  method EmptyOriginWithCredentials() returns (err: Option<string>, allowOrigin: string)
    ensures err == None && allowOrigin == "*"
  {
    var rw := new ResponseWriter();
    var p := WithConfig(Some(Given([], [], [], true, 0)));
    err := Serve(p, Request(MethodGet, map[HeaderOrigin := ""]), false, rw, None);
    allowOrigin := HeaderGet(rw.header, HeaderAllowOrigin);
  }

  /** Credentials on, no allow-list, Origin http://someorigin.com: that origin is echoed. */
  method WildcardEchoesOrigin() returns (err: Option<string>, allowOrigin: string)
    ensures err == None && allowOrigin == "http://someorigin.com"
  {
    var rw := new ResponseWriter();
    var p := WithConfig(Some(Given([], [], [], true, 0)));
    err := Serve(p, Request(MethodGet, map[HeaderOrigin := "http://someorigin.com"]), false, rw, None);
    allowOrigin := HeaderGet(rw.header, HeaderAllowOrigin);
  }

  /** An origin missing from the allow-list: no Allow-Origin, and the handler still runs. */
  method OriginNotListed() returns (err: Option<string>, allowOrigin: string, handlerCalls: nat)
    ensures err == None && allowOrigin == "" && handlerCalls == 1
  {
    var rw := new ResponseWriter();
    var p := WithConfig(Some(Given(["http://example.com"], [], [], true, 0)));
    err := Serve(p, Request(MethodGet, map[HeaderOrigin := "http://someorigin.com"]), false, rw, None);
    allowOrigin := HeaderGet(rw.header, HeaderAllowOrigin);
    handlerCalls := rw.handlerCalls;
  }

  /** A listed origin is echoed, and the expose list is sent. */
  method FixedOriginWithExpose() returns (err: Option<string>, allowOrigin: string, exposeHeaders: string)
    ensures err == None && allowOrigin == "http://someorigin.com" && exposeHeaders == "ETag"
  {
    var rw := new ResponseWriter();
    var p := WithConfig(Some(Given(["http://someorigin.com"], [], ["ETag"], true, 0)));
    err := Serve(p, Request(MethodGet, map[HeaderOrigin := "http://someorigin.com"]), false, rw, None);
    allowOrigin := HeaderGet(rw.header, HeaderAllowOrigin);
    exposeHeaders := HeaderGet(rw.header, HeaderExposeHeaders);
  }

  /** A preflight from a listed origin: 204, empty body, the handler never runs, and every
      preflight header carries the expected value. */
  method PreflightFromListedOrigin()
    returns (err: Option<string>, status: int, bodyLength: nat, handlerCalls: nat,
             allowOrigin: string, allowMethods: string, allowCredentials: string,
             maxAge: string, allowHeaders: string)
    ensures err == None && status == 204 && bodyLength == 0 && handlerCalls == 0
    ensures allowOrigin == "localhost" && allowMethods == "GET,HEAD,PUT,PATCH,POST,DELETE"
    ensures allowCredentials == "true" && maxAge == "3600" && allowHeaders == "X-OriginalRequest"
  {
    var rw := new ResponseWriter();
    var p := WithConfig(Some(Given(["localhost"], [], [], true, 3600)));
    var req := Request(MethodOptions, map[HeaderOrigin := "localhost",
                                          HeaderRequestHeaders := "X-OriginalRequest",
                                          HeaderContentType := "application/json"]);
    DefaultMethodsJoined();
    MaxAgeHour();
    err := Serve(p, req, false, rw, None);
    status, bodyLength, handlerCalls := rw.status, |rw.body|, rw.handlerCalls;
    allowOrigin := HeaderGet(rw.header, HeaderAllowOrigin);
    allowMethods := HeaderGet(rw.header, HeaderAllowMethods);
    allowCredentials := HeaderGet(rw.header, HeaderAllowCredentials);
    maxAge := HeaderGet(rw.header, HeaderMaxAge);
    allowHeaders := HeaderGet(rw.header, HeaderAllowHeaders);
  }

  /** Origin localhost against an allow-list holding only example.com: no Allow-Origin. */
  method UnlistedLocalhost() returns (err: Option<string>, allowOrigin: string)
    ensures err == None && allowOrigin == ""
  {
    var rw := new ResponseWriter();
    var p := WithConfig(Some(Given(["example.com"], [], [], true, 0)));
    err := Serve(p, Request(MethodGet, map[HeaderOrigin := "localhost"]), false, rw, None);
    allowOrigin := HeaderGet(rw.header, HeaderAllowOrigin);
  }

  /** The skip predicate returns true: nothing is written and the handler's result comes back. */
  method SkipperBypasses() returns (err: Option<string>, allowOrigin: string, handlerCalls: nat)
    ensures err == None && allowOrigin == "" && handlerCalls == 1
  {
    var rw := new ResponseWriter();
    var p := WithConfig(Some(Given(["example.com"], [], [], true, 0)));
    err := Serve(p, Request(MethodGet, map[HeaderOrigin := "mismatchedhost"]), true, rw, None);
    allowOrigin := HeaderGet(rw.header, HeaderAllowOrigin);
    handlerCalls := rw.handlerCalls;
  }

  /** A GET from a listed origin: the origin is echoed. */
  method GetFromListedOrigin() returns (err: Option<string>, allowOrigin: string)
    ensures err == None && allowOrigin == "localhost"
  {
    var rw := new ResponseWriter();
    var p := WithConfig(Some(Given(["localhost"], [], [], true, 0)));
    var req := Request(MethodGet, map[HeaderOrigin := "localhost", HeaderContentType := "application/json"]);
    err := Serve(p, req, false, rw, None);
    allowOrigin := HeaderGet(rw.header, HeaderAllowOrigin);
  }

  /** A preflight under a configured Allow-Headers list: that list is sent, with 204 and no body. */
  method PreflightConfiguredAllowHeaders()
    returns (err: Option<string>, status: int, bodyLength: nat, allowHeaders: string)
    ensures err == None && status == 204 && bodyLength == 0 && allowHeaders == "X-OrigHeader"
  {
    var rw := new ResponseWriter();
    var p := WithConfig(Some(Given([], ["X-OrigHeader"], [], true, 0)));
    err := Serve(p, Request(MethodOptions, map[HeaderOrigin := "http://someorigin.com"]), false, rw, None);
    status, bodyLength := rw.status, |rw.body|;
    allowHeaders := HeaderGet(rw.header, HeaderAllowHeaders);
  }
}
