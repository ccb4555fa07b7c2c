# goacors CORS filter — a Dafny model

`goacors` is a goa middleware that enforces Cross-Origin Resource Sharing (the
CORS protocol of section 3.2 of the WHATWG Fetch Standard, in a simplified
form). It wraps a handler. For each request it does one of three things:

- If the skip predicate says so, it bypasses all CORS work.
- It answers a preflight (`OPTIONS`) itself with `204 No Content` and an
  empty body, and never calls the handler.
- Otherwise it adds the CORS response headers and forwards to the handler,
  returning the handler's result unchanged.

This project models that decision and the header assembly:

- `config.dfy` (module `Config`): the policy (`GoaCORSConfig`) and how `New`
  / `WithConfig` fill a nil or partial policy with defaults. The defaults are
  the wildcard allow-list `["*"]` and the methods
  `GET,HEAD,PUT,PATCH,POST,DELETE`.
- `origin.dfy` (module `Origin`): the origin matcher. It takes the allow-list,
  the credentials flag and the request's `Origin` value. It returns the
  `Access-Control-Allow-Origin` value, or `None` when that header is left out.
- `text.dfy` (module `Text`): the comma-join without spaces and the decimal
  rendering of `MaxAge`. Each has its inverse (`Split`, `ParseDecimal`) and
  round-trip proofs.
- `filter.dfy` (module `Filter`): the request view, a `ResponseWriter` class
  (header map, status, body, handler-call count) and the imperative filter
  step `Serve`. `Serve` sets the headers one at a time. It is proved equal to
  the pure outcome `Decide`: bypassed, forwarded with headers, or answered
  with headers.
- `properties.dfy` (module `FilterProperties`): the promises of the filter for
  every policy and request, stated over `Decide`.
- `scenarios.dfy` (module `Scenarios`): each test of `cors_test.go`, run
  through `Serve` on a fresh writer. Each method returns what its test
  inspects and proves what its test asserts.

The behaviour modelled is what the assertions of `cors_test.go` require. On one
point those assertions go against the strict CORS rule:

- Under that rule, a response to a credentialed request may not use `*` as its
  allowed origin.
- The tests go along with this only in part. With credentials on and no
  allow-list, a non-empty `Origin` is echoed back verbatim
  (`cors_test.go:100-121`). An absent or empty `Origin` still gets the literal
  `*` (`cors_test.go:53-97`).
- The model does exactly what the tests expect (`Origin.AllowedOrigin`,
  `FilterProperties.WildcardWithCredentialsEchoes`,
  `FilterProperties.NoOriginGetsWildcard`).

Other modelling choices:

- Request and response headers are maps keyed by the exact header name.
- Reading a header gives `""` when it is absent, as Go's `Header.Get` does.
- The model treats an empty `Origin` exactly like a missing one, under every
  policy (`FilterProperties.AbsentOriginLikeEmpty`). The filter sees the
  header only through `Header.Get`, which cannot tell the two apart. The tests
  at `cors_test.go:53-97` check both cases and expect the same answer.
- So with an explicit allow-list, neither an absent nor an empty `Origin`
  gets Allow-Origin, unless the list holds `*`.
- Allow-Origin is left out when the matcher admits nothing. A preflight
  always gets Allow-Headers: with no configured list it echoes the request's
  `Access-Control-Request-Headers`. If that header is absent, the echoed value
  is `""`. Either way a `Header.Get` on the response reads `""`, as for an
  absent header.
- The wildcard is the allow-list entry `*`. The list is scanned in order, and
  the first entry that is `*` or equals the non-empty origin decides.
- The skip predicate is a boolean input: what it returned for this request.
- The handler is an outcome (an error or none) and a call counter on the
  writer.

## Model

| member | source | states |
|---|---|---|
| Config.WithDefaults | cors_test.go:193-207 | an empty allow-list becomes `["*"]` and an empty method list becomes GET,HEAD,PUT,PATCH,POST,DELETE; every other setting is kept as given; the result never has an empty allow-list or method list |
| Config.WithConfig | cors_test.go:32-50 | a nil policy is the default policy; a given one is defaulted field by field |
| Config.New | cors_test.go:12-30 | `New` builds the same filter as `WithConfig(nil)` |
| Config.WithDefaultsIdempotent | cors_test.go:193-207 | defaulting a defaulted policy changes nothing |
| Config.DefaultPolicyIsDefaulted | cors_test.go:20-41 | the default policy is a fixed point of defaulting, so `WithConfig(&default)` equals `WithConfig(nil)` |
| Config.EmptyPolicyIsNoPolicy | cors_test.go:32-50 | an all-unset policy yields the same filter as a nil one |
| Origin.AllowedOrigin | cors_test.go:100-177 | a value is produced iff the list holds `*` or the non-empty origin; the value is never empty and is the origin or `*`; `*` only comes from a wildcard entry with credentials off or an empty origin, and a leading wildcard entry with credentials off or an empty origin answers `*`; without a wildcard entry the value is the origin |
| Origin.CredentialsEchoOrigin | cors_test.go:100-121 | with credentials on, an admitted non-empty origin is echoed, never `*` |
| Origin.ListedOriginEchoed | cors_test.go:149-173 | an origin listed before any wildcard entry is echoed verbatim, credentials on or off |
| Origin.FirstMatchDecides | cors_test.go:124-177 | entries after the first deciding entry never change the answer (the in-order scan this model adopts; every test uses a one-entry allow-list, so none exercises entry order) |
| Origin.WildcardAnswersStar | cors_test.go:12-97 | a wildcard entry reached before any entry naming the origin answers `*` when credentials are off or the origin is empty |
| Text.Join | cors_test.go:207-210 | a one-element list joins to that element; with more, the result starts with the first element, followed directly by a comma, with no space |
| Text.SplitJoin | cors_test.go:174-177 | a non-empty comma-free list joined with `,` splits back to the same list (the empty list joins to `""`, which splits to `[""]`) |
| Text.JoinSplit | cors_test.go:207-210 | every string is the join of its comma split: join and split are inverse |
| Text.NatDigits | cors_test.go:215-218 | the rendering is non-empty decimal digits, with no leading zero except for 0 |
| Text.Decimal | cors_test.go:215-218 | non-negative numbers render as canonical digits; negative ones as `-` followed by decimal digits with no leading zero |
| Text.ParseDecimalOfDecimal | cors_test.go:215-218 | parsing the decimal rendering of any integer gives it back |
| Text.DecimalInjective | cors_test.go:215-218 | distinct max-ages render differently |
| Filter.HeaderGet | cors_test.go:76-97 | a present header reads as its value, an absent one as `""` |
| Filter.SimpleHeaders | cors_test.go:149-177 | a forwarded request's headers are at most Allow-Origin, Allow-Credentials and Expose-Headers. Allow-Origin is present iff the matcher admits the origin, with its value. Allow-Credentials is `true` iff credentials are on. Expose-Headers is present iff a list is configured |
| Filter.PreflightHeaders | cors_test.go:180-230 | a preflight's headers are at most Allow-Origin, Allow-Methods, Allow-Headers, Allow-Credentials and Max-Age; Allow-Methods and Allow-Headers are always present. Allow-Origin is present iff the matcher admits the origin. Allow-Credentials is `true` iff credentials are on. Max-Age is present iff it is positive |
| Filter.ResponseWriter.SetHeader | cors_test.go:203-222 | `rw.Header().Set`: the named header takes the value, replacing any earlier one; status, body and handler calls are unchanged |
| Filter.ResponseWriter.WriteHeader | cors_test.go:224-230 | the 204 write: the status becomes the given code; headers, body and handler calls are unchanged |
| Filter.ResponseWriter.CallHandler | cors_test.go:190-192 | calling the wrapped handler: the call count goes up by one and the handler's error is returned unchanged; headers, status and body are untouched by the filter |
| Filter.Decide | cors_test.go:180-283 | the request is bypassed exactly when skipped, and answered exactly when not skipped and the method is OPTIONS; otherwise it is forwarded |
| Filter.AnnotateSimple | cors_test.go:149-177 | on a forwarded request the writer's headers become the old ones updated with the forwarded-request headers; status, body and handler calls are unchanged |
| Filter.AnnotatePreflight | cors_test.go:180-230 | on a preflight the writer's headers become the old ones updated with the preflight headers; status, body and handler calls are unchanged |
| Filter.Serve | cors_test.go:180-283 | the writer's headers become the old ones updated with what `Decide` writes. On a preflight the status becomes 204, the body is untouched, the handler is not called and no error is returned. Otherwise the handler is called exactly once and its error is returned unchanged |
| FilterProperties.WritesOnlyCorsHeaders | cors_test.go:149-230 | only the six Access-Control headers are ever written; a forwarded request only gets Allow-Origin, Allow-Credentials and Expose-Headers; a preflight never gets Expose-Headers |
| FilterProperties.AllowOriginIsMatcherDecision | cors_test.go:100-177 | Allow-Origin is written iff the matcher admits the origin, with the matcher's value |
| FilterProperties.AbsentOriginLikeEmpty | cors_test.go:53-97 | an absent Origin header and an empty one lead to the same outcome |
| FilterProperties.NoOriginGetsWildcard | cors_test.go:12-97 | with no allow-list (or `New`) and no Origin, Allow-Origin is `*`, for any credentials flag and any method |
| FilterProperties.WildcardWithCredentialsEchoes | cors_test.go:100-121 | with no allow-list and credentials on, a non-empty Origin is echoed verbatim |
| FilterProperties.WildcardWithoutCredentials | cors_test.go:12-50 | with no allow-list and credentials off, every origin gets `*` |
| FilterProperties.ListedOriginAllowed | cors_test.go:149-173 | an origin listed before any wildcard entry gets Allow-Origin equal to itself |
| FilterProperties.UnlistedOriginDenied | cors_test.go:124-146 | an allow-list with neither the origin nor `*` leaves Allow-Origin out, and a non-preflight request is still forwarded to the handler |
| FilterProperties.SkippedWritesNothing | cors_test.go:258-283 | a skipped request writes no header and is handed to the handler |
| FilterProperties.ForwardedHeaders | cors_test.go:149-177 | on a forwarded request, Allow-Credentials is `true` iff credentials are on; Expose-Headers is present iff a list is configured; it is the joined list and splits back to it |
| FilterProperties.PreflightAnswer | cors_test.go:180-230 | a preflight is answered, with Allow-Methods the joined configured or default list, Allow-Credentials `true` iff credentials are on, and Max-Age present iff positive, equal to the decimal rendering of the configured value and parsing back to it |
| FilterProperties.PreflightAllowHeaders | cors_test.go:180-230 | a preflight's Allow-Headers is the joined configured list, or else the request's Access-Control-Request-Headers verbatim |
| FilterProperties.DefaultMethodsJoined | cors_test.go:207-210 | the default method list joins to `GET,HEAD,PUT,PATCH,POST,DELETE` |
| FilterProperties.MaxAgeHour | cors_test.go:215-218 | a max-age of 3600 renders as `3600` |
| Scenarios.NewPolicyGet | cors_test.go:12-30 | a GET through `New` returns no error and gets Allow-Origin `*` |
| Scenarios.NilPolicyGet | cors_test.go:32-50 | a GET through `WithConfig(nil)` returns no error and gets Allow-Origin `*` |
| Scenarios.NoOriginWithCredentials | cors_test.go:53-74 | with credentials on and no Origin header, Allow-Origin is `*` |
| Scenarios.EmptyOriginWithCredentials | cors_test.go:76-98 | with credentials on and an empty Origin header, Allow-Origin is `*` |
| Scenarios.WildcardEchoesOrigin | cors_test.go:100-122 | with credentials on and no allow-list, Origin `http://someorigin.com` is echoed |
| Scenarios.OriginNotListed | cors_test.go:124-147 | an origin missing from the allow-list gets no Allow-Origin; the handler runs once and no error is returned |
| Scenarios.FixedOriginWithExpose | cors_test.go:149-178 | a listed origin is echoed and Expose-Headers is `ETag` |
| Scenarios.PreflightFromListedOrigin | cors_test.go:180-231 | the preflight gets 204, an empty body and no handler call. Its headers are Allow-Origin `localhost`, Allow-Methods `GET,HEAD,PUT,PATCH,POST,DELETE`, Allow-Credentials `true`, Max-Age `3600` and Allow-Headers `X-OriginalRequest` |
| Scenarios.UnlistedLocalhost | cors_test.go:233-256 | origin `localhost` against the list `example.com` gets no Allow-Origin |
| Scenarios.SkipperBypasses | cors_test.go:258-284 | when skipped, no Allow-Origin is written, the handler runs once and its result is returned |
| Scenarios.GetFromListedOrigin | cors_test.go:286-311 | a GET from the listed origin `localhost` gets Allow-Origin `localhost` |
| Scenarios.PreflightConfiguredAllowHeaders | cors_test.go:313-345 | a preflight under the configured Allow-Headers `X-OrigHeader` gets that value, status 204 and an empty body |

## Left out

- goa service plumbing is not modelled: the service, the request context, `service.Send` and the test response writer. The writer is replaced by the `ResponseWriter` class.
- Filter.Serve: a failure while writing the 204 is not modelled; the preflight path always returns no error.
- Building `net/http` requests and `context.Context` is not modelled.
- Go's canonical-case handling of header keys is not modelled. Headers are keyed by exact name.
- Header values are single strings set with `Set`. Multi-valued headers (`Header.Add`) are not modelled.
- The skip predicate and the handler are Go callbacks. They are replaced by a boolean input and an outcome (an error or none) plus a call counter.
- The handler's own status and body writes are not modelled. The only status the filter writes is 204.
- `Access-Control-Request-Method` is not modelled. No behaviour of the filter depends on it.
- `MaxAge` is modelled as an unbounded integer. Go's `int` width does not matter for the decimal rendering.
