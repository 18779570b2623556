/**
 * The request gate that runs in front of every page and API route:
 * answers CORS preflight requests, rate-limits each client per path, marks
 * counsellor routes as needing sign-in, and decorates the forwarded response
 * with security and CORS headers. The clock (`now`) and the CSP nonce are
 * parameters; the authentication call itself is outside the model.
 */
module Proxy {
  import opened Wrappers
  import opened Text
  import opened FixedWindow

  // ------------------------------------------------------------ rate limits

  const WindowMs: int := 15 * 60 * 1000
  const MaxRequests: int := 100
  const ApiWindowMs: int := 60 * 1000
  const ApiMaxRequests: int := 30

  /** A path is an API route when it starts with "/api". */
  predicate IsApiRoute(pathname: string) {
    StartsWith(pathname, "/api")
  }

  function LimitFor(isApi: bool): int {
    if isApi then ApiMaxRequests else MaxRequests
  }

  function WindowFor(isApi: bool): int {
    if isApi then ApiWindowMs else WindowMs
  }

  /** The per-route-kind limits: 30 per minute for API routes, 100 per quarter hour otherwise. */
  lemma RouteLimits(pathname: string)
    ensures IsApiRoute(pathname) ==>
      LimitFor(IsApiRoute(pathname)) == 30 && WindowFor(IsApiRoute(pathname)) == 60000
    ensures !IsApiRoute(pathname) ==>
      LimitFor(IsApiRoute(pathname)) == 100 && WindowFor(IsApiRoute(pathname)) == 900000
    ensures LimitFor(IsApiRoute(pathname)) <= MaxRequests
  {
  }

  /**
   * Whatever the route kind, a gate step keeps every stored count between 1
   * and 100, the larger of the two limits.
   */
  lemma GateKeepsBounded(store: Store, id: string, now: int, isApi: bool)
    requires Bounded(store, MaxRequests)
    ensures Bounded(Step(store, id, now, LimitFor(isApi), WindowFor(isApi)).0, MaxRequests)
  {
  }

  /**
   * Requests to one API path from one client: once a window opens, at most 30
   * of the requests made before it ends get through.
   */
  lemma ApiQuota(store: Store, id: string, first: int, rest: seq<int>)
    requires Expired(store, id, first)
    requires forall t :: t in rest ==> t <= first + ApiWindowMs
    ensures Replay(store, id, [first] + rest, LimitFor(true), WindowFor(true)).1 <= 30
  {
    QuotaFromNewWindow(store, id, first, rest, LimitFor(true), WindowFor(true));
  }

  /**
   * Requests to one page path from one client: once a window opens, at most
   * 100 of the requests made before it ends get through.
   */
  lemma PageQuota(store: Store, id: string, first: int, rest: seq<int>)
    requires Expired(store, id, first)
    requires forall t :: t in rest ==> t <= first + WindowMs
    ensures Replay(store, id, [first] + rest, LimitFor(false), WindowFor(false)).1 <= 100
  {
    QuotaFromNewWindow(store, id, first, rest, LimitFor(false), WindowFor(false));
  }

  // ----------------------------------------------------------------- headers

  /** The response header names the gate sets (header names are case-insensitive, so one spelling each). */
  datatype HeaderName =
    | ContentSecurityPolicy | XFrameOptions | XContentTypeOptions | XXssProtection | ReferrerPolicy
    | PermissionsPolicy | StrictTransportSecurity | XPoweredBy
    | AllowOrigin | AllowCredentials | AllowMethods | AllowHeaders | MaxAge
    | XDnsPrefetchControl | XDownloadOptions | ContentType | RetryAfter
  {
    function Spelling(): string {
      match this
      case ContentSecurityPolicy => "Content-Security-Policy"
      case XFrameOptions => "X-Frame-Options"
      case XContentTypeOptions => "X-Content-Type-Options"
      case XXssProtection => "X-XSS-Protection"
      case ReferrerPolicy => "Referrer-Policy"
      case PermissionsPolicy => "Permissions-Policy"
      case StrictTransportSecurity => "Strict-Transport-Security"
      case XPoweredBy => "X-Powered-By"
      case AllowOrigin => "Access-Control-Allow-Origin"
      case AllowCredentials => "Access-Control-Allow-Credentials"
      case AllowMethods => "Access-Control-Allow-Methods"
      case AllowHeaders => "Access-Control-Allow-Headers"
      case MaxAge => "Access-Control-Max-Age"
      case XDnsPrefetchControl => "X-DNS-Prefetch-Control"
      case XDownloadOptions => "X-Download-Options"
      case ContentType => "Content-Type"
      case RetryAfter => "Retry-After"
    }
  }

  /** A header list as built by successive `headers.set(name, value)` calls. */
  type HeaderList = seq<(HeaderName, string)>

  type Headers = map<HeaderName, string>

  /** The value the last pair named `k` gives, if any. */
  function LastSet(entries: HeaderList, k: HeaderName): Option<string>
    decreases |entries|
  {
    if entries == [] then None
    else if entries[|entries| - 1].0 == k then Some(entries[|entries| - 1].1)
    else LastSet(entries[..|entries| - 1], k)
  }

  /** `headers.get(name)`: the value, or None when the name is not set. */
  function Lookup(h: Headers, k: HeaderName): Option<string> {
    if k in h then Some(h[k]) else None
  }

  /** `headers.set` applied to each pair in order. */
  function SetAll(m: Headers, entries: HeaderList): Headers
    decreases |entries|
  {
    if entries == [] then m
    else
      var last := entries[|entries| - 1];
      SetAll(m, entries[..|entries| - 1])[last.0 := last.1]
  }

  /** After the sets, a name holds the value of its last pair, or its old value if no pair names it. */
  lemma {:induction false} SetAllLookup(m: Headers, entries: HeaderList, k: HeaderName)
    ensures Lookup(SetAll(m, entries), k) == if LastSet(entries, k).Some? then LastSet(entries, k) else Lookup(m, k)
    decreases |entries|
  {
    if entries != [] {
      SetAllLookup(m, entries[..|entries| - 1], k);
    }
  }

  /** Setting two lists one after the other is setting their concatenation. */
  lemma {:induction false} SetAllConcat(m: Headers, a: HeaderList, b: HeaderList)
    ensures SetAll(SetAll(m, a), b) == SetAll(m, a + b)
    decreases |b|
  {
    if b == [] {
      assert a + b == a;
    } else {
      assert (a + b)[..|a + b| - 1] == a + b[..|b| - 1];
      SetAllConcat(m, a, b[..|b| - 1]);
    }
  }

  /** The `forEach` loop that copies each pair onto the response headers. */
  method SetEach(m: Headers, entries: HeaderList) returns (r: Headers)
    ensures r == SetAll(m, entries)
  {
    r := m;
    var i := 0;
    while i < |entries|
      invariant 0 <= i <= |entries|
      invariant r == SetAll(m, entries[..i])
    {
      assert entries[..i + 1][..i] == entries[..i];
      r := r[entries[i].0 := entries[i].1];
      i := i + 1;
    }
    assert entries[..i] == entries;
  }

  /**
   * The Content-Security-Policy value: the policy's twelve directives joined
   * with "; ", written out around the nonce of the script-src directive.
   */
  const DefaultSrc: string := "default-src 'self'"
  const ScriptSrcHead: string := "script-src 'self' 'nonce-"
  const ScriptSrcTail: string := "'" + " 'strict-dynamic'" + " https://challenges.cloudflare.com"
  const StyleSrc: string := "style-src 'self'" + " 'unsafe-inline'" + " https://fonts.googleapis.com"
  const ImgSrc: string := "img-src 'self'" + " data: https: blob:"
  const FontSrc: string := "font-src 'self'" + " https://fonts.gstatic.com"
  const ConnectSrc: string := "connect-src 'self'" + " https://*.clerk.accounts.dev" + " https://*.neon.tech" + " wss://*.neon.tech"
  const MediaSrc: string := "media-src 'self' blob:"
  const ObjectSrc: string := "object-src 'none'"
  const BaseUri: string := "base-uri 'self'"
  const FormAction: string := "form-action 'self'"
  const FrameAncestors: string := "frame-ancestors 'none'"
  const UpgradeInsecure: string := "upgrade-insecure-requests"

  const CspBeforeNonce: string := DefaultSrc + "; " + ScriptSrcHead
  const CspAfterNonce: string :=
    ScriptSrcTail + "; " + StyleSrc + "; " + ImgSrc + "; " + FontSrc + "; " + ConnectSrc + "; "
    + MediaSrc + "; " + ObjectSrc + "; " + BaseUri + "; " + FormAction + "; " + FrameAncestors + "; "
    + UpgradeInsecure

  function PolicyText(nonce: string): string {
    CspBeforeNonce + nonce + CspAfterNonce
  }

  /** The script-src directive of the policy names the nonce of this response, quoted. */
  lemma PolicyCarriesNonce(nonce: string)
    ensures IsSubstring("'nonce-" + nonce + "'", PolicyText(nonce))
  {
    var p := "'nonce-" + nonce + "'";
    var at := |CspBeforeNonce| - 7;
    assert CspBeforeNonce[at..] == "'nonce-";
    assert CspAfterNonce[0] == '\'';
    assert PolicyText(nonce)[at..at + |p|] == p;
    assert OccursAt(p, PolicyText(nonce), at);
  }

  /** The Permissions-Policy value: its four directives joined with ", ". */
  const PermissionsPolicyText: string :=
    "camera=(self)" + ", " + "microphone=(self)" + ", " + "geolocation=()" + ", " + "interest-cohort=()"

  /** The methods a CORS answer allows, joined with ", ". */
  const AllowedMethods: string := "GET, POST" + ", " + "PUT, DELETE" + ", " + "OPTIONS"

  /** The value the gate sets for each header name it uses; the nonce and the request origin are parameters. */
  function Value(name: HeaderName, nonce: string, origin: Option<string>): string {
    match name
    // getSecurityHeaders()
    case ContentSecurityPolicy => PolicyText(nonce)
    case XFrameOptions => "DENY"
    case XContentTypeOptions => "nosniff"
    case XXssProtection => "1; mode=block"
    case ReferrerPolicy => "strict-origin" + "-when-" + "cross-origin"
    case PermissionsPolicy => PermissionsPolicyText
    case StrictTransportSecurity => "max-age=31536000" + "; " + "includeSubDomains" + "; " + "preload"
    case XPoweredBy => ""
    // handleCORS(request)
    case AllowOrigin => if origin.Some? then origin.value else ""
    case AllowCredentials => "true"
    case AllowMethods => AllowedMethods
    case AllowHeaders => "Content-Type" + ", " + "Authorization" + ", " + "X-CSRF-Token"
    case MaxAge => "86400"
    // the API-only extras
    case XDnsPrefetchControl => "off"
    case XDownloadOptions => "noopen"
    // the 429 response
    case ContentType => "application/json"
    case RetryAfter => "900"
  }

  /**
   * Every header the gate sets carries a value, except X-Powered-By, which it
   * blanks, and the allowed origin when the request names none.
   */
  lemma ValueEmptyOnlyWhen(name: HeaderName, nonce: string, origin: Option<string>)
    ensures Value(name, nonce, origin) == "" <==>
      name == XPoweredBy || (name == AllowOrigin && (origin.None? || origin.value == ""))
  {
  }

  /** `Value` with the nonce and origin of one response fixed. */
  function Values(nonce: string, origin: Option<string>): HeaderName -> string {
    n => Value(n, nonce, origin)
  }

  /** The pairs `(name, value)` for the given names, in order. */
  function Pairs(names: seq<HeaderName>, value: HeaderName -> string): (h: HeaderList)
    ensures |h| == |names|
  {
    seq(|names|, i requires 0 <= i < |names| => (names[i], value(names[i])))
  }

  /** Setting pairs built from names leaves each listed name with its value. */
  lemma {:induction false} LastSetOfPairs(names: seq<HeaderName>, value: HeaderName -> string, k: HeaderName)
    ensures LastSet(Pairs(names, value), k) == if k in names then Some(value(k)) else None
    decreases |names|
  {
    if names != [] {
      var p := Pairs(names, value);
      assert p[..|p| - 1] == Pairs(names[..|names| - 1], value);
      LastSetOfPairs(names[..|names| - 1], value, k);
      assert names == names[..|names| - 1] + [names[|names| - 1]];
    }
  }

  lemma PairsConcat(a: seq<HeaderName>, b: seq<HeaderName>, value: HeaderName -> string)
    ensures Pairs(a + b, value) == Pairs(a, value) + Pairs(b, value)
  {
  }

  /** The headers of `getSecurityHeaders()`, in the order the object lists them. */
  const SecurityNames: seq<HeaderName> := [ContentSecurityPolicy, XFrameOptions, XContentTypeOptions,
    XXssProtection, ReferrerPolicy, PermissionsPolicy, StrictTransportSecurity, XPoweredBy]

  const AllowedOrigins: seq<string> := ["http://localhost:3000", "https://safespace-salone.vercel.app"]

  /** `origin && ALLOWED_ORIGINS.includes(origin)`. */
  predicate IsAllowedOrigin(origin: Option<string>) {
    origin.Some? && origin.value != "" && origin.value in AllowedOrigins
  }

  /** The headers `handleCORS(request)` sets: the origin, with credentials, only for an allowed origin. */
  function CorsNames(origin: Option<string>): (names: seq<HeaderName>)
    ensures AllowOrigin in names <==> IsAllowedOrigin(origin)
    ensures AllowCredentials in names <==> IsAllowedOrigin(origin)
    ensures AllowMethods in names && AllowHeaders in names && MaxAge in names
    ensures forall n :: n in names ==> n.AllowOrigin? || n.AllowCredentials? || n.AllowMethods? || n.AllowHeaders? || n.MaxAge?
  {
    (if IsAllowedOrigin(origin) then [AllowOrigin, AllowCredentials] else [])
    + [AllowMethods, AllowHeaders, MaxAge]
  }

  /** The extra headers that API responses get. */
  const ApiNames: seq<HeaderName> := [XContentTypeOptions, XDnsPrefetchControl, XDownloadOptions]

  // ---------------------------------------------------------------- requests

  /**
   * An incoming request, reduced to what the gate reads: its method, its path
   * and the `origin`, `x-forwarded-for` and `x-real-ip` headers (None when absent).
   */
  datatype Request = Request(
    httpMethod: string, pathname: string,
    origin: Option<string>, forwardedFor: Option<string>, realIp: Option<string>)

  /** `value || fallback` for a header read with `headers.get`: missing and empty give way. */
  function OrElse(value: Option<string>, fallback: string): (r: string)
    ensures value.Some? && value.value != "" ==> r == value.value
    ensures value.None? || value.value == "" ==> r == fallback
  {
    if value.Some? && value.value != "" then value.value else fallback
  }

  function Origin(req: Request): Option<string> {
    req.origin
  }

  /** `x-forwarded-for`, else `x-real-ip`, else "unknown": the first one present and non-empty. */
  function ClientIp(req: Request): (ip: string)
    ensures ip != ""
    ensures ip == OrElse(req.forwardedFor, OrElse(req.realIp, "unknown"))
  {
    OrElse(req.forwardedFor, OrElse(req.realIp, "unknown"))
  }

  /** The rate-limit key `<ip>-<pathname>`. */
  function RateLimitKey(req: Request): (key: string)
    ensures |key| == |ClientIp(req)| + 1 + |req.pathname|
    ensures key[..|ClientIp(req)|] == ClientIp(req)
    ensures key[|ClientIp(req)|] == '-'
    ensures key[|ClientIp(req)| + 1..] == req.pathname
  {
    ClientIp(req) + "-" + req.pathname
  }

  /** `createRouteMatcher(['/counselor/dashboard(.*)', '/counselor/chat(.*)'])`. */
  predicate IsProtectedRoute(pathname: string)
    ensures IsProtectedRoute(pathname) ==> StartsWith(pathname, "/counselor/") && !IsApiRoute(pathname)
  {
    var dashboard, chat := "/counselor/" + "dashboard", "/counselor/" + "chat";
    if StartsWith(pathname, dashboard) || StartsWith(pathname, chat) then
      assert pathname[..11] == "/counselor/";
      assert pathname[1] == 'c';
      true
    else false
  }

  const RetryAfterSeconds: int := WindowMs / 1000
  const TooManyRequestsMessage: string := "Too many requests. Please try again later."

  /** What the gate answers. */
  datatype Decision =
    | Preflight(headers: Headers)                                      // status 204, empty body
    | TooManyRequests(headers: Headers, error: string, retryAfter: int) // status 429, JSON body
    | Forward(headers: Headers, authRequired: bool)                     // passed on to the route

  function Status(d: Decision): int {
    match d
    case Preflight(_) => 204
    case TooManyRequests(_, _, _) => 429
    case Forward(_, _) => 200
  }

  function LimitedHeaders(): Headers {
    SetAll(map[], [(ContentType, "application/json"), (RetryAfter, "900")])
  }

  /** The names set on a forwarded response: security headers, then CORS, then the API extras. */
  function ForwardNames(req: Request): seq<HeaderName> {
    SecurityNames + CorsNames(Origin(req)) + (if IsApiRoute(req.pathname) then ApiNames else [])
  }

  function ForwardHeaders(req: Request, nonce: string): Headers {
    SetAll(map[], Pairs(ForwardNames(req), Values(nonce, Origin(req))))
  }

  function PreflightHeaders(req: Request): Headers {
    SetAll(map[], Pairs(CorsNames(Origin(req)), Values("", Origin(req))))
  }

  /** The whole middleware on one request: the new rate-limit store and the answer. */
  function Decide(store: Store, req: Request, now: int, nonce: string): (res: (Store, Decision))
    ensures res.1.Preflight? <==> req.httpMethod == "OPTIONS"
    ensures res.1.Preflight? || res.1.TooManyRequests? ==> res.0 == store
    ensures res.1.TooManyRequests? ==> res.1.retryAfter == 900
    ensures res.1.Forward? ==> res.1.authRequired == IsProtectedRoute(req.pathname)
  {
    if req.httpMethod == "OPTIONS" then
      (store, Preflight(PreflightHeaders(req)))
    else
      var isApi := IsApiRoute(req.pathname);
      var (next, allowed) := Step(store, RateLimitKey(req), now, LimitFor(isApi), WindowFor(isApi));
      if !allowed then
        (next, TooManyRequests(LimitedHeaders(), TooManyRequestsMessage, RetryAfterSeconds))
      else
        (next, Forward(ForwardHeaders(req, nonce), IsProtectedRoute(req.pathname)))
  }

  /**
   * Every request other than a preflight goes through one rate-limit step
   * for its key, with its route kind's limit and window, and is refused
   * exactly when that step refuses it.
   */
  lemma DecideRateLimits(store: Store, req: Request, now: int, nonce: string)
    requires req.httpMethod != "OPTIONS"
    ensures var isApi := IsApiRoute(req.pathname);
      var step := Step(store, RateLimitKey(req), now, LimitFor(isApi), WindowFor(isApi));
      var res := Decide(store, req, now, nonce);
      res.0 == step.0 && (Status(res.1) == 429 <==> !step.1) && (step.1 ==> res.1.Forward?)
  {
  }

  /** A refusal always asks the client to wait 900 seconds, API route or not. */
  lemma RefusalWaitsFifteenMinutes(store: Store, req: Request, now: int, nonce: string)
    ensures var d := Decide(store, req, now, nonce).1;
      d.TooManyRequests? ==>
        d.retryAfter == 900 && Lookup(d.headers, RetryAfter) == Some("900")
        && Lookup(d.headers, ContentType) == Some("application/json") && Status(d) == 429
  {
  }

  /** A lookup in a header map built from names finds exactly the listed names, each with its value. */
  lemma HeadersFromNames(names: seq<HeaderName>, nonce: string, origin: Option<string>, k: HeaderName)
    ensures Lookup(SetAll(map[], Pairs(names, Values(nonce, origin))), k)
      == if k in names then Some(Value(k, nonce, origin)) else None
  {
    SetAllLookup(map[], Pairs(names, Values(nonce, origin)), k);
    LastSetOfPairs(names, Values(nonce, origin), k);
  }

  /** Which names a forwarded response carries. */
  lemma ForwardNamesMembership(req: Request)
    ensures var names := ForwardNames(req);
      && (AllowOrigin in names <==> IsAllowedOrigin(Origin(req)))
      && (AllowCredentials in names <==> IsAllowedOrigin(Origin(req)))
      && (XDnsPrefetchControl in names <==> IsApiRoute(req.pathname))
      && (XDownloadOptions in names <==> IsApiRoute(req.pathname))
      && AllowMethods in names && ContentSecurityPolicy in names
      && XFrameOptions in names && XContentTypeOptions in names
  {
    ForwardCorsNames(req);
    ForwardFixedNames(req);
  }

  lemma ForwardCorsNames(req: Request)
    ensures var names := ForwardNames(req);
      && (AllowOrigin in names <==> IsAllowedOrigin(Origin(req)))
      && (AllowCredentials in names <==> IsAllowedOrigin(Origin(req)))
      && AllowMethods in names
  {
    var c := CorsNames(Origin(req));
    var x := if IsApiRoute(req.pathname) then ApiNames else [];
    assert AllowOrigin !in SecurityNames && AllowCredentials !in SecurityNames;
    assert AllowOrigin !in x && AllowCredentials !in x;
    InConcat(AllowOrigin, SecurityNames, c, x);
    InConcat(AllowCredentials, SecurityNames, c, x);
    InConcat(AllowMethods, SecurityNames, c, x);
  }

  lemma ForwardFixedNames(req: Request)
    ensures var names := ForwardNames(req);
      && (XDnsPrefetchControl in names <==> IsApiRoute(req.pathname))
      && (XDownloadOptions in names <==> IsApiRoute(req.pathname))
      && ContentSecurityPolicy in names && XFrameOptions in names && XContentTypeOptions in names
  {
    var c := CorsNames(Origin(req));
    var x := if IsApiRoute(req.pathname) then ApiNames else [];
    assert ContentSecurityPolicy == SecurityNames[0] && XFrameOptions == SecurityNames[1];
    assert XContentTypeOptions == SecurityNames[2];
    assert XDnsPrefetchControl !in SecurityNames && XDownloadOptions !in SecurityNames;
    assert XDnsPrefetchControl !in c && XDownloadOptions !in c;
    assert IsApiRoute(req.pathname) ==> XDnsPrefetchControl == x[1] && XDownloadOptions == x[2];
    InConcat(XDnsPrefetchControl, SecurityNames, c, x);
    InConcat(XDownloadOptions, SecurityNames, c, x);
    InConcat(ContentSecurityPolicy, SecurityNames, c, x);
    InConcat(XFrameOptions, SecurityNames, c, x);
    InConcat(XContentTypeOptions, SecurityNames, c, x);
  }

  lemma InConcat(n: HeaderName, a: seq<HeaderName>, b: seq<HeaderName>, c: seq<HeaderName>)
    ensures n in a + b + c <==> n in a || n in b || n in c
  {
  }

  /** A preflight request never touches the store and carries only the CORS headers. */
  lemma PreflightUsesNoQuota(store: Store, req: Request, now: int, nonce: string)
    requires req.httpMethod == "OPTIONS"
    ensures var (next, d) := Decide(store, req, now, nonce);
      next == store && d.Preflight? && Status(d) == 204
      && Lookup(d.headers, MaxAge) == Some("86400")
      && Lookup(d.headers, AllowMethods) == Some(AllowedMethods)
      && Lookup(d.headers, AllowOrigin) == (if IsAllowedOrigin(Origin(req)) then Origin(req) else None)
      && Lookup(d.headers, AllowCredentials) == (if IsAllowedOrigin(Origin(req)) then Some("true") else None)
      && Lookup(d.headers, ContentSecurityPolicy) == None
  {
    PreflightHeaderValues(req);
  }

  /** The headers of a preflight answer, name by name. */
  lemma PreflightHeaderValues(req: Request)
    ensures var h := PreflightHeaders(req);
      && Lookup(h, MaxAge) == Some("86400")
      && Lookup(h, AllowMethods) == Some(AllowedMethods)
      && Lookup(h, AllowOrigin) == (if IsAllowedOrigin(Origin(req)) then Origin(req) else None)
      && Lookup(h, AllowCredentials) == (if IsAllowedOrigin(Origin(req)) then Some("true") else None)
      && Lookup(h, ContentSecurityPolicy) == None
  {
    var o := Origin(req);
    PreflightLookup(o, MaxAge);
    PreflightLookup(o, AllowMethods);
    PreflightLookup(o, AllowOrigin);
    PreflightLookup(o, AllowCredentials);
    PreflightLookup(o, ContentSecurityPolicy);
  }

  /** One header of a preflight answer: present exactly when CORS lists it, with its value. */
  lemma PreflightLookup(origin: Option<string>, k: HeaderName)
    ensures Lookup(SetAll(map[], Pairs(CorsNames(origin), Values("", origin))), k)
      == if k in CorsNames(origin) then Some(Value(k, "", origin)) else None
  {
    HeadersFromNames(CorsNames(origin), "", origin, k);
  }


  /** A request that passes the rate limit is forwarded with the forwarding headers, marked for sign-in on counsellor routes. */
  lemma DecideForwards(store: Store, req: Request, now: int, nonce: string)
    ensures var d := Decide(store, req, now, nonce).1;
      d.Forward? ==> d.headers == ForwardHeaders(req, nonce) && d.authRequired == IsProtectedRoute(req.pathname)
  {
  }

  /**
   * A forwarded response echoes the origin, with credentials, exactly when
   * the origin is allowed, and always carries the security headers.
   */
  lemma ForwardCors(req: Request, nonce: string)
    ensures var h := ForwardHeaders(req, nonce);
      && Lookup(h, AllowOrigin) == (if IsAllowedOrigin(Origin(req)) then Origin(req) else None)
      && Lookup(h, AllowCredentials) == (if IsAllowedOrigin(Origin(req)) then Some("true") else None)
      && Lookup(h, AllowMethods) == Some(AllowedMethods)
      && Lookup(h, ContentSecurityPolicy) == Some(PolicyText(nonce))
      && Lookup(h, XFrameOptions) == Some("DENY")
      && Lookup(h, XContentTypeOptions) == Some("nosniff")
  {
    var names := ForwardNames(req);
    ForwardNamesMembership(req);
    ValueTable(nonce, Origin(req));
    HeadersFromNames(names, nonce, Origin(req), AllowOrigin);
    HeadersFromNames(names, nonce, Origin(req), AllowCredentials);
    HeadersFromNames(names, nonce, Origin(req), AllowMethods);
    HeadersFromNames(names, nonce, Origin(req), ContentSecurityPolicy);
    HeadersFromNames(names, nonce, Origin(req), XFrameOptions);
    HeadersFromNames(names, nonce, Origin(req), XContentTypeOptions);
  }

  /** The values the forwarded-response lemmas read. */
  lemma ValueTable(nonce: string, origin: Option<string>)
    ensures Value(XDnsPrefetchControl, nonce, origin) == "off"
    ensures Value(XDownloadOptions, nonce, origin) == "noopen"
    ensures Value(XFrameOptions, nonce, origin) == "DENY"
    ensures Value(XContentTypeOptions, nonce, origin) == "nosniff"
    ensures Value(AllowMethods, nonce, origin) == AllowedMethods
    ensures Value(AllowCredentials, nonce, origin) == "true"
    ensures Value(ContentSecurityPolicy, nonce, origin) == PolicyText(nonce)
    ensures origin.Some? ==> Value(AllowOrigin, nonce, origin) == origin.value
  {
  }

  /** Only API responses get the DNS-prefetch and download-options headers. */
  lemma ApiOnlyHeaders(req: Request, nonce: string)
    ensures var h := ForwardHeaders(req, nonce);
      && Lookup(h, XDnsPrefetchControl) == (if IsApiRoute(req.pathname) then Some("off") else None)
      && Lookup(h, XDownloadOptions) == (if IsApiRoute(req.pathname) then Some("noopen") else None)
  {
    var names := ForwardNames(req);
    ForwardNamesMembership(req);
    ValueTable(nonce, Origin(req));
    HeadersFromNames(names, nonce, Origin(req), XDnsPrefetchControl);
    HeadersFromNames(names, nonce, Origin(req), XDownloadOptions);
  }

  // -------------------------------------------------------------- the gate

  /** The middleware with its module-level rate-limit map. */
  class Middleware {
    var rateLimitStore: Store

    ghost predicate Valid()
      reads this
    {
      Bounded(rateLimitStore, MaxRequests)
    }

    constructor ()
      ensures Valid() && rateLimitStore == map[]
    {
      rateLimitStore := map[];
    }

    /** `rateLimit(identifier, isApi)` at time `now`. */
    method RateLimit(identifier: string, isApi: bool, now: int) returns (allowed: bool)
      requires Valid()
      modifies this
      ensures Valid()
      ensures (rateLimitStore, allowed)
        == Step(old(rateLimitStore), identifier, now, LimitFor(isApi), WindowFor(isApi))
    {
      GateKeepsBounded(rateLimitStore, identifier, now, isApi);
      var limit := if isApi then ApiMaxRequests else MaxRequests;
      var window := if isApi then ApiWindowMs else WindowMs;
      if identifier !in rateLimitStore || now > rateLimitStore[identifier].resetTime {
        rateLimitStore := rateLimitStore[identifier := Entry(1, now + window)];
        return true;
      }
      var record := rateLimitStore[identifier];
      if record.count >= limit {
        return false;
      }
      rateLimitStore := rateLimitStore[identifier := record.(count := record.count + 1)];
      return true;
    }

    /** The middleware body for one request. */
    method Handle(req: Request, now: int, nonce: string) returns (d: Decision)
      requires Valid()
      modifies this
      ensures Valid()
      ensures (rateLimitStore, d) == Decide(old(rateLimitStore), req, now, nonce)
    {
      var isApi := IsApiRoute(req.pathname);
      if req.httpMethod == "OPTIONS" {
        var cors := SetEach(map[], Pairs(CorsNames(Origin(req)), Values("", Origin(req))));
        return Preflight(cors);
      }
      var identifier := ClientIp(req) + "-" + req.pathname;
      var allowed := RateLimit(identifier, isApi, now);
      if !allowed {
        return TooManyRequests(LimitedHeaders(), TooManyRequestsMessage, RetryAfterSeconds);
      }
      var value := Values(nonce, Origin(req));
      var security := Pairs(SecurityNames, value);
      var cors := Pairs(CorsNames(Origin(req)), value);
      var extra := Pairs(if isApi then ApiNames else [], value);
      var headers := SetEach(map[], security);
      headers := SetEach(headers, cors);
      if isApi {
        headers := SetEach(headers, extra);
      }
      SetAllConcat(map[], security, cors);
      SetAllConcat(map[], security + cors, extra);
      PairsConcat(SecurityNames, CorsNames(Origin(req)), value);
      PairsConcat(SecurityNames + CorsNames(Origin(req)), if isApi then ApiNames else [], value);
      d := Forward(headers, IsProtectedRoute(req.pathname));
    }
  }
}
