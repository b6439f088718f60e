/**
 * The request gate of the worker: the CORS headers every response carries,
 * the answer to a preflight, the refusal of foreign origins and the choice
 * of endpoint.
 */
module Cors {
  import opened Wrappers

  const Primary: string := "https://trackcurator.org"
  const Preview: string := "https://kurator-ui.pages.dev"
  const AllowedOrigins: set<string> := {Primary, Preview}

  /** `request.headers.get("Origin") || null`: a missing or empty header is no origin. */
  function OriginOf(header: Option<string>): (r: Option<string>)
    ensures r.Some? <==> header.Some? && header.value != ""
    ensures r.Some? ==> r == header
  {
    if header.Some? && header.value != "" then header else None
  }

  /** The origin is present and not one of the two front-end origins. */
  predicate Foreign(origin: Option<string>)
  {
    origin.Some? && origin.value !in AllowedOrigins
  }

  /**
   * The `Access-Control-Allow-Origin` value: the request's origin when it is
   * allowed, the primary front-end otherwise.
   */
  function AllowOrigin(origin: Option<string>): (r: string)
    ensures r in AllowedOrigins
    ensures origin.Some? && origin.value in AllowedOrigins ==> r == origin.value
    ensures origin.None? || origin.value !in AllowedOrigins ==> r == Primary
  {
    if origin.Some? && origin.value in AllowedOrigins then origin.value else Primary
  }

  datatype CorsHeaders = CorsHeaders(allowOrigin: string, vary: string, allowMethods: string, allowHeaders: string)

  /** `corsHeaders(origin)`: attached to every response, the 403 included. */
  function HeadersFor(origin: Option<string>): (h: CorsHeaders)
    ensures h.allowOrigin in AllowedOrigins
    ensures h.vary == "Origin"
    ensures h.allowMethods == "GET,POST,OPTIONS" && h.allowHeaders == "content-type,authorization"
  {
    CorsHeaders(AllowOrigin(origin), "Origin", "GET,POST,OPTIONS", "content-type,authorization")
  }

  /** Where the worker sends a request. */
  datatype Route =
    | Preflight   // empty 200 with CORS headers
    | Forbidden   // 403 "Forbidden origin"
    | Health      // GET /
    | Analyze     // POST /analyze
    | BatchStub   // POST /batch, legacy no-op
    | NotFound    // 404

  /** The decision at the top of the worker's `fetch`, in the order it is taken. */
  function Dispatch(httpMethod: string, path: string, origin: Option<string>): (r: Route)
    ensures r == Preflight <==> httpMethod == "OPTIONS"
    ensures r == Forbidden <==> httpMethod != "OPTIONS" && Foreign(origin)
    ensures r in {Health, Analyze, BatchStub, NotFound} <==> httpMethod != "OPTIONS" && !Foreign(origin)
    ensures r == Health <==> httpMethod == "GET" && path == "/" && !Foreign(origin)
    ensures r == Analyze <==> httpMethod == "POST" && path == "/analyze" && !Foreign(origin)
    ensures r == BatchStub <==> httpMethod == "POST" && path == "/batch" && !Foreign(origin)
  {
    if httpMethod == "OPTIONS" then Preflight
    else if Foreign(origin) then Forbidden
    else if path == "/" && httpMethod == "GET" then Health
    else if path == "/analyze" && httpMethod == "POST" then Analyze
    else if path == "/batch" && httpMethod == "POST" then BatchStub
    else NotFound
  }

  /** HTTP status of the routes whose status does not depend on the handler. */
  function FixedStatus(r: Route): (s: Option<int>)
    ensures s.None? <==> r == Analyze
  {
    match r
    case Preflight => Some(200)
    case Forbidden => Some(403)
    case Health => Some(200)
    case Analyze => None
    case BatchStub => Some(200)
    case NotFound => Some(404)
  }

  /** The request's own Origin header is echoed back iff it is one of the two front-end origins. */
  lemma OriginEchoedIffAllowed(header: Option<string>)
    ensures header.Some? && HeadersFor(OriginOf(header)).allowOrigin == header.value
      <==> header.Some? && header.value in AllowedOrigins
  {
  }

  /**
   * The status of a request that does not reach the `/analyze` handler:
   * 403 exactly for a non-preflight from a foreign origin, 404 exactly for
   * an admitted request matching no endpoint, 200 otherwise.
   */
  lemma StatusOfRequest(httpMethod: string, path: string, origin: Option<string>)
    ensures FixedStatus(Dispatch(httpMethod, path, origin)) == Some(403)
      <==> httpMethod != "OPTIONS" && Foreign(origin)
    ensures FixedStatus(Dispatch(httpMethod, path, origin)) == Some(404)
      <==> && httpMethod != "OPTIONS" && !Foreign(origin)
           && !(httpMethod == "GET" && path == "/")
           && !(httpMethod == "POST" && (path == "/analyze" || path == "/batch"))
    ensures FixedStatus(Dispatch(httpMethod, path, origin)).None?
      <==> httpMethod == "POST" && path == "/analyze" && !Foreign(origin)
    ensures FixedStatus(Dispatch(httpMethod, path, origin)) == Some(200)
      <==> || httpMethod == "OPTIONS"
           || (!Foreign(origin) && httpMethod == "GET" && path == "/")
           || (!Foreign(origin) && httpMethod == "POST" && path == "/batch")
  {
  }

  /** A refused request is told the primary front-end, never its own origin. */
  lemma ForbiddenNeverEchoesOrigin(httpMethod: string, path: string, origin: Option<string>)
    requires Dispatch(httpMethod, path, origin) == Forbidden
    ensures HeadersFor(origin).allowOrigin == Primary
    ensures HeadersFor(origin).allowOrigin != origin.value
    ensures FixedStatus(Dispatch(httpMethod, path, origin)) == Some(403)
  {
  }

  /** A request without an origin (same-origin or server-side) is never refused. */
  lemma NoOriginNeverForbidden(httpMethod: string, path: string, header: Option<string>)
    requires header.None? || header == Some("")
    ensures Dispatch(httpMethod, path, OriginOf(header)) != Forbidden
  {
  }

  /** A preflight is answered whatever its origin; the origin is echoed only when allowed. */
  lemma PreflightFromAnyOrigin(path: string, origin: Option<string>)
    ensures Dispatch("OPTIONS", path, origin) == Preflight
    ensures HeadersFor(origin).allowOrigin == origin.GetOr(Primary) <==> !Foreign(origin)
  {
  }
}
