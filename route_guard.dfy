/**
 * The request route guard of middleware.ts: three path matchers, a first-match-wins
 * decision chain over the matched class and the session state, and the in-place
 * update of the `x-socket-ip` response header applied to every outcome.
 */
module RouteGuard {
  import opened Wrappers

  type Headers = map<string, string>

  const LandingRoute: string := "/dashboard"
  const LoginRoute: string := "/login"
  const IpHeader: string := "x-socket-ip"

  /** `/dashboard(.*)` and `/settings(.*)`: any path with one of these prefixes. */
  predicate IsProtectedRoute(path: string)
  {
    "/dashboard" <= path || "/settings" <= path
  }

  /** `/login` and `/signup`, matched exactly. */
  predicate IsAuthRoute(path: string)
  {
    path == "/login" || path == "/signup"
  }

  /** `/logout`, matched exactly. */
  predicate IsLogoutRoute(path: string)
  {
    path == "/logout"
  }

  /** What the middleware does with a request, apart from its headers. */
  datatype Outcome = PassThrough | Redirect(target: string)

  /** The answer of the session oracle `isAuthenticated()`: a boolean, or a rejected promise. */
  datatype SessionQuery = Answered(authenticated: bool) | QueryFailed(reason: string)

  datatype GuardError = SessionQueryError(reason: string)

  /** An inbound request: its path and the source IP the platform may attach. */
  datatype Request = Request(path: string, ip: Option<string>)

  lemma LogoutIsNeitherAuthNorProtected(path: string)
    requires IsLogoutRoute(path)
    ensures !IsAuthRoute(path) && !IsProtectedRoute(path)
  {
  }

  /**
   * The decision chain once the session state is known: logout passes, an auth page
   * with a session goes to the landing route, a protected page without one goes to
   * login, everything else passes.
   */
  function Route(path: string, authenticated: bool): (o: Outcome)
    ensures IsLogoutRoute(path) ==> o == PassThrough
    ensures o == Redirect(LandingRoute) <==> IsAuthRoute(path) && authenticated
    ensures o == Redirect(LoginRoute) <==> IsProtectedRoute(path) && !authenticated
    ensures o == PassThrough <==>
              !(IsAuthRoute(path) && authenticated) && !(IsProtectedRoute(path) && !authenticated)
    ensures o.Redirect? ==> o.target == LandingRoute || o.target == LoginRoute
  {
    if IsLogoutRoute(path) then
      LogoutIsNeitherAuthNorProtected(path);
      PassThrough
    else if IsAuthRoute(path) && authenticated then
      Redirect(LandingRoute)
    else if IsProtectedRoute(path) && !authenticated then
      Redirect(LoginRoute)
    else
      PassThrough
  }

  /**
   * The whole callback: a logout request is answered before the session oracle is
   * queried; otherwise a failing query fails the request.
   */
  function Decide(path: string, session: SessionQuery): (r: Result<Outcome, GuardError>)
    ensures IsLogoutRoute(path) ==> r == Ok(PassThrough)
    ensures !IsLogoutRoute(path) ==> (r.Err? <==> session.QueryFailed?)
    ensures r.Err? ==> r.error == SessionQueryError(session.reason)
    ensures session.Answered? ==> r == Ok(Route(path, session.authenticated))
  {
    if IsLogoutRoute(path) then
      Ok(PassThrough)
    else
      match session
      case QueryFailed(reason) => Err(SessionQueryError(reason))
      case Answered(authenticated) => Ok(Route(path, authenticated))
  }

  /** A logout request gets the same answer whatever the session oracle would say. */
  lemma LogoutIgnoresSession(path: string, s1: SessionQuery, s2: SessionQuery)
    requires IsLogoutRoute(path)
    ensures Decide(path, s1) == Decide(path, s2) == Ok(PassThrough)
  {
  }

  /** Following a redirect with the same session state never redirects again. */
  lemma NoRedirectLoop(path: string, authenticated: bool)
    ensures Route(path, authenticated).Redirect? ==>
              Route(Route(path, authenticated).target, authenticated) == PassThrough
  {
  }

  /** The headers after `setIPHeader`: the IP when it is truthy, no entry otherwise. */
  function WithIPHeader(h: Headers, ip: Option<string>): (r: Headers)
    ensures Truthy(ip) ==> IpHeader in r && r[IpHeader] == ip.value
    ensures !Truthy(ip) ==> IpHeader !in r
    ensures forall k :: k != IpHeader ==> (k in r <==> k in h)
    ensures forall k :: k in r && k != IpHeader ==> r[k] == h[k]
  {
    if Truthy(ip) then h[IpHeader := ip.value] else h - {IpHeader}
  }

  /** Applying `setIPHeader` twice is the same as applying it once. */
  lemma WithIPHeaderIdempotent(h: Headers, ip: Option<string>)
    ensures WithIPHeader(WithIPHeader(h, ip), ip) == WithIPHeader(h, ip)
  {
  }

  /** A response object whose header map is updated in place. */
  class Response {
    const outcome: Outcome
    var headers: Headers

    constructor (outcome: Outcome, headers: Headers)
      ensures this.outcome == outcome && this.headers == headers
    {
      this.outcome := outcome;
      this.headers := headers;
    }
  }

  /** Sets or deletes `x-socket-ip` on the response and hands the same object back. */
  method SetIPHeader(request: Request, response: Response) returns (r: Response)
    modifies response
    ensures r == response
    ensures response.headers == WithIPHeader(old(response.headers), request.ip)
  {
    var ip := request.ip;
    if Truthy(ip) {
      response.headers := response.headers[IpHeader := ip.value];
    } else {
      response.headers := response.headers - {IpHeader};
    }
    r := response;
  }

  /**
   * The middleware callback. `base` is the header map the framework puts on a newly
   * built pass-through or redirect response.
   */
  method Middleware(request: Request, session: SessionQuery, base: Headers)
    returns (r: Result<Response, GuardError>)
    ensures r.Err? <==> Decide(request.path, session).Err?
    ensures r.Err? ==> r.error == Decide(request.path, session).error
    ensures r.Ok? ==> fresh(r.value) && Decide(request.path, session) == Ok(r.value.outcome)
    ensures r.Ok? ==> r.value.headers == WithIPHeader(base, request.ip)
  {
    match Decide(request.path, session)
    case Err(e) =>
      r := Err(e);
    case Ok(outcome) =>
      var response := new Response(outcome, base);
      response := SetIPHeader(request, response);
      r := Ok(response);
  }
}
