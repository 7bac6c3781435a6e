/** Implicit OPTIONS handling: placed after the routing middleware, it answers
    an OPTIONS request for a path the router matched, when the matched route
    does not handle OPTIONS itself, with a response whose `Allow` header lists
    the methods allowed there (sections 4.3.7 and 7.4.1 of RFC 7231). */
module ImplicitOptions {
  import opened Http

  /** The middleware's one configuration field, set by the constructor only. */
  datatype ImplicitOptionsMiddleware = ImplicitOptionsMiddleware(prototype: Option<Response>)

  const ALLOW: string := "Allow"

  /** The constructor: keeps the optional response prototype as given. */
  function New(prototype: Option<Response>): (m: ImplicitOptionsMiddleware)
    ensures m.prototype == prototype
  {
    ImplicitOptionsMiddleware(prototype)
  }

  /** The response to decorate: the prototype when one was configured,
      otherwise a fresh response with status 200, no headers, no body. */
  function GetResponse(m: ImplicitOptionsMiddleware): (r: Response)
    ensures m.prototype.Some? ==> r == m.prototype.value
    ensures m.prototype.None? ==> r.status == STATUS_OK && r.headers == [] && r.body == []
  {
    match m.prototype
    case Some(p) => p
    case None => NewResponse()
  }

  /** The route result lets the middleware answer: some method is allowed at
      the path, and either no route is attached or it allows implicit OPTIONS. */
  predicate ImplicitlyAllowed(result: RouteResult)
  {
    |result.allowedMethods| > 0
    && (result.matchedRoute.None? || result.matchedRoute.value.implicitOptions)
  }

  /** The request the middleware answers itself. */
  predicate Answers(request: Request)
  {
    && request.verb == OPTIONS
    && RouteResultOf(request.attributes).Found?
    && ImplicitlyAllowed(RouteResultOf(request.attributes).result)
  }

  /** `process`: guarded early returns ending in `next(request)` or in the
      response prototype carrying an `Allow` header. */
  function Process(m: ImplicitOptionsMiddleware, request: Request, next: Request -> Response): (h: Handled)
    // next is called at most once, and only ever with the request as given
    ensures h.delegated == [] || h == Handled([request], Returned(next(request)))
    // a request other than OPTIONS is handed on without looking at its attributes
    ensures request.verb != OPTIONS ==> h.delegated == [request]
    // the middleware answers exactly the eligible requests
    ensures h.delegated == [] && h.outcome.Returned? <==> Answers(request)
    ensures Answers(request) ==>
      h.outcome.response == WithHeader(GetResponse(m), ALLOW,
                                       Join(",", RouteResultOf(request.attributes).result.allowedMethods))
    // a non-RouteResult attribute makes `getAllowedMethods()` fail
    ensures h.outcome.Raised? <==>
      request.verb == OPTIONS && RouteResultOf(request.attributes).NotRouteResult?
  {
    if request.verb != OPTIONS then
      Handled([request], Returned(next(request)))
    else
      match RouteResultOf(request.attributes)
      case Missing => Handled([request], Returned(next(request)))
      case NotRouteResult(_) => Handled([], Raised(MemberCallOnNonObject))
      case Found(result) =>
        var allowedMethods := result.allowedMethods;
        var route := result.matchedRoute;
        if allowedMethods == [] || (route.Some? && !route.value.implicitOptions) then
          Handled([request], Returned(next(request)))
        else
          Handled([], Returned(WithHeader(GetResponse(m), ALLOW, Join(",", allowedMethods))))
  }

  /** The attributes of a request other than OPTIONS, the route result among
      them, have no say in the outcome: it is handed on as it is. */
  lemma NonOptionsIgnoresAttributes(m: ImplicitOptionsMiddleware, request: Request,
                                    attributes: map<string, Attr>, next: Request -> Response)
    requires request.verb != OPTIONS
    ensures Process(m, request.(attributes := attributes), next)
         == Handled([request.(attributes := attributes)], Returned(next(request.(attributes := attributes))))
  {
  }

  /** The three shapes of route result stay apart: none and an empty allowed
      list both pass through; a non-empty list with no route attached is
      answered; a matched route that turns implicit OPTIONS off passes
      through. */
  lemma RouteResultCases(m: ImplicitOptionsMiddleware, request: Request, next: Request -> Response)
    requires request.verb == OPTIONS
    ensures RouteResultOf(request.attributes).Missing? ==> Process(m, request, next).delegated == [request]
    ensures RouteResultOf(request.attributes).Found?
            && RouteResultOf(request.attributes).result.allowedMethods == []
            ==> Process(m, request, next).delegated == [request]
    ensures RouteResultOf(request.attributes).Found?
            && RouteResultOf(request.attributes).result.allowedMethods != []
            && RouteResultOf(request.attributes).result.matchedRoute.None?
            ==> Process(m, request, next).delegated == []
    ensures RouteResultOf(request.attributes).Found?
            && RouteResultOf(request.attributes).result.matchedRoute.Some?
            && !RouteResultOf(request.attributes).result.matchedRoute.value.implicitOptions
            ==> Process(m, request, next).delegated == [request]
  {
  }

  /** What the synthesized response looks like: the prototype's (or the
      default's) status and body, its other headers unchanged, and a single
      `Allow` line whose comma-separated items are the allowed methods in the
      router's order, duplicates and all. */
  lemma {:induction false} AllowListsAllowedMethods(m: ImplicitOptionsMiddleware, request: Request,
                                                    next: Request -> Response)
    requires Answers(request)
    requires forall i :: 0 <= i < |RouteResultOf(request.attributes).result.allowedMethods| ==>
               ',' !in RouteResultOf(request.attributes).result.allowedMethods[i]
    ensures var r := Process(m, request, next).outcome.response;
            && r.status == (if m.prototype.Some? then m.prototype.value.status else STATUS_OK)
            && r.body == GetResponse(m).body
            && HeaderValues(r.headers, ALLOW) == [HeaderLine(r, ALLOW)]
            && Split(HeaderLine(r, ALLOW), ',') == RouteResultOf(request.attributes).result.allowedMethods
            && forall n :: n != ALLOW ==> HeaderValues(r.headers, n) == HeaderValues(GetResponse(m).headers, n)
  {
    var allowed := RouteResultOf(request.attributes).result.allowedMethods;
    var r := Process(m, request, next).outcome.response;
    assert HeaderValues(r.headers, ALLOW) == [Join(",", allowed)];
    assert HeaderLine(r, ALLOW) == Join(",", allowed);
    SplitJoin(allowed, ',');
  }

  /** With no prototype, a route allowing GET and POST yields status 200 and
      `Allow: GET,POST`, and the handler is not called. */
  lemma GetPostExample(request: Request, next: Request -> Response)
    requires request.verb == OPTIONS
    requires ROUTE_RESULT_ATTRIBUTE in request.attributes
    requires request.attributes[ROUTE_RESULT_ATTRIBUTE]
             == Routed(RouteResult([GET, "POST"], Some(Route(true, true))))
    ensures var h := Process(New(None), request, next);
            && h.delegated == []
            && h.outcome.response.status == STATUS_OK
            && h.outcome.response.headers == [(ALLOW, "GET,POST")]
  {
    assert [GET, "POST"][1..] == ["POST"];
    assert Join(",", [GET, "POST"]) == "GET,POST";
  }

  /** A route registered for POST only, with the default implicit policy:
      OPTIONS is answered with `Allow: POST`. */
  lemma PostOnlyExample(request: Request, next: Request -> Response)
    requires request.verb == OPTIONS
    requires ROUTE_RESULT_ATTRIBUTE in request.attributes
    requires request.attributes[ROUTE_RESULT_ATTRIBUTE]
             == Routed(RouteResult(["POST"], Some(Route(true, true))))
    ensures var h := Process(New(None), request, next);
            && h.delegated == []
            && h.outcome == Returned(Response(STATUS_OK, [(ALLOW, "POST")], []))
  {
  }

  /** The method token is matched case-sensitively: `options` is handed on. */
  lemma LowerCaseIsHandedOn(m: ImplicitOptionsMiddleware, request: Request, next: Request -> Response)
    requires request.verb == "options"
    ensures Process(m, request, next) == Handled([request], Returned(next(request)))
  {
  }
}
