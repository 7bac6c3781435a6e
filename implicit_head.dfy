/** Implicit HEAD handling: placed after the routing middleware, it handles a
    HEAD request for a path the router matched, when the matched route does
    not handle HEAD itself. If GET is allowed there it runs the request as GET
    and drops the body, so that the answer carries the status and headers of
    the GET answer and no content (section 4.3.2 of RFC 7231); otherwise it
    answers with an empty response. */
module ImplicitHead {
  import opened Http

  /** The request attribute that tells the handlers further down that the
      GET they see was a HEAD. */
  const FORWARDED_HTTP_METHOD_ATTRIBUTE: string := "forwarded_http_method"

  /** The middleware's two configuration fields, set by the constructor only:
      an optional response prototype and a factory for empty bodies. */
  datatype ImplicitHeadMiddleware =
    ImplicitHeadMiddleware(prototype: Option<Response>, streamFactory: () -> seq<char>)

  /** The factory used when none is given: a new empty stream on each call. */
  function DefaultStreamFactory(): (f: () -> seq<char>)
    ensures f() == []
  {
    () => []
  }

  /** The constructor: keeps the prototype and the factory as given, and
      falls back to the default factory when none is given. */
  function New(prototype: Option<Response>, streamFactory: Option<() -> seq<char>>): (m: ImplicitHeadMiddleware)
    ensures m.prototype == prototype
    ensures streamFactory.Some? ==> m.streamFactory == streamFactory.value
    ensures streamFactory.None? ==> m.streamFactory() == []
  {
    match streamFactory
    case Some(f) => ImplicitHeadMiddleware(prototype, f)
    case None => ImplicitHeadMiddleware(prototype, DefaultStreamFactory())
  }

  /** The response for a HEAD request at a path that does not allow GET: the
      prototype when one was configured, otherwise a fresh response with
      status 200, no headers, no body. */
  function GetResponse(m: ImplicitHeadMiddleware): (r: Response)
    ensures m.prototype.Some? ==> r == m.prototype.value
    ensures m.prototype.None? ==> r.status == STATUS_OK && r.headers == [] && r.body == []
  {
    match m.prototype
    case Some(p) => p
    case None => NewResponse()
  }

  /** The route result lets the middleware act: some method is allowed at the
      path, and either no route is attached or it allows implicit HEAD. */
  predicate ImplicitlyAllowed(result: RouteResult)
  {
    |result.allowedMethods| > 0
    && (result.matchedRoute.None? || result.matchedRoute.value.implicitHead)
  }

  /** The request the middleware takes over, rather than handing it on. */
  predicate TakesOver(request: Request)
  {
    && request.verb == HEAD
    && RouteResultOf(request.attributes).Found?
    && ImplicitlyAllowed(RouteResultOf(request.attributes).result)
  }

  /** Of the requests it takes over, those at a path that allows GET. */
  predicate ForwardsAsGet(request: Request)
  {
    TakesOver(request) && GET in RouteResultOf(request.attributes).result.allowedMethods
  }

  /** The request handed on in place of a HEAD: method GET, the forwarded-
      method attribute set to HEAD, everything else as it was. */
  function AsGet(request: Request): (f: Request)
    ensures f.verb == GET
    ensures f.attributes.Keys == request.attributes.Keys + {FORWARDED_HTTP_METHOD_ATTRIBUTE}
    ensures f.attributes[FORWARDED_HTTP_METHOD_ATTRIBUTE] == Text(HEAD)
    ensures forall k :: k in request.attributes && k != FORWARDED_HTTP_METHOD_ATTRIBUTE
                        ==> f.attributes[k] == request.attributes[k]
    ensures f.target == request.target && f.headers == request.headers && f.body == request.body
  {
    request.(verb := GET).(attributes := request.attributes[FORWARDED_HTTP_METHOD_ATTRIBUTE := Text(HEAD)])
  }

  /** `process`: guarded early returns ending in `next(request)`, in the empty
      response, or in `next` on the GET version with the body replaced. */
  function Process(m: ImplicitHeadMiddleware, request: Request, next: Request -> Response): (h: Handled)
    // next is called at most once
    ensures |h.delegated| <= 1
    // a request it does not take over is handed on as it is
    ensures !TakesOver(request) && !h.outcome.Raised? ==> h == Handled([request], Returned(next(request)))
    ensures request.verb != HEAD ==> h.delegated == [request]
    // a HEAD at a path without GET: the empty response, next not called
    ensures TakesOver(request) && !ForwardsAsGet(request) ==> h == Handled([], Returned(GetResponse(m)))
    // a HEAD at a path with GET: next runs the GET version once, its body is replaced
    ensures ForwardsAsGet(request) ==>
      && h.delegated == [AsGet(request)]
      && h.outcome == Returned(next(AsGet(request)).(body := m.streamFactory()))
    // a non-RouteResult attribute makes `getAllowedMethods()` fail
    ensures h.outcome.Raised? <==>
      request.verb == HEAD && RouteResultOf(request.attributes).NotRouteResult?
    ensures h.outcome.Raised? ==> h.delegated == []
  {
    if request.verb != HEAD then
      Handled([request], Returned(next(request)))
    else
      match RouteResultOf(request.attributes)
      case Missing => Handled([request], Returned(next(request)))
      case NotRouteResult(_) => Handled([], Raised(MemberCallOnNonObject))
      case Found(result) =>
        var allowedMethods := result.allowedMethods;
        var route := result.matchedRoute;
        if allowedMethods == [] || (route.Some? && !route.value.implicitHead) then
          Handled([request], Returned(next(request)))
        else if GET !in allowedMethods then
          Handled([], Returned(GetResponse(m)))
        else
          var forwarded := AsGet(request);
          var response := next(forwarded);
          Handled([forwarded], Returned(response.(body := m.streamFactory())))
  }

  /** Every call ends in exactly one of: handing the request on unchanged,
      the empty response, handing on a changed request (the GET version), or
      the failure on a non-RouteResult attribute. */
  lemma OneOutcome(m: ImplicitHeadMiddleware, request: Request, next: Request -> Response)
    ensures var h := Process(m, request, next);
            && (h.delegated == [request] && h.outcome == Returned(next(request))
                <==> !TakesOver(request) && !h.outcome.Raised?)
            && (h.delegated == [] && h.outcome == Returned(GetResponse(m))
                <==> TakesOver(request) && !ForwardsAsGet(request))
            && (|h.delegated| == 1 && h.delegated[0] != request <==> ForwardsAsGet(request))
  {
  }

  /** Section 4.3.2 of RFC 7231: with the default body factory, the answer to
      a forwarded HEAD carries the status and headers of the GET answer and
      an empty body. */
  lemma HeadMirrorsGet(prototype: Option<Response>, request: Request, next: Request -> Response)
    requires ForwardsAsGet(request)
    ensures var r := Process(New(prototype, None), request, next).outcome.response;
            && r.status == next(AsGet(request)).status
            && r.headers == next(AsGet(request)).headers
            && r.body == []
  {
  }

  /** The three shapes of route result stay apart for HEAD as well: none and
      an empty allowed list pass through; with no route attached a non-empty
      list is taken over; a matched route that turns implicit HEAD off passes
      through. */
  lemma RouteResultCases(m: ImplicitHeadMiddleware, request: Request, next: Request -> Response)
    requires request.verb == HEAD
    ensures RouteResultOf(request.attributes).Missing? ==> Process(m, request, next).delegated == [request]
    ensures RouteResultOf(request.attributes).Found?
            && RouteResultOf(request.attributes).result.allowedMethods == []
            ==> Process(m, request, next).delegated == [request]
    ensures RouteResultOf(request.attributes).Found?
            && RouteResultOf(request.attributes).result.allowedMethods != []
            && RouteResultOf(request.attributes).result.matchedRoute.None?
            ==> Process(m, request, next).delegated != [request]
    ensures RouteResultOf(request.attributes).Found?
            && RouteResultOf(request.attributes).result.matchedRoute.Some?
            && !RouteResultOf(request.attributes).result.matchedRoute.value.implicitHead
            ==> Process(m, request, next).delegated == [request]
  {
  }

  /** A route registered for POST only, with the default implicit policy:
      HEAD gets the default empty 200 response and the POST handler is not
      run. */
  lemma PostOnlyExample(request: Request, next: Request -> Response)
    requires request.verb == HEAD
    requires ROUTE_RESULT_ATTRIBUTE in request.attributes
    requires request.attributes[ROUTE_RESULT_ATTRIBUTE]
             == Routed(RouteResult(["POST"], Some(Route(true, true))))
    ensures Process(New(None, None), request, next) == Handled([], Returned(Response(STATUS_OK, [], [])))
  {
  }

  /** A route allowing HEAD and GET whose handler answers with a JSON error
      (status 400, `Content-Type: application/json`, a JSON body): HEAD yields
      status 400, the same header, and no content; the handler saw a GET
      marked as forwarded from HEAD. */
  lemma JsonErrorExample(request: Request, next: Request -> Response)
    requires request.verb == HEAD
    requires ROUTE_RESULT_ATTRIBUTE in request.attributes
    requires request.attributes[ROUTE_RESULT_ATTRIBUTE]
             == Routed(RouteResult([HEAD, GET], Some(Route(true, true))))
    requires next(AsGet(request))
             == Response(400, [("Content-Type", "application/json")], "{\"some_data\":true}")
    ensures var h := Process(New(None, None), request, next);
            && h.outcome == Returned(Response(400, [("Content-Type", "application/json")], []))
            && |h.delegated| == 1
            && h.delegated[0].verb == GET
            && h.delegated[0].attributes[FORWARDED_HTTP_METHOD_ATTRIBUTE] == Text(HEAD)
  {
  }

  /** The method token is matched case-sensitively: `head` is handed on. */
  lemma LowerCaseIsHandedOn(m: ImplicitHeadMiddleware, request: Request, next: Request -> Response)
    requires request.verb == "head"
    ensures Process(m, request, next) == Handled([request], Returned(next(request)))
  {
  }
}
