/** The slice of the PSR-7 message model that the implicit HEAD and OPTIONS
    middlewares read and write: requests with an attribute bag, responses with
    an ordered header list, the router's RouteResult, and the string helpers
    the middlewares call (`implode`, `in_array`). */
module Http {

  datatype Option<+T> = None | Some(value: T)

  /** Request-method tokens of section 4.1 of RFC 7231, compared case-sensitively. */
  const GET: string := "GET"
  const HEAD: string := "HEAD"
  const OPTIONS: string := "OPTIONS"

  const STATUS_OK: int := 200

  /** The request attribute under which the routing middleware stores its
      RouteResult: the fully qualified class name. */
  const ROUTE_RESULT_ATTRIBUTE: string := "Zend\\Expressive\\Router\\RouteResult"

  /** A header line: name and value. Names are compared exactly. */
  type Header = (string, string)

  /** A response: status code, headers in insertion order, body content. */
  datatype Response = Response(status: int, headers: seq<Header>, body: seq<char>)

  /** The two policy flags a matched route exposes to the middlewares. */
  datatype Route = Route(implicitHead: bool, implicitOptions: bool)

  /** The router's verdict: the methods allowed at the matched path, in the
      router's order, and the matched route, if the result carries one. */
  datatype RouteResult = RouteResult(allowedMethods: seq<string>, matchedRoute: Option<Route>)

  /** A value stored in a request's attribute bag. `Text` and `Flag` stand
      for every value that is not a RouteResult object. */
  datatype Attr = Text(text: string) | Flag(flag: bool) | Routed(result: RouteResult)

  /** A server request. The middlewares read the method (`verb`: `method` is
      a Dafny keyword) and the attributes; target, headers and body travel
      through untouched. */
  datatype Request = Request(
    verb: string,
    target: string,
    headers: seq<Header>,
    attributes: map<string, Attr>,
    body: seq<char>)

  /** What `getAttribute(RouteResult::class, false)` yields, as the
      middlewares interpret it. */
  datatype Lookup = Missing | Found(result: RouteResult) | NotRouteResult(value: Attr)

  /** The lookup with default `false`, followed by `false === $result`: an
      absent attribute and a stored `false` both read as "no route result";
      a RouteResult is found; any other value is not something the middleware
      can call `getAllowedMethods()` on. */
  function RouteResultOf(attributes: map<string, Attr>): (l: Lookup)
    ensures l.Missing? <==>
      ROUTE_RESULT_ATTRIBUTE !in attributes || attributes[ROUTE_RESULT_ATTRIBUTE] == Flag(false)
    ensures l.Found? <==>
      ROUTE_RESULT_ATTRIBUTE in attributes && attributes[ROUTE_RESULT_ATTRIBUTE].Routed?
    ensures l.Found? ==> l.result == attributes[ROUTE_RESULT_ATTRIBUTE].result
  {
    if ROUTE_RESULT_ATTRIBUTE !in attributes then Missing
    else
      match attributes[ROUTE_RESULT_ATTRIBUTE]
      case Flag(false) => Missing
      case Routed(result) => Found(result)
      case other => NotRouteResult(other)
  }

  /** The error PHP raises when a method is called on a value that is not an
      object (here: `getAllowedMethods()` on a non-RouteResult attribute). */
  datatype Fault = MemberCallOnNonObject

  datatype Outcome = Returned(response: Response) | Raised(fault: Fault)

  /** What one call of a middleware's `process` did: the requests it handed
      to the next handler, in call order, and what it returned or raised. */
  datatype Handled = Handled(delegated: seq<Request>, outcome: Outcome)

  /** A zend-diactoros `Response` built with default arguments: status 200,
      no headers, an empty body. */
  function NewResponse(): Response
  {
    Response(STATUS_OK, [], [])
  }

  // ---------------------------------------------------------------------
  // implode / explode

  /** Sum of the lengths of `parts`. */
  function TotalLength(parts: seq<string>): nat
  {
    if parts == [] then 0 else |parts[0]| + TotalLength(parts[1..])
  }

  /** PHP's `implode(sep, parts)`: the parts in order, `sep` between
      neighbours, nothing around them. */
  function Join(sep: string, parts: seq<string>): (s: string)
    ensures parts == [] ==> s == []
    ensures parts != [] ==> |s| == TotalLength(parts) + |sep| * (|parts| - 1)
    ensures parts != [] ==> s[..|parts[0]|] == parts[0]
  {
    if parts == [] then []
    else if |parts| == 1 then parts[0]
    else parts[0] + sep + Join(sep, parts[1..])
  }

  /** PHP's `explode(c, s)` for a one-character separator: the maximal pieces
      of `s` between occurrences of `c`; the empty string gives one empty piece. */
  function Split(s: string, c: char): (parts: seq<string>)
    ensures |parts| > 0
    ensures |parts| - 1 == |s| - TotalLength(parts)
    ensures forall i :: 0 <= i < |parts| ==> c !in parts[i]
  {
    if s == [] then [[]]
    else
      var rest := Split(s[1..], c);
      if s[0] == c then [[]] + rest
      else [[s[0]] + rest[0]] + rest[1..]
  }

  /** A string without the separator splits into itself alone. */
  lemma {:induction false} SplitWithoutSeparator(s: string, c: char)
    requires c !in s
    ensures Split(s, c) == [s]
  {
    if s != [] {
      assert c !in s[1..];
      SplitWithoutSeparator(s[1..], c);
      assert [s[0]] + s[1..] == s;
    }
  }

  /** Splitting `p + [c] + t`, with `c` not in `p`, yields `p` followed by the
      pieces of `t`. */
  lemma {:induction false} SplitAfterPiece(p: string, c: char, t: string)
    requires c !in p
    ensures Split(p + [c] + t, c) == [p] + Split(t, c)
  {
    if p == [] {
      assert p + [c] + t == [c] + t;
      assert ([c] + t)[1..] == t;
    } else {
      var s := p + [c] + t;
      assert s[0] == p[0];
      assert s[1..] == p[1..] + [c] + t;
      assert c !in p[1..];
      SplitAfterPiece(p[1..], c, t);
      assert [p[0]] + p[1..] == p;
    }
  }

  /** `explode` undoes `implode` on a non-empty list whose pieces do not
      contain the separator. */
  lemma {:induction false} SplitJoin(parts: seq<string>, c: char)
    requires parts != []
    requires forall i :: 0 <= i < |parts| ==> c !in parts[i]
    ensures Split(Join([c], parts), c) == parts
  {
    if |parts| == 1 {
      SplitWithoutSeparator(parts[0], c);
    } else {
      SplitJoin(parts[1..], c);
      SplitAfterPiece(parts[0], c, Join([c], parts[1..]));
      assert [parts[0]] + parts[1..] == parts;
    }
  }

  // ---------------------------------------------------------------------
  // Headers

  /** The values of all header lines named `name`, in order. */
  function HeaderValues(headers: seq<Header>, name: string): (values: seq<string>)
    ensures |values| <= |headers|
  {
    if headers == [] then []
    else (if headers[0].0 == name then [headers[0].1] else []) + HeaderValues(headers[1..], name)
  }

  lemma {:induction false} HeaderValuesAppend(a: seq<Header>, b: seq<Header>, name: string)
    ensures HeaderValues(a + b, name) == HeaderValues(a, name) + HeaderValues(b, name)
  {
    if a != [] {
      assert (a + b)[1..] == a[1..] + b;
      HeaderValuesAppend(a[1..], b, name);
    } else {
      assert a + b == b;
    }
  }

  /** The header list with every line named `name` removed; the other lines
      keep their order. */
  function WithoutHeader(headers: seq<Header>, name: string): (r: seq<Header>)
    ensures HeaderValues(r, name) == []
    ensures forall n :: n != name ==> HeaderValues(r, n) == HeaderValues(headers, n)
    ensures forall i :: 0 <= i < |r| ==> r[i] in headers && r[i].0 != name
  {
    if headers == [] then []
    else
      var rest := WithoutHeader(headers[1..], name);
      if headers[0].0 == name then rest
      else
        assert ([headers[0]] + rest)[1..] == rest;
        [headers[0]] + rest
  }

  /** PSR-7 `withHeader(name, value)`: a copy whose only line named `name`
      carries `value`, appended after the other lines; status and body are
      kept. */
  function WithHeader(response: Response, name: string, value: string): (r: Response)
    ensures r.status == response.status && r.body == response.body
    ensures HeaderValues(r.headers, name) == [value]
    ensures forall n :: n != name ==> HeaderValues(r.headers, n) == HeaderValues(response.headers, n)
    ensures r.headers[|r.headers| - 1] == (name, value)
  {
    var kept := WithoutHeader(response.headers, name);
    HeaderValuesAppend(kept, [(name, value)], name);
    forall n | n != name
      ensures HeaderValues(kept + [(name, value)], n) == HeaderValues(response.headers, n)
    {
      HeaderValuesAppend(kept, [(name, value)], n);
    }
    response.(headers := kept + [(name, value)])
  }

  /** PSR-7 `getHeaderLine(name)`: the values of `name` joined by ",". */
  function HeaderLine(response: Response, name: string): string
  {
    Join(",", HeaderValues(response.headers, name))
  }
}
