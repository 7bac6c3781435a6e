# Implicit HEAD and OPTIONS middleware of zend-expressive-router, in Dafny

This project models the two method-fallback middlewares of zend-expressive-router.
Both sit after the routing middleware and read the `RouteResult` it stores on the request.

- `ImplicitOptionsMiddleware` answers an OPTIONS request itself when the router matched the path but the route does not handle OPTIONS.
  The answer is the response prototype (or a fresh 200 response) with an `Allow` header listing the allowed methods, joined by `,` in the router's order (sections 4.3.7 and 7.4.1 of RFC 7231).
- `ImplicitHeadMiddleware` handles HEAD in the same situation.
  If GET is not allowed, it returns the prototype (or a fresh empty 200 response).
  If GET is allowed, it hands the request on as GET, tagged with the `forwarded_http_method` attribute set to `HEAD`.
  It then replaces the body of the answer with a new one from its stream factory (section 4.3.2 of RFC 7231).

Files:

- `http.dfy` (module `Http`): requests with an attribute bag, responses with an ordered header list, `RouteResult` and `Route`.
  It also holds the PHP helpers the middlewares call: the attribute lookup with default `false`, `implode` (`Join`) with its inverse `explode` (`Split`), and PSR-7 `withHeader`.
- `implicit_options.dfy` (module `ImplicitOptions`): the OPTIONS middleware.
- `implicit_head.dfy` (module `ImplicitHead`): the HEAD middleware.

Both source files are pure decision procedures over immutable values, so both are modelled as datatypes and functions.
A middleware instance is a datatype of its configuration fields, which only the constructor sets.
The next handler is a function parameter `Request -> Response`.
`Process` returns a `Handled` value: the requests handed to the next handler, in call order, and the response returned or the error raised.
This is how "next is called at most once" and "next is not called" are stated.

The attribute lookup follows the code, not a fail-open reading of it.
`getAttribute(RouteResult::class, false)` followed by `false ===` treats an absent attribute and a stored `false` as "no route result".
Any other value that is not a `RouteResult` makes PHP raise an error when `getAllowedMethods()` is called on it.
The model keeps this: `Process` ends in `Raised(MemberCallOnNonObject)` for such a value, and `next` is not called.

## Model

| member | source | states |
|---|---|---|
| `Http.RouteResultOf` | src/Middleware/ImplicitOptionsMiddleware.php:75 | the lookup with default `false` reads "no route result" exactly when the attribute is absent or holds `false`, and finds a RouteResult exactly when one is stored |
| `Http.Join` | src/Middleware/ImplicitOptionsMiddleware.php:86 | `implode`: empty for no parts; otherwise the length is the parts' total length plus one separator between each pair of neighbours, and the result starts with the first part |
| `Http.Split` | src/Middleware/ImplicitOptionsMiddleware.php:86 | `explode`, the inverse used to read an `Allow` line back: at least one piece, no piece holds the separator, one separator consumed between each pair of pieces |
| `Http.SplitJoin` | src/Middleware/ImplicitOptionsMiddleware.php:86 | round trip: splitting the `implode` of a non-empty list of separator-free tokens gives back the list, in order, duplicates kept |
| `Http.WithoutHeader` | src/Middleware/ImplicitOptionsMiddleware.php:86 | the first half of `withHeader`: no line of the given name is left; every other name keeps its values in order |
| `Http.WithHeader` | src/Middleware/ImplicitOptionsMiddleware.php:86 | PSR-7 `withHeader`: status and body kept, the name carries exactly the one new value (as the last line), every other header's values unchanged |
| `Http.HeaderValuesAppend` | src/Middleware/ImplicitOptionsMiddleware.php:86 | the values of a header over two concatenated header lists are the values over each, in order |
| `ImplicitOptions.New` | src/Middleware/ImplicitOptionsMiddleware.php:56-59 | the constructor keeps the optional prototype as given |
| `ImplicitOptions.GetResponse` | src/Middleware/ImplicitOptionsMiddleware.php:94-97 | the prototype when configured, else a fresh response with status 200, no headers and an empty body |
| `ImplicitOptions.Process` | src/Middleware/ImplicitOptionsMiddleware.php:68-87 | next is called at most once and only with the request as given; a non-OPTIONS request is handed on; the middleware answers itself exactly when the method is `OPTIONS`, a RouteResult is found, its allowed list is non-empty and no attached route turns implicit OPTIONS off; the answer is the prototype with `Allow` set to the comma-joined allowed list; a non-RouteResult attribute raises |
| `ImplicitOptions.NonOptionsIgnoresAttributes` | src/Middleware/ImplicitOptionsMiddleware.php:70-72 | for a method other than `OPTIONS`, whatever the attributes hold, the result is next on the unchanged request |
| `ImplicitOptions.RouteResultCases` | src/Middleware/ImplicitOptionsMiddleware.php:75-84 | no route result and an empty allowed list both hand on; a non-empty list with no route attached is answered; an attached route with implicit OPTIONS off hands on |
| `ImplicitOptions.AllowListsAllowedMethods` | src/Middleware/ImplicitOptionsMiddleware.php:86 | the synthesized response keeps the prototype's status (200 by default), body and other headers, has a single `Allow` line, and that line splits back into exactly the allowed methods in the router's order |
| `ImplicitOptions.GetPostExample` | test/Middleware/ImplicitOptionsMiddlewareTest.php:100-126 | allowed `[GET, POST]` with no prototype gives status 200 and `Allow: GET,POST` without calling next |
| `ImplicitOptions.PostOnlyExample` | src/Middleware/ImplicitOptionsMiddleware.php:79-86 | a POST-only route with the default implicit policy answers OPTIONS with a 200 response whose only header is `Allow: POST` |
| `ImplicitOptions.LowerCaseIsHandedOn` | src/Middleware/ImplicitOptionsMiddleware.php:70-72 | the method comparison is case-sensitive: `options` is handed on unchanged |
| `ImplicitHead.DefaultStreamFactory` | src/Middleware/ImplicitHeadMiddleware.php:75-77 | the default factory yields an empty body |
| `ImplicitHead.New` | src/Middleware/ImplicitHeadMiddleware.php:72-78 | the constructor keeps the prototype and a given factory as they are; with no factory, the stored one yields an empty body |
| `ImplicitHead.GetResponse` | src/Middleware/ImplicitHeadMiddleware.php:129-132 | the prototype when configured, else a fresh response with status 200, no headers and an empty body |
| `ImplicitHead.AsGet` | src/Middleware/ImplicitHeadMiddleware.php:113-117 | the forwarded request has method GET and `forwarded_http_method` = `HEAD`; every other attribute, the target, headers and body are unchanged |
| `ImplicitHead.Process` | src/Middleware/ImplicitHeadMiddleware.php:91-122 | next is called at most once; a request not taken over is handed on unchanged; a HEAD at a path without GET gets the prototype or default response and next is not called; a HEAD at a path with GET calls next once on the GET version and returns its answer with the body from the stream factory; a non-RouteResult attribute raises |
| `ImplicitHead.OneOutcome` | src/Middleware/ImplicitHeadMiddleware.php:91-122 | each call ends in exactly one of: hand on unchanged, empty response, forward as GET, or raise; each outcome holds exactly under its condition |
| `ImplicitHead.HeadMirrorsGet` | src/Middleware/ImplicitHeadMiddleware.php:113-121 | with the default factory, the HEAD answer has the status and headers of the GET answer and an empty body |
| `ImplicitHead.RouteResultCases` | src/Middleware/ImplicitHeadMiddleware.php:98-106 | no route result and an empty allowed list both hand on; a non-empty list with no route attached is taken over; an attached route with implicit HEAD off hands on |
| `ImplicitHead.PostOnlyExample` | src/Middleware/ImplicitHeadMiddleware.php:109-111 | a POST-only route answers HEAD with the default empty 200 response and never runs the POST handler |
| `ImplicitHead.JsonErrorExample` | test/Middleware/ImplicitHeadMiddlewareTest.php:160-187 | allowed `[HEAD, GET]`: a JSON answer with status 400 and `application/json` becomes status 400 with the same header and no content; next saw a GET tagged `forwarded_http_method` = `HEAD` |
| `ImplicitHead.LowerCaseIsHandedOn` | src/Middleware/ImplicitHeadMiddleware.php:93-95 | the method comparison is case-sensitive: `head` is handed on unchanged |

## Left out

- Header names are compared exactly. PSR-7 compares them case-insensitively and keeps the first spelling; the model does not.
- Bodies are content values. Stream objects, their identity, and the guarantee that each default factory call yields a distinct stream instance are not modelled.
- A factory that returns something other than a stream (a PHP callable returning `null`, say) is not modelled: the factory has type `() -> seq<char>`.
- Errors raised by the next handler propagate unchanged in PHP. The next handler here is a total function, so no such error is modelled.
- `RouteResult` and `Route` are not part of this model; only the allowed-methods list and the two implicit flags are. A `null` allowed list ("any method") is falsy in PHP just like an empty array, and both hand the request on; the model folds it into the empty list.
- Attribute values other than strings, booleans and RouteResult objects are represented by `Text`. All of them behave the same in `process`: calling `getAllowedMethods()` on them raises.
- Calling either middleware twice on the same request with the same next handler gives equal results. That holds here by construction, since `Process` is a function, so it has no lemma of its own.
- The `HANDLER_METHOD` compatibility constant and the test doubles are framework plumbing and are not modelled.
