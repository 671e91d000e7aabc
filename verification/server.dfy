/**
 * The backend's own decisions: the CORS origin callback and options, and
 * which response a request ends with once the route handlers have had their
 * turn (the health check, the catch-all error handler, the 404 handler).
 * Which route a request matches, and what the API routes do, are inputs.
 */
module Server {
  import opened Wrappers
  import opened JsString

  /** The branch of the origin callback a request takes. */
  datatype OriginRule = NoOrigin | LocalDevelopment | VercelDeployment | AnyOther

  /** The arguments of one `callback(err, allow)` call; `None` stands for `null`. */
  datatype CallbackCall = CallbackCall(err: Option<string>, allow: bool)

  const Allow := CallbackCall(None, true)

  /** Which test of the origin callback fires first; every test is a substring test on the raw origin. */
  function MatchedRule(origin: Option<string>): (rule: OriginRule)
    ensures rule == NoOrigin <==> !Truthy(origin)
    ensures rule == LocalDevelopment <==>
              Truthy(origin)
              && ((exists i :: OccursAt(origin.value, "localhost", i)) || (exists i :: OccursAt(origin.value, "127.0.0.1", i)))
    ensures rule == VercelDeployment ==> exists i :: OccursAt(origin.value, ".vercel.app", i)
    ensures rule == AnyOther ==>
              && Truthy(origin)
              && !Includes(origin.value, "localhost") && !Includes(origin.value, "127.0.0.1")
              && !Includes(origin.value, ".vercel.app")
  {
    if !Truthy(origin) then NoOrigin
    else if Includes(origin.value, "localhost") || Includes(origin.value, "127.0.0.1") then LocalDevelopment
    else if Includes(origin.value, ".vercel.app") then VercelDeployment
    else AnyOther
  }

  /** `corsOptions.origin`: the calls it makes to its callback, in order. */
  function OriginCallback(origin: Option<string>): (calls: seq<CallbackCall>)
    ensures |calls| == 1
    ensures calls[0].err.None? && calls[0].allow
  {
    match MatchedRule(origin)
    case NoOrigin => [Allow]
    case LocalDevelopment => [Allow]
    case VercelDeployment => [Allow]
    case AnyOther => [Allow]
  }

  /** A string that lacks some character of `t` cannot include `t`. */
  lemma MissingCharExcludes(s: string, t: string, c: char)
    requires c in t && c !in s
    ensures !Includes(s, t)
  {
  }

  /**
   * The local-development test is a substring test, not a host match: an
   * origin that mentions `localhost` or `127.0.0.1` anywhere, say
   * `https://localhost.attacker.example` or `https://attacker.example/?127.0.0.1`,
   * passes it.
   */
  lemma LocalMarkerAnywhere(before: string, marker: string, after: string)
    requires marker in {"localhost", "127.0.0.1"}
    ensures MatchedRule(Some(before + marker + after)) == LocalDevelopment
  {
    IncludesInfix(before, marker, after);
  }

  /**
   * And the deployment test: `.vercel.app` need not end the host, so
   * `https://app.vercel.app.attacker.example` counts as a deployment.
   */
  lemma VercelAnywhere(before: string, after: string)
    requires !Includes(before + ".vercel.app" + after, "localhost")
    requires !Includes(before + ".vercel.app" + after, "127.0.0.1")
    ensures MatchedRule(Some(before + ".vercel.app" + after)) == VercelDeployment
  {
    IncludesInfix(before, ".vercel.app", after);
  }

  /** An origin that passes none of the three tests reaches the fallback, which allows it too. */
  lemma UnlistedOriginIsAllowed(origin: string)
    requires origin != []
    requires !Includes(origin, "localhost") && !Includes(origin, "127.0.0.1") && !Includes(origin, ".vercel.app")
    ensures MatchedRule(Some(origin)) == AnyOther
    ensures OriginCallback(Some(origin)) == [Allow]
  {
  }

  /**
   * For instance an origin without the characters `l`, `7` and `v`, such as
   * `https://foo.io`, passes none of the tests.
   */
  lemma OriginWithoutMarkerCharacters(origin: string)
    requires origin != []
    requires 'l' !in origin && '7' !in origin && 'v' !in origin
    ensures MatchedRule(Some(origin)) == AnyOther
  {
    assert "localhost"[0] == 'l';
    MissingCharExcludes(origin, "localhost", 'l');
    assert "127.0.0.1"[2] == '7';
    MissingCharExcludes(origin, "127.0.0.1", '7');
    assert ".vercel.app"[1] == 'v';
    MissingCharExcludes(origin, ".vercel.app", 'v');
    UnlistedOriginIsAllowed(origin);
  }

  datatype CorsOptions = CorsOptions(credentials: bool, methods: seq<string>, allowedHeaders: seq<string>)

  /** The options handed to the `cors` middleware besides the origin callback. */
  function CorsConfig(): (c: CorsOptions)
    ensures c.credentials
    ensures multiset(c.methods) == multiset{"GET", "POST", "PUT", "DELETE", "OPTIONS"}
    ensures multiset(c.allowedHeaders) == multiset{"Content-Type", "Authorization"}
  {
    CorsOptions(true, ["GET", "POST", "PUT", "DELETE", "OPTIONS"], ["Content-Type", "Authorization"])
  }

  /** A JSON body the server sends; `RouteJson` is whatever an API route chose to send. */
  datatype ResponseBody<A> =
    | ErrorJson(error: string)
    | HealthJson(status: string, message: string)
    | RouteJson(payload: A)

  datatype ServerResponse<A> = ServerResponse(status: nat, body: ResponseBody<A>)

  /** An error reaching the error middleware; its stack is only ever logged. */
  datatype ServerError = ServerError(message: string, stack: string)

  /** The route Express matched: `GET /health`, something under `/api`, or nothing. */
  datatype Route = HealthCheck | ApiRoute | NoRoute

  /** How the API router finished with a request: sent a response, raised an error, or passed it on. */
  datatype RouteOutcome<A> = Sent(response: ServerResponse<A>) | Raised(err: ServerError) | Passed

  const GenericError := "Something went wrong!"
  const RouteNotFound := "Route not found"

  function HealthResponse<A>(): ServerResponse<A> {
    ServerResponse(200, HealthJson("ok", "Server is running"))
  }

  /** The catch-all error middleware: the same reply whatever the error. */
  function ErrorResponse<A>(err: ServerError): ServerResponse<A> {
    ServerResponse(500, ErrorJson(GenericError))
  }

  function NotFoundResponse<A>(): ServerResponse<A> {
    ServerResponse(404, ErrorJson(RouteNotFound))
  }

  /**
   * The response a request ends with. `bodyError` is an error raised before
   * routing (a body over the size limit, malformed JSON); `api` is what the
   * API router did, consulted only for `/api` requests.
   */
  function Respond<A>(route: Route, bodyError: Option<ServerError>, api: RouteOutcome<A>): (r: ServerResponse<A>)
    ensures bodyError.Some? ==> r.status == 500 && r.body == ErrorJson(GenericError)
    ensures bodyError.None? && route == HealthCheck ==> r.status == 200 && r.body == HealthJson("ok", "Server is running")
    ensures bodyError.None? && route == NoRoute ==> r.status == 404 && r.body == ErrorJson(RouteNotFound)
    ensures bodyError.None? && route == ApiRoute && api.Sent? ==> r == api.response
    ensures bodyError.None? && route == ApiRoute && api.Raised? ==> r.status == 500 && r.body == ErrorJson(GenericError)
    ensures bodyError.None? && route == ApiRoute && api.Passed? ==> r.status == 404 && r.body == ErrorJson(RouteNotFound)
    ensures !(route == ApiRoute && api.Sent?) ==> r.body.ErrorJson? ==> r.body.error in {GenericError, RouteNotFound}
  {
    if bodyError.Some? then
      ErrorResponse(bodyError.value)
    else
      match route
      case HealthCheck => HealthResponse()
      case NoRoute => NotFoundResponse()
      case ApiRoute =>
        match api
        case Sent(response) => response
        case Raised(err) => ErrorResponse(err)
        case Passed => NotFoundResponse()
  }

  /** What the client sees of a failure never depends on the error's message or stack. */
  lemma ErrorsDoNotLeak<A>(route: Route, e1: ServerError, e2: ServerError)
    ensures Respond<A>(route, Some(e1), Passed) == Respond<A>(route, Some(e2), Passed)
    ensures Respond<A>(ApiRoute, None, Raised(e1)) == Respond<A>(ApiRoute, None, Raised(e2))
  {
  }
}
