/** The pure decisions of the HTTP transport (client.go `getContentType`,
    `SetContentType` and the request set-up of `RestyRequestFn`): which
    content type a request announces and where the body goes for each
    method. Executing the request is a collaborator. */
module Transport {
  import opened Base
  import opened Text
  import opened Route
  import opened Collaborators

  const DefaultContentType := "application/json"

  /** `getContentType`: the content type the context carries, or JSON when
      it carries none or an empty one. */
  function GetContentType(ctx: Context): (r: string)
    ensures r != ""
    ensures ctx.contentType.Some? && ctx.contentType.value != "" ==> r == ctx.contentType.value
    ensures ctx.contentType.None? || ctx.contentType.value == "" ==> r == DefaultContentType
  {
    match ctx.contentType
    case None => DefaultContentType
    case Some(t) => if t == "" then DefaultContentType else t
  }

  /** `SetContentType`: the client's context with the content type replaced
      (a nil context starts from the empty one). */
  function SetContentType(ctx: Context, contentType: string): (r: Context)
    ensures r.contentType == Some(contentType)
  {
    ctx.(contentType := Some(contentType))
  }

  /** What is read back is what was set, unless an empty type was set, which
      reads back as the default. */
  lemma ContentTypeRoundTrip(ctx: Context, contentType: string)
    ensures GetContentType(SetContentType(ctx, contentType))
      == if contentType == "" then DefaultContentType else contentType
  {
  }

  /** Setting twice keeps only the second value. */
  lemma SetContentTypeOverrides(ctx: Context, first: string, second: string)
    ensures SetContentType(SetContentType(ctx, first), second) == SetContentType(ctx, second)
  {
  }

  /** Where `RestyRequestFn` puts the request body. */
  datatype BodyPlacement = QueryParams | RequestBody | NoPayload

  /** The `switch strings.ToUpper(method)` of `RestyRequestFn`: GET sends
      the body as query parameters, POST, PUT and PATCH as the request
      body, and every other method sends no payload at all. */
  function Placement(httpMethod: string): (r: BodyPlacement)
    ensures r == QueryParams <==> Upper(httpMethod) == "GET"
    ensures r == RequestBody <==> Upper(httpMethod) in {"POST", "PUT", "PATCH"}
  {
    var m := Upper(httpMethod);
    if m == "GET" then QueryParams
    else if m == "POST" || m == "PUT" || m == "PATCH" then RequestBody
    else NoPayload
  }

  /** The placement depends on the method only up to letter case. */
  lemma PlacementIgnoresCase(m1: string, m2: string)
    requires Lower(m1) == Lower(m2)
    ensures Placement(m1) == Placement(m2)
  {
    SameLowerSameUpper(m1, m2);
  }

  /** "get", "Get" and "GET" are all sent as query parameters. */
  lemma LowerCaseGetIsQuery(httpMethod: string)
    requires Lower(httpMethod) == "get"
    ensures Placement(httpMethod) == QueryParams
  {
    PlacementIgnoresCase(httpMethod, "GET");
  }

  /** Two routes stored under the same registry key put their bodies in the
      same place: the key and the placement agree on what a method is. */
  lemma SameRouteKeySamePlacement(m1: string, p1: string, m2: string, p2: string)
    requires '_' !in m1 && '_' !in m2
    requires RouteKey(m1, p1) == RouteKey(m2, p2)
    ensures Placement(m1) == Placement(m2)
  {
    SameKeyIffSameRoute(m1, p1, m2, p2);
    PlacementIgnoresCase(m1, m2);
  }

  /** Without that restriction the lemma above fails: ("GET", "_x") and
      ("GET_", "x") share the key "get__x", yet the first sends its body as
      query parameters and the second sends nothing. */
  lemma UnderscoreMethodsPlaceDifferently()
    ensures RouteKey("GET", "_x") == RouteKey("GET_", "x")
    ensures Placement("GET") == QueryParams && Placement("GET_") == NoPayload
  {
    assert Lower("GET") == "get" && Lower("GET_") == "get_";
    assert Upper("GET") == "GET" && Upper("GET_") == "GET_";
  }

  /** The resty request before execution. The method is passed on as the
      caller spelled it; only the placement looks at its upper-cased form. */
  datatype HttpRequest = HttpRequest(
    httpMethod: string,
    url: string,
    contentType: string,
    query: Option<map<string, string>>,
    body: Option<string>)

  /** The request `RestyRequestFn` prepares: the URL is the host followed by
      the path, the Content-Type header is the context's content type, and
      the body is placed by method. Converting a GET body to query
      parameters (`str2FormMap`) is the collaborator `toForm`; its failure
      is the call's error and no request is sent. */
  function BuildRequest(host: string, toForm: string -> Result<map<string, string>>, ctx: Context,
                        httpMethod: string, path: string, body: string): (r: Result<HttpRequest>)
    ensures r.Err? <==> Placement(httpMethod) == QueryParams && toForm(body).Err?
    ensures r.Err? ==> toForm(body) == Err(r.error)
    ensures r.Ok? ==>
      && r.value.httpMethod == httpMethod
      && |r.value.url| == |host| + |path| && r.value.url[..|host|] == host && r.value.url[|host|..] == path
      && r.value.contentType == GetContentType(ctx)
      && r.value.contentType != ""
      && (ctx.contentType.Some? && ctx.contentType.value != "" ==> r.value.contentType == ctx.contentType.value)
      && (ctx.contentType.None? || ctx.contentType.value == "" ==> r.value.contentType == DefaultContentType)
    ensures r.Ok? ==> (r.value.query.Some? <==> Placement(httpMethod) == QueryParams)
    ensures r.Ok? && r.value.query.Some? ==> toForm(body) == Ok(r.value.query.value)
    ensures r.Ok? ==> (r.value.body.Some? <==> Placement(httpMethod) == RequestBody)
    ensures r.Ok? && r.value.body.Some? ==> r.value.body.value == body
  {
    var base := HttpRequest(httpMethod, host + path, GetContentType(ctx), None, None);
    match Placement(httpMethod)
    case QueryParams =>
      var form :- toForm(body);
      Ok(base.(query := Some(form)))
    case RequestBody => Ok(base.(body := Some(body)))
    case NoPayload => Ok(base)
  }

  /** One call of the transport `RestyRequestFn(host)` returns: it builds
      the request and hands it to `execute`; the response body or the
      execution error is the transport's result. The HTTP status is not
      looked at: a non-2xx reply is a success carrying its body, and only
      an error from `execute` itself fails the call. */
  function RestyRequest(host: string, toForm: string -> Result<map<string, string>>,
                        execute: HttpRequest -> Result<string>,
                        ctx: Context, httpMethod: string, path: string, body: string): (r: Result<string>)
    ensures Placement(httpMethod) != QueryParams ==>
      r == execute(HttpRequest(httpMethod, host + path, GetContentType(ctx), None,
                               if Placement(httpMethod) == RequestBody then Some(body) else None))
    ensures Placement(httpMethod) == QueryParams && toForm(body).Err? ==> r == Err(toForm(body).error)
    ensures Placement(httpMethod) == QueryParams && toForm(body).Ok? ==>
      r == execute(HttpRequest(httpMethod, host + path, GetContentType(ctx), Some(toForm(body).value), None))
  {
    match BuildRequest(host, toForm, ctx, httpMethod, path, body)
    case Err(e) => Err(e)
    case Ok(req) => execute(req)
  }

  /** `RestyRequestFn(host)` as a transport the pipeline can be given. */
  function RestyRequestFn(host: string, toForm: string -> Result<map<string, string>>,
                          execute: HttpRequest -> Result<string>): (f: Transport)
    ensures forall ctx, m, p, b :: f(ctx, m, p, b) == RestyRequest(host, toForm, execute, ctx, m, p, b)
  {
    (ctx: Context, m: string, p: string, b: string) => RestyRequest(host, toForm, execute, ctx, m, p, b)
  }
}
