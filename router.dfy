/** The request builder of the Imagga web service client: each of the three operations
    maps to a request description (URL, HTTP method, parameters, header, timeout). */
module Router {
  import opened Wrappers

  const BaseURLPath: string := "http://api.imagga.com/v1"
  const AuthenticationToken: string :=
    "Basic YWNjXzhlNDFhMTQzODRlYjM3YzplODE4YWU5NTFkYjAyNzdmZDNhYjZhMWU0OTcyNzdlOA=="
  /** `NSTimeInterval(10 * 1000)`: seconds. */
  const TimeoutInterval: int := 10 * 1000

  datatype ImaggaRouter =
    | Content
    | Tags(contentID: string)
    | Colors(contentID: string)

  datatype HttpMethod = GET | POST

  function RawValue(m: HttpMethod): string {
    match m
    case GET => "GET"
    case POST => "POST"
  }

  /** A request parameter: a string, or a number (`NSNumber`). */
  datatype ParamValue = Text(s: string) | Number(n: int)

  /** The `(path, method, parameters)` triple chosen per operation. */
  datatype Route = Route(path: string, verb: HttpMethod, parameters: map<string, ParamValue>)

  /** A request before parameter encoding. `timeoutInterval` is `None` when the request
      keeps the transport's default timeout. */
  datatype Request = Request(
    url: string,
    httpMethod: string,
    headers: map<string, string>,
    timeoutInterval: Option<int>,
    parameters: map<string, ParamValue>)

  /** The switch over the operation: path, method and parameters. Only `Content` is a POST
      and carries no parameters; the fetches carry the content id under `content`, and
      only `Colors` asks for `extract_object_colors`. */
  function RouteOf(op: ImaggaRouter): (route: Route)
    ensures |route.path| > 1 && route.path[0] == '/'
    ensures route.verb == (if op.Content? then POST else GET)
    ensures op.Content? <==> route.parameters == map[]
    ensures !op.Content? ==> "content" in route.parameters && route.parameters["content"] == Text(op.contentID)
    ensures "extract_object_colors" in route.parameters <==> op.Colors?
  {
    match op
    case Content => Route("/content", POST, map[])
    case Tags(contentID) =>
      var params := map["content" := Text(contentID)];
      assert "content" in params;
      Route("/tagging", GET, params)
    case Colors(contentID) =>
      var params := map["content" := Text(contentID), "extract_object_colors" := Number(0)];
      assert "content" in params;
      Route("/colors", GET, params)
  }

  /** The `URLRequest` property: total, with no failure branch. Every operation gets the
      base URL, the fixed credential and the same timeout; only `Content` is a POST; the
      two fetches carry the content id unchanged. */
  function URLRequest(op: ImaggaRouter): (req: Request)
    ensures |req.url| > |BaseURLPath| && req.url[..|BaseURLPath|] == BaseURLPath
    ensures req.headers == map["Authorization" := AuthenticationToken]
    ensures req.timeoutInterval == Some(10000)
    ensures req.httpMethod == (if op.Content? then "POST" else "GET")
    ensures op.Content? <==> req.parameters == map[]
    ensures !op.Content? ==> "content" in req.parameters && req.parameters["content"] == Text(op.contentID)
  {
    var route := RouteOf(op);
    Request(
      BaseURLPath + route.path,
      RawValue(route.verb),
      map["Authorization" := AuthenticationToken],
      Some(TimeoutInterval),
      route.parameters)
  }

  /** The service's reading of a request: which operation it asks for, if any. */
  function OperationOf(req: Request): (op: Option<ImaggaRouter>)
  {
    var params := req.parameters;
    if req.url == BaseURLPath + "/content" && req.httpMethod == "POST" && params == map[] then
      Some(Content)
    else if req.url == BaseURLPath + "/tagging" && req.httpMethod == "GET"
         && params.Keys == {"content"} && params["content"].Text? then
      Some(Tags(params["content"].s))
    else if req.url == BaseURLPath + "/colors" && req.httpMethod == "GET"
         && params.Keys == {"content", "extract_object_colors"} && params["content"].Text?
         && params["extract_object_colors"] == Number(0) then
      Some(Colors(params["content"].s))
    else
      None
  }

  /** The three request descriptions, written out. */
  lemma RequestTable(id: string)
    ensures URLRequest(Content) == Request(
              "http://api.imagga.com/v1/content", "POST",
              map["Authorization" := AuthenticationToken], Some(10000), map[])
    ensures URLRequest(Tags(id)) == Request(
              "http://api.imagga.com/v1/tagging", "GET",
              map["Authorization" := AuthenticationToken], Some(10000),
              map["content" := Text(id)])
    ensures URLRequest(Colors(id)) == Request(
              "http://api.imagga.com/v1/colors", "GET",
              map["Authorization" := AuthenticationToken], Some(10000),
              map["content" := Text(id), "extract_object_colors" := Number(0)])
  {
  }

  /** The service recovers every operation, content id included, from its request. */
  lemma OperationRoundTrip(op: ImaggaRouter)
    ensures OperationOf(URLRequest(op)) == Some(op)
  {
    var req := URLRequest(op);
    var n := |BaseURLPath|;
    assert (BaseURLPath + "/content")[n + 1] == 'c';
    assert (BaseURLPath + "/tagging")[n + 1] == 't';
    assert (BaseURLPath + "/colors")[n + 1] == 'c' && (BaseURLPath + "/colors")[n + 2] == 'o';
    assert (BaseURLPath + "/content")[n + 2] == 'o' && (BaseURLPath + "/content")[n + 3] == 'n';
    assert (BaseURLPath + "/colors")[n + 3] == 'l';
    match op
    case Content =>
    case Tags(id) =>
      assert req.parameters.Keys == {"content"};
    case Colors(id) =>
      assert req.parameters.Keys == {"content", "extract_object_colors"};
  }

  /** Conversely, a request the service reads as an operation is exactly the request the
      builder makes for it, apart from header and timeout. */
  lemma OperationOfSound(req: Request)
    requires OperationOf(req).Some?
    ensures var built := URLRequest(OperationOf(req).value);
            built.url == req.url && built.httpMethod == req.httpMethod
            && built.parameters == req.parameters
  {
    var params := req.parameters;
    match OperationOf(req).value
    case Content =>
    case Tags(id) =>
      assert params == map["content" := Text(id)];
    case Colors(id) =>
      assert params == map["content" := Text(id), "extract_object_colors" := Number(0)];
  }

  /** Distinct operations give distinct requests. */
  lemma URLRequestInjective(a: ImaggaRouter, b: ImaggaRouter)
    requires URLRequest(a) == URLRequest(b)
    ensures a == b
  {
    OperationRoundTrip(a);
    OperationRoundTrip(b);
  }
}
