/** The request path every resource operation goes through: a root's
    `getRequest` makes the uri relative, hands it to the HTTP client with
    the query parameters, and turns an API error envelope into an
    exception even though the server answered 200. The HTTP client itself
    is the abstract `Client` function. */
module Transport {
  import opened Wrappers
  import opened Php

  type Query = map<string, Value>

  /** A decoded JSON response body. */
  type Body = map<string, Value>

  /** One GET request: a path relative to the base url, and its query. */
  datatype Req = Req(path: string, query: Query)

  /** The HTTP client: `None` is a transport failure (Guzzle's
      RequestException), `Some(body)` the decoded JSON body. */
  type Client = (string, Query) -> Option<Body>

  /** Drops exactly one leading `/`. An empty uri is left alone: reading
      `$uri[0]` there is only a notice in PHP and yields "". */
  function StripSlash(uri: string): (r: string)
    ensures |uri| > 0 && uri[0] == '/' ==> uri == "/" + r
    ensures r == uri <==> !(|uri| > 0 && uri[0] == '/')
  {
    if |uri| > 0 && uri[0] == '/' then uri[1..] else uri
  }

  /** The error a body announces: a non-empty `errors` entry, reported
      with the first error's `code` and first message. */
  function Envelope(body: Body): (r: Option<Error>)
    ensures r.None? <==> Empty(Get(body, "errors"))
    ensures r.Some? ==> r.value.Remote?
  {
    var errors := Get(body, "errors");
    if Empty(errors) then None
    else Some(Remote(Field(At(errors, 0), "code"), At(Field(At(errors, 0), "messages"), 0)))
  }

  /** Sends one request and screens the body for an error envelope. */
  function Send(client: Client, req: Req): (r: Result<Body, Error>)
    ensures var reply := client(StripSlash(req.path), req.query);
            && (reply.None? ==> r == Failure(RequestFailed))
            && (reply.Some? && Truthy(Get(reply.value, "errors")) ==> r.Failure? && r.error.Remote?)
            && (r.Success? <==> reply.Some? && Empty(Get(reply.value, "errors")))
            && (r.Success? ==> r.value == reply.value)
  {
    match client(StripSlash(req.path), req.query)
    case None => Failure(RequestFailed)
    case Some(body) =>
      match Envelope(body)
      case Some(e) => Failure(e)
      case None => Success(body)
  }

  /** The error envelope of the API's documentation: code 404, "Invalid route.". */
  lemma EnvelopeExample()
    ensures var err := Assoc(map["code" := Int(404), "status" := Str("Not Found"),
                                 "messages" := List([Str("Invalid route.")])]);
            Envelope(map["errors" := List([err])]) == Some(Remote(Int(404), Str("Invalid route.")))
  {
  }
}
