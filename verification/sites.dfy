/** `Badgeville\Sites`: a root resource that holds its HTTP client
    directly instead of building one from a configuration. */
module Sites {
  import opened Wrappers
  import opened Php
  import opened Transport

  /** The resource name of the root. */
  const ResourceName := "sites"

  /** The root's attributes and the client `setClient` installed, if any. */
  datatype Sites = Sites(data: Attrs, client: Option<Client>)

  /** `setClient($client)`: installs the client, keeps everything else,
      and returns the receiver. */
  function SetClient(s: Sites, c: Client): (r: Sites)
    ensures r.client.Some? && r.client.value == c
    ensures r.data == s.data
  {
    s.(client := Some(c))
  }

  /** The failure of `$this->client->createRequest(...)` with no client. */
  const NoClient: Error := Fatal("Call to a member function createRequest() on a non-object")

  /** `getRequest($uri, $params)`: a non-string uri is rejected first;
      without a client nothing can be sent; otherwise one leading `/` is
      dropped, the request is sent, and an error envelope becomes an
      exception. */
  function GetRequest(s: Sites, uri: Value, params: Query): (r: Result<Body, Error>)
    ensures !uri.Str? ==> r.Failure? && r.error.InvalidArgument?
    ensures uri.Str? && s.client.None? ==> r == Failure(NoClient)
    ensures uri.Str? && s.client.Some? ==>
              var reply := s.client.value(StripSlash(uri.s), params);
              && (reply.None? ==> r == Failure(RequestFailed))
              && (reply.Some? && Truthy(Get(reply.value, "errors")) ==> r == Failure(Envelope(reply.value).value))
              && (r.Success? <==> reply.Some? && Empty(Get(reply.value, "errors")))
              && (r.Success? ==> r.value == reply.value)
  {
    if !uri.Str? then Failure(InvalidArgument("Invalid uri " + ToStr(uri) + " submitted."))
    else if s.client.None? then Failure(NoClient)
    else Send(s.client.value, Req(uri.s, params))
  }

  /** Installing a client is what makes requests possible: the same
      root and uri fail before `setClient` and reach the client after. */
  lemma SetClientEnablesRequests(s: Sites, c: Client, uri: string, params: Query)
    requires s.client.None?
    ensures GetRequest(s, Str(uri), params) == Failure(NoClient)
    ensures GetRequest(SetClient(s, c), Str(uri), params) == Send(c, Req(uri, params))
  {
  }
}
