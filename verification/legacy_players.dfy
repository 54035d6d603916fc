/** `Badgeville\Players`, the legacy player resource: `save` and
    `create`. Both reach the server through `$this->getClient()`, which
    the class does not define; the call falls into `__call`, which looks
    for a child class `Badgeville\Players\GetClient`. The `...AsWritten`
    members model that; `Save` and `Create` model the evident intent of
    sending the request through the injected site. */
module LegacyPlayers {
  import opened Wrappers
  import opened Php
  import opened Transport
  import opened Shaping
  import R = Resource
  import opened Legacy

  /** The fields `save` may send. */
  const AllowedFields: set<string> := {"name", "display_name", "first_name", "last_name", "image", "admin", "custom"}

  /** The payload of `save`: the allowed fields of the player that are
      not null, unchanged. */
  function SavePayload(n: LNode): (r: Attrs)
    ensures forall k :: k in r <==> k in AllowedFields && k in n.data && n.data[k] != Null
    ensures forall k :: k in r ==> r[k] == n.data[k]
    ensures "id" !in r && "email" !in r
  {
    DropNulls(OnlyKeys(n.data, AllowedFields))
  }

  /** The request of `save`: `do=update` on `players/<id>`. */
  function SaveRequest(n: LNode): (r: Req)
    ensures r.path == "players/" + ToStr(LId(n))
    ensures r.query.Keys == {"do", "data"} && r.query["do"] == Str("update") && r.query["data"] == Assoc(SavePayload(n))
  {
    Req("players/" + ToStr(LId(n)), Action("update", SavePayload(n)))
  }

  /** `$this->getClient()->getRequest(...)` followed by indexing the
      result: `getClient` becomes a child lookup, `getRequest` another,
      and a resource object cannot be indexed, so every path is fatal
      and nothing is sent. */
  function ThroughGetClient(n: LNode, uri: string, classes: set<seq<string>>): (r: Result<Attrs, Error>)
    ensures r.Failure? && r.error.Fatal?
  {
    var c :- LCall(n, "getClient", [], classes);
    var resp :- LCall(c, "getRequest", [Str(uri)], classes);
    Failure(Fatal("Cannot use object of type " + ClassName(resp.cls) + " as array"))
  }

  /** `save()` as written: always fatal, for any player. */
  function SaveAsWritten(n: LNode, classes: set<seq<string>>): (r: Result<LNode, Error>)
    ensures r.Failure? && r.error.Fatal?
  {
    var attempt := ThroughGetClient(n, SaveRequest(n).path, classes);
    Failure(attempt.error)
  }

  /** `save()` through the site: a copy of the receiver takes
      `response['players'][0]`; the receiver is not changed. */
  function Save(n: LNode, client: Client): (r: Result<LNode, Error>)
    ensures !n.siteSet ==> r == Failure(NoSite)
    ensures n.siteSet ==>
              var sent := Send(client, SaveRequest(n));
              && (sent.Failure? ==> r == Failure(sent.error))
              && (sent.Success? ==> (r.Success? <==> R.Unwrap(sent.value, "players").Success?))
              && (sent.Success? && r.Success? ==> r.value.data == R.Unwrap(sent.value, "players").value)
    ensures r.Success? ==> r.value == n.(data := r.value.data)
  {
    if !n.siteSet then Failure(NoSite)
    else
      var body :- Send(client, SaveRequest(n));
      var d :- R.Unwrap(body, "players");
      Success(n.(data := d))
  }

  /** The uri of `create`: the data travels inline. */
  function CreateUri(params: Value, encode: Value -> string): (r: string)
    ensures |r| == |"players?do=create&data="| + |encode(params)|
    ensures r[..|"players?do=create&data="|] == "players?do=create&data="
    ensures r[|"players?do=create&data="|..] == encode(params)
  {
    "players?do=create&data=" + encode(params)
  }

  /** `create($params)` as written: always fatal. */
  function CreateAsWritten(n: LNode, params: Value, encode: Value -> string, classes: set<seq<string>>): (r: Result<LNode, Error>)
    ensures r.Failure? && r.error.Fatal?
  {
    var attempt := ThroughGetClient(n, CreateUri(params, encode), classes);
    Failure(attempt.error)
  }

  /** `create($params)` through the site: a copy of the receiver takes
      the created player. */
  function Create(n: LNode, params: Value, encode: Value -> string, client: Client): (r: Result<LNode, Error>)
    ensures !n.siteSet ==> r == Failure(NoSite)
    ensures n.siteSet ==>
              var sent := Send(client, Req(CreateUri(params, encode), map[]));
              && (sent.Failure? ==> r == Failure(sent.error))
              && (sent.Success? ==> (r.Success? <==> R.Unwrap(sent.value, "players").Success?))
              && (sent.Success? && r.Success? ==> r.value.data == R.Unwrap(sent.value, "players").value)
    ensures r.Success? ==> r.value == n.(data := r.value.data)
  {
    if !n.siteSet then Failure(NoSite)
    else
      var body :- Send(client, Req(CreateUri(params, encode), map[]));
      var d :- R.Unwrap(body, "players");
      Success(n.(data := d))
  }

  /** The repository has no `Players\GetClient` class, so the lookup
      itself fails. */
  lemma NoGetClientClass(n: LNode)
    requires n.cls == ["Badgeville", "Players"]
    ensures LCall(n, "getClient", [], LegacyClasses).Failure?
  {
    var cls := n.cls + [UcFirst("getClient")];
    assert UcFirst("getClient") == "GetClient";
    assert cls == ["Badgeville", "Players", "GetClient"];
    assert cls[2] != "Activities" && |cls| == 3;
  }

  /** A player with a site and a server that accepts the update: the
      source's `save` fails where the corrected one succeeds. */
  lemma SaveFailsWhereSiteWorks()
    ensures var p := LNode(["Badgeville", "Players"], map["id" := Str("p1"), "name" := Str("Joey")], SiteRoot, true);
            var reply: Body := map["players" := List([Assoc(map["id" := Str("p1")])])];
            && SaveAsWritten(p, LegacyClasses).Failure?
            && Save(p, (path, q) => Some(reply)).Success?
  {
    var reply: Body := map["players" := List([Assoc(map["id" := Str("p1")])])];
    assert Envelope(reply).None?;
  }
}
