/** `Badgeville\Site`, the root of the legacy resources: it validates
    its configuration, derives the API base url, creates top-level
    resources by name, and performs every request. The HTTP client it
    builds is the abstract `Client` passed to `GetRequest`. */
module Site {
  import opened Wrappers
  import opened Php
  import opened Transport
  import opened Legacy

  /** A constructed site: its configuration and the base url its client
      resolves request paths against. */
  datatype Site = Site(config: Attrs, baseUrl: string)

  /** The configuration keys the constructor checks, in order. */
  const RequiredParams: seq<string> := ["url", "apiVersion", "apiKey", "siteId"]

  /** A configuration value the constructor accepts: a non-empty string
      other than "0". */
  predicate ValidParam(params: Attrs, key: string) {
    key in params && params[key].Str? && Truthy(params[key])
  }

  /** The exception for the first key that fails: absent, or present but
      not a usable string. */
  function ParamError(params: Attrs, key: string): Error {
    if key !in params then MissingConfig(key)
    else InvalidArgument("Invalid required parameter " + key)
  }

  /** The constructor's validation loop: `None` when every key passes,
      otherwise the error of the first key that fails. */
  function Validate(params: Attrs, keys: seq<string>): (r: Option<Error>)
    ensures r.None? <==> forall i :: 0 <= i < |keys| ==> ValidParam(params, keys[i])
    ensures r.Some? ==> exists i :: 0 <= i < |keys| && !ValidParam(params, keys[i])
                                    && (forall j :: 0 <= j < i ==> ValidParam(params, keys[j]))
                                    && r.value == ParamError(params, keys[i])
  {
    if |keys| == 0 then None
    else if !ValidParam(params, keys[0]) then
      Some(ParamError(params, keys[0]))
    else
      var rest := Validate(params, keys[1..]);
      assert forall i :: 1 <= i < |keys| ==> keys[i] == keys[1..][i - 1];
      if rest.Some? then
        ghost var i :| 0 <= i < |keys[1..]| && !ValidParam(params, keys[1..][i])
                       && (forall j :: 0 <= j < i ==> ValidParam(params, keys[1..][j]))
                       && rest.value == ParamError(params, keys[1..][i]);
        assert !ValidParam(params, keys[i + 1]) && forall j :: 0 <= j < i + 1 ==> ValidParam(params, keys[j]);
        rest
      else
        rest
  }

  /** The unreserved characters of RFC 3986 section 2.3, which simple
      string expansion (section 3.2.2 of RFC 6570) leaves as they are. */
  predicate Unreserved(c: char) {
    ('A' <= c <= 'Z') || ('a' <= c <= 'z') || ('0' <= c <= '9') || c == '-' || c == '.' || c == '_' || c == '~'
  }

  /** The UTF-8 encoding of one character. */
  function Utf8(c: char): (bytes: seq<int>)
    ensures 1 <= |bytes| <= 4
    ensures forall i :: 0 <= i < |bytes| ==> 0 <= bytes[i] < 256
    ensures (c as int) < 0x80 ==> bytes == [c as int]
  {
    var cp := c as int;
    if cp < 0x80 then [cp]
    else if cp < 0x800 then [0xC0 + cp / 0x40, 0x80 + cp % 0x40]
    else if cp < 0x10000 then [0xE0 + cp / 0x1000, 0x80 + (cp / 0x40) % 0x40, 0x80 + cp % 0x40]
    else [0xF0 + cp / 0x40000, 0x80 + (cp / 0x1000) % 0x40, 0x80 + (cp / 0x40) % 0x40, 0x80 + cp % 0x40]
  }

  function HexDigit(d: int): (c: char)
    requires 0 <= d < 16
    ensures Unreserved(c)
  {
    "0123456789ABCDEF"[d]
  }

  /** `%XX` for each byte. */
  function PctBytes(bytes: seq<int>): (r: string)
    requires forall i :: 0 <= i < |bytes| ==> 0 <= bytes[i] < 256
    ensures |r| == 3 * |bytes|
    ensures forall i :: 0 <= i < |r| ==> Unreserved(r[i]) || r[i] == '%'
  {
    if |bytes| == 0 then ""
    else ['%', HexDigit(bytes[0] / 16), HexDigit(bytes[0] % 16)] + PctBytes(bytes[1..])
  }

  /** One character of a simple expansion. */
  function PctChar(c: char): (r: string)
    ensures Unreserved(c) ==> r == [c]
    ensures !Unreserved(c) ==> |r| >= 3
    ensures forall i :: 0 <= i < |r| ==> Unreserved(r[i]) || r[i] == '%'
  {
    if Unreserved(c) then [c] else PctBytes(Utf8(c))
  }

  /** Simple string expansion of one variable value. */
  function PctEncode(s: string): (r: string)
    ensures |r| >= |s|
    ensures forall i :: 0 <= i < |r| ==> Unreserved(r[i]) || r[i] == '%'
  {
    if |s| == 0 then "" else PctChar(s[0]) + PctEncode(s[1..])
  }

  /** Expansion changes a value exactly when it holds a character
      outside the unreserved set. */
  lemma {:induction false} PctEncodeIdentity(s: string)
    ensures PctEncode(s) == s <==> forall i :: 0 <= i < |s| ==> Unreserved(s[i])
    ensures |PctEncode(s)| == |s| <==> forall i :: 0 <= i < |s| ==> Unreserved(s[i])
  {
    if |s| > 0 {
      PctEncodeIdentity(s[1..]);
      assert s == [s[0]] + s[1..];
      assert forall i :: 1 <= i < |s| ==> s[i] == s[1..][i - 1];
    }
  }

  /** The base url template `{url}/{version}/{key}/sites/{site}/`: the url
      is written in as it is, the other three are expanded. */
  function BaseUrl(url: string, version: string, key: string, site: string): (r: string)
    ensures |r| >= |url| + |version| + |key| + |site| + 9
  {
    url + "/" + PctEncode(version) + "/" + PctEncode(key) + "/sites/" + PctEncode(site) + "/"
  }

  /** For values made only of unreserved characters, expansion is plain
      concatenation. */
  lemma PlainBaseUrl(url: string, version: string, key: string, site: string)
    requires forall i :: 0 <= i < |version| ==> Unreserved(version[i])
    requires forall i :: 0 <= i < |key| ==> Unreserved(key[i])
    requires forall i :: 0 <= i < |site| ==> Unreserved(site[i])
    ensures BaseUrl(url, version, key, site) == url + "/" + version + "/" + key + "/sites/" + site + "/"
  {
    PctEncodeIdentity(version);
    PctEncodeIdentity(key);
    PctEncodeIdentity(site);
  }

  predicate ValidConfig(params: Attrs) {
    ValidParam(params, "url") && ValidParam(params, "apiVersion") && ValidParam(params, "apiKey") && ValidParam(params, "siteId")
  }

  /** `new Site($params)`: every required key is checked, in order,
      before anything else happens. */
  function New(params: Attrs): (r: Result<Site, Error>)
    ensures r.Success? <==> ValidConfig(params)
    ensures Validate(params, RequiredParams).Some? ==> r == Failure(Validate(params, RequiredParams).value)
    ensures r.Success? ==> r.value.config == params
    ensures r.Success? ==> ValidConfig(params) && r.value.baseUrl == BaseUrl(params["url"].s, params["apiVersion"].s, params["apiKey"].s, params["siteId"].s)
  {
    match Validate(params, RequiredParams)
    case Some(e) => Failure(e)
    case None =>
      assert ValidParam(params, RequiredParams[0]) && ValidParam(params, RequiredParams[1]);
      assert ValidParam(params, RequiredParams[2]) && ValidParam(params, RequiredParams[3]);
      Success(Site(params, BaseUrl(params["url"].s, params["apiVersion"].s, params["apiKey"].s, params["siteId"].s)))
  }

  /** The file names directly in the `Badgeville` source directory, which
      `__call` probes for. */
  const SourceFiles: set<string> := {"Client", "PlayerActivities", "Players", "ResourceAbstract", "ResourceInterface", "Site", "Sites"}

  /** `PlayerActivities::__construct` refuses anything but a `Client`,
      and a site is not one. */
  const InvalidClient: Error := Thrown("invalid client")

  /** `__call($name, $params)` as written: a name with no source file is
      rejected; `PlayerActivities` throws from its constructor; a legacy
      resource class is created with the site as its parent and the
      first argument, or null, as id. No site is injected. Files that
      are not resources are not modelled. */
  function Call(s: Site, name: string, args: seq<Value>): (r: Result<LNode, Error>)
    ensures UcFirst(name) !in SourceFiles ==> r == Failure(BadMethodCall(name))
    ensures UcFirst(name) == "PlayerActivities" ==> r == Failure(InvalidClient)
    ensures r.Success? <==> UcFirst(name) in SourceFiles && ["Badgeville", UcFirst(name)] in LegacyClasses
    ensures r.Success? ==> && r.value.cls == ["Badgeville", UcFirst(name)]
                           && r.value.parent == SiteRoot
                           && LId(r.value) == (if |args| > 0 then args[0] else Null)
                           && !r.value.siteSet
  {
    var short := UcFirst(name);
    if short !in SourceFiles then Failure(BadMethodCall(name))
    else if short == "PlayerActivities" then Failure(InvalidClient)
    else if ["Badgeville", short] !in LegacyClasses then Failure(Unmodelled)
    else Success(LNew(["Badgeville", short], SiteRoot, if |args| > 0 then args[0] else Null))
  }

  /** `__call` as its comment intends ("always inject site into
      resource"): the same node, with the site set. */
  function CallInjecting(s: Site, name: string, args: seq<Value>): (r: Result<LNode, Error>)
    ensures r.Success? <==> Call(s, name, args).Success?
    ensures r.Failure? ==> r == Call(s, name, args)
    ensures r.Success? ==> r.value.siteSet && r.value == Call(s, name, args).value.(siteSet := true)
  {
    var n :- Call(s, name, args);
    Success(SetSite(n))
  }

  /** `getRequest($uri, $params)`: a non-string uri is rejected before
      any request; otherwise one leading `/` is dropped, the request is
      sent, and an error envelope becomes an exception. */
  function GetRequest(s: Site, uri: Value, params: Query, client: Client): (r: Result<Body, Error>)
    ensures !uri.Str? ==> r.Failure? && r.error.InvalidArgument?
    ensures uri.Str? ==>
              var reply := client(StripSlash(uri.s), params);
              && (reply.None? ==> r == Failure(RequestFailed))
              && (reply.Some? && Truthy(Get(reply.value, "errors")) ==> r == Failure(Envelope(reply.value).value))
              && (r.Success? <==> reply.Some? && Empty(Get(reply.value, "errors")))
              && (r.Success? ==> r.value == reply.value)
  {
    if !uri.Str? then Failure(InvalidArgument("Invalid uri " + ToStr(uri) + " submitted."))
    else Send(client, Req(uri.s, params))
  }
}
