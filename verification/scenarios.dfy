/** The repository's test cases stated as lemmas about concrete values: the
    dispatch chains of the Cairo root, the constructor and configuration
    checks, a paged `findAll`, a `find` against a stub server, and the
    legacy uri of a nested resource. */
module Scenarios {
  import opened Wrappers
  import opened Php
  import opened Transport
  import R = Resource
  import C = Collection
  import L = Legacy
  import S = Site
  import Sites

  /** The root the tests build: `new Sites('123asdf')`. */
  const Root: R.Node := R.Node(R.RootClass, "sites", map["id" := Str("123asdf")], None)

  lemma RootIsBuilt()
    ensures R.New(R.RootClass, "sites", Str("123asdf"), None) == Success(Root)
    ensures R.WellFormed(Root)
  {
    assert R.Lineage(Root) == [Root];
  }

  /** An array id is refused, even for the root. */
  lemma ArrayIdRefused()
    ensures R.New(R.RootClass, "sites", Assoc(map["url" := Str("")]), None).Failure?
    ensures R.New(["Sites", "Players"], "players", Str("p1"), None).Failure?
  {
  }

  /** The nodes of `players('123')->activities('456')->behaviors()`. */
  const P123: R.Node := R.Node(["Sites", "Players"], "players", map["id" := Str("123")], Some(Root))
  const A456: R.Node := R.Node(["Sites", "Players", "Activities"], "activities", map["id" := Str("456")], Some(P123))
  const Behaviors: R.Node := R.Node(["Sites", "Players", "Activities", "Behaviors"], "behaviors", map["id" := Null], Some(A456))

  /** Each step of the chain succeeds and hangs the child under its
      receiver. */
  lemma PlayersDispatch()
    ensures R.Call(Root, "players", [Str("123")], R.CairoRegistry) == Success(P123)
  {
    assert UcFirst("players") == "Players";
    assert Root.cls + [UcFirst("players")] == ["Sites", "Players"];
  }

  lemma ActivitiesDispatch()
    ensures R.Call(P123, "activities", [Str("456")], R.CairoRegistry) == Success(A456)
  {
    assert UcFirst("activities") == "Activities";
    assert P123.cls + [UcFirst("activities")] == ["Sites", "Players", "Activities"];
  }

  lemma BehaviorsDispatch()
    ensures R.Call(A456, "behaviors", [], R.CairoRegistry) == Success(Behaviors)
  {
    assert UcFirst("behaviors") == "Behaviors";
    assert A456.cls + [UcFirst("behaviors")] == ["Sites", "Players", "Activities", "Behaviors"];
  }

  /** The uri of a three-level chain below a root, for any ids. */
  lemma {:induction false} ChainUri(rid: string, pid: string, aid: string)
    ensures var root := R.Node(R.RootClass, "sites", map["id" := Str(rid)], None);
            var p := R.Node(["Sites", "Players"], "players", map["id" := Str(pid)], Some(root));
            var a := R.Node(["Sites", "Players", "Activities"], "activities", map["id" := Str(aid)], Some(p));
            var b := R.Node(["Sites", "Players", "Activities", "Behaviors"], "behaviors", map["id" := Null], Some(a));
            R.UriBuilder(b) == "sites" + "/" + rid + "/" + "players" + "/" + pid + "/" + "activities" + "/" + aid + "/" + "behaviors"
  {
    var root := R.Node(R.RootClass, "sites", map["id" := Str(rid)], None);
    var p := R.Node(["Sites", "Players"], "players", map["id" := Str(pid)], Some(root));
    var a := R.Node(["Sites", "Players", "Activities"], "activities", map["id" := Str(aid)], Some(p));
    var b := R.Node(["Sites", "Players", "Activities", "Behaviors"], "behaviors", map["id" := Null], Some(a));
    assert R.Segments(root) == ["sites"];
    assert R.UriBuilder(root) == "sites";
    R.ChildUri(p, root);
    assert ToStr(R.Id(root)) == rid;
    R.ChildUri(a, p);
    assert ToStr(R.Id(p)) == pid;
    R.ChildUri(b, a);
    assert ToStr(R.Id(a)) == aid;
  }

  /** The uri of the innermost node carries both ancestor ids but not
      its own. */
  lemma NestedUri()
    ensures R.UriBuilder(Behaviors)
            == "sites" + "/" + "123asdf" + "/" + "players" + "/" + "123" + "/" + "activities" + "/" + "456" + "/" + "behaviors"
  {
    ChainUri("123asdf", "123", "456");
  }

  /** `players()->activities()` fails: the players node has no id. An
      unknown name fails at any depth. */
  lemma DispatchFailures()
    ensures var p := R.Call(Root, "players", [], R.CairoRegistry);
            && p.Success?
            && R.Call(p.value, "activities", [], R.CairoRegistry).Failure?
            && R.Call(p.value, "activities", [], R.CairoRegistry).error.BadMethodCall?
    ensures R.Call(Root, "invalid", [], R.CairoRegistry).Failure?
  {
    assert UcFirst("players") == "Players";
    assert UcFirst("invalid") == "Invalid";
    assert Root.cls + [UcFirst("players")] == ["Sites", "Players"];
    assert ["Sites", "Players"] in R.CairoRegistry;
    assert Root.cls + [UcFirst("invalid")] == ["Sites", "Invalid"];
    assert ["Sites", "Invalid"] !in R.CairoRegistry;
  }

  /** The lower-cased short class names. */
  lemma LowerNames()
    ensures Lower("Sites") == "sites" && Lower("Players") == "players" && Lower("Teams") == "teams"
    ensures Lower("Activities") == "activities" && Lower("Behaviors") == "behaviors"
  {
    assert LowerChar('S') == 's' && LowerChar('P') == 'p' && LowerChar('T') == 't';
    assert LowerChar('A') == 'a' && LowerChar('B') == 'b';
  }

  /** Every resource name equals the lower-cased short class name, which
      is why `create` can unwrap by either. */
  lemma CairoNamesAreShortNames()
    ensures forall cls :: cls in R.CairoRegistry ==> |cls| > 0 && R.CairoRegistry[cls] == Lower(R.ShortName(cls))
    ensures R.CairoRegistry[R.RootClass] == Sites.ResourceName
  {
    LowerNames();
  }

  lemma ApiNamesAreShortNames()
    ensures forall cls :: cls in R.ApiRegistry ==> |cls| > 0 && R.ApiRegistry[cls] == Lower(R.ShortName(cls))
  {
    LowerNames();
  }

  /** A players node and a server answering with one player. */
  const Players: R.Node := R.Node(["Sites", "Players"], "players", map["id" := Null], Some(Root))
  const Joey: Body := map["players" := List([Assoc(map["id" := Str("p1"), "name" := Str("Joey Rivera")])])]

  /** The same player as one page of a `findAll`, ten to a page. */
  const Page: Body := Joey["_context_info" := Assoc(map["offset" := Int(0), "limit" := Int(10), "count" := Int(1)])]

  /** `findAll()` on that page: one player, and pagination reporting page
      1 of 1 with neither neighbour. */
  lemma OnePlayerPage()
    ensures var r := R.FindAll(Players, map[], (path, q) => Some(Page));
            && r.Success?
            && |r.value.items| == 1
            && R.Attr(r.value.items[0], "name") == Str("Joey Rivera")
            && var pg := C.GetPagination(r.value);
            && pg.offset == 0 && pg.limit == 10 && pg.total == 1
            && pg.page == 1 && pg.pages == 1 && pg.prev.None? && pg.next.None?
  {
    assert R.Lineage(Players) == [Root, Players];
    assert Envelope(Page).None?;
    assert R.Context(Page) == Success((0, 10, 1));
    assert Get(Page, "players") == List([Assoc(map["id" := Str("p1"), "name" := Str("Joey Rivera")])]);
    assert R.Rows(Get(Page, "players")).Success?;
    assert C.FloorDiv(0, 10) == 0 && C.CeilDiv(1, 10) == 1;
  }

  /** `find('p1')` returns a copy holding the player; the receiver is left
      as it was. */
  lemma FindJoey()
    ensures var r := R.Find(Players, Str("p1"), map[], (path, q) => Some(Joey));
            && r.Success?
            && R.Attr(r.value, "name") == Str("Joey Rivera")
            && R.Id(r.value) == Str("p1")
            && R.Id(Players) == Null
  {
    assert R.Lineage(Players) == [Root, Players];
    assert Envelope(Joey).None?;
    assert R.Unwrap(Joey, "players").Success?;
  }

  /** `find()` with no argument on a node without id fails before any
      request, whatever the server would say. */
  lemma FindWithoutId(client: Client)
    ensures R.Find(Players, Null, map[], client).Failure?
    ensures R.Find(Players, Null, map[], client).error.InvalidArgument?
  {
  }

  /** The configuration checks of the tests: a missing key and a set of
      empty values. */
  lemma ConfigRejected()
    ensures S.New(map["test" := Bool(false)]) == Failure(MissingConfig("url"))
    ensures S.New(map["url" := Str(""), "apiVersion" := Str(""), "apiKey" := Str(""), "siteId" := Str("")]).Failure?
    ensures S.New(map["url" := Str(""), "apiVersion" := Str(""), "apiKey" := Str(""), "siteId" := Str("")]).error.InvalidArgument?
  {
    var empty := map["url" := Str(""), "apiVersion" := Str(""), "apiKey" := Str(""), "siteId" := Str("")];
    assert !S.ValidParam(empty, "url");
    assert S.Validate(empty, S.RequiredParams) == Some(S.ParamError(empty, "url"));
  }

  /** A configuration of four truthy strings, the last three made
      only of unreserved characters, builds a site whose base url is the
      plain concatenation. */
  lemma PlainSite(url: string, version: string, key: string, site: string)
    requires Truthy(Str(url)) && Truthy(Str(version)) && Truthy(Str(key)) && Truthy(Str(site))
    requires forall i :: 0 <= i < |version| ==> S.Unreserved(version[i])
    requires forall i :: 0 <= i < |key| ==> S.Unreserved(key[i])
    requires forall i :: 0 <= i < |site| ==> S.Unreserved(site[i])
    ensures var cfg := map["url" := Str(url), "apiVersion" := Str(version), "apiKey" := Str(key), "siteId" := Str(site)];
            && S.New(cfg).Success?
            && S.New(cfg).value.baseUrl == url + "/" + version + "/" + key + "/sites/" + site + "/"
  {
    S.PlainBaseUrl(url, version, key, site);
  }

  /** The test configuration builds a site whose base url is the plain
      concatenation, every value being unreserved. */
  lemma TestSite()
    ensures var cfg := map["url" := Str("http://www.joeyrivera.com"), "apiVersion" := Str("v1"),
                           "apiKey" := Str("123asdf1234asdf"), "siteId" := Str("123asdf")];
            && S.New(cfg).Success?
            && S.New(cfg).value.baseUrl == "http://www.joeyrivera.com" + "/" + "v1" + "/" + "123asdf1234asdf" + "/sites/" + "123asdf" + "/"
  {
    PlainSite("http://www.joeyrivera.com", "v1", "123asdf1234asdf", "123asdf");
  }

  /** A legacy players node with a site, and its activities child. */
  const LPlayer: L.LNode := L.LNode(["Badgeville", "Players"], map["id" := Str("p1")], L.SiteRoot, true)
  const LActivities: L.LNode := L.LNode(["Badgeville", "Players", "Activities"], map["id" := List([])], L.Parent(LPlayer), true)

  lemma LegacyChildCall()
    ensures L.LCall(LPlayer, "activities", [], L.LegacyClasses) == Success(LActivities)
  {
    assert UcFirst("activities") == "Activities";
    assert LPlayer.cls + ["Activities"] == ["Badgeville", "Players", "Activities"];
  }

  /** The suffix tests the uri of the child needs. */
  lemma LegacyNames()
    ensures L.Named(LPlayer.cls, "Players")
    ensures !L.Named(LPlayer.cls, "Activities")
    ensures !L.Named(L.SiteClass, "Activities")
  {
    assert L.ClassName(LPlayer.cls) == "Badgeville" + "\\" + "Players";
    assert L.ClassName(L.SiteClass) == "Badgeville" + "\\" + "Site";
    assert |L.ClassName(LPlayer.cls)| == 18;
    assert |L.ClassName(L.SiteClass)| == 15;
    assert Suffix(L.ClassName(LPlayer.cls), 7) == "Players";
    assert Suffix(L.ClassName(LPlayer.cls), 10)[0] == 'l';
    assert Suffix(L.ClassName(L.SiteClass), 10)[0] == 'v';
  }

  /** One and two namespace segments, for any parent whose lookups succeed. */
  lemma OnePart(p: L.Parent, a: string, ia: Value)
    requires L.IdOfParent(p, a) == Success(ia)
    ensures L.UriParts(p, [a]) == Success(L.Segment(a, ia))
  {
    assert [a][1..] == [];
    assert L.UriParts(p, []) == Success("");
    assert L.Segment(a, ia) + "" == L.Segment(a, ia);
  }

  lemma TwoParts(p: L.Parent, a: string, b: string, ia: Value, ib: Value)
    requires L.IdOfParent(p, a) == Success(ia) && L.IdOfParent(p, b) == Success(ib)
    ensures L.UriParts(p, [a, b]) == Success(L.Segment(a, ia) + L.Segment(b, ib))
  {
    assert [a, b][1..] == [b];
    OnePart(p, b, ib);
  }

  /** A segment with a string id, and one whose lookup answered false. */
  lemma Segments(part: string, v: string)
    ensures L.Segment(part, Str(v)) == Lower(part) + "/" + v + "/"
    ensures L.Segment(part, Bool(false)) == Lower(part) + "/"
  {
  }

  /** The legacy uri of the child: the player's id after the `players`
      segment, nothing after `activities` (no ancestor is named so), and
      a closing `/`. */
  lemma LegacyNestedUri()
    ensures L.LUri(LActivities) == Success((Lower("Players") + "/" + "p1" + "/") + (Lower("Activities") + "/"))
  {
    LegacyNames();
    assert LActivities.cls[1..] == ["Players", "Activities"];
    TwoParts(L.Parent(LPlayer), "Players", "Activities", Str("p1"), Bool(false));
    Segments("Players", "p1");
    assert L.LUri(LActivities) == L.UriParts(L.Parent(LPlayer), ["Players", "Activities"]);
    assert L.UriParts(L.Parent(LPlayer), ["Players", "Activities"])
        == Success(L.Segment("Players", Str("p1")) + L.Segment("Activities", Bool(false)));
    assert L.Segment("Players", Str("p1")) + L.Segment("Activities", Bool(false))
        == (Lower("Players") + "/" + "p1" + "/") + (Lower("Activities") + "/");
  }

  /** The index name of a legacy players node. */
  lemma PlayersIndex()
    ensures Lower("Players") == "players"
  {
    assert LowerChar('P') == 'p';
  }

  /** `$site->players('p1')->find('p1')` as written fails for want of a
      site. */
  lemma LegacyFindWithoutSite()
    ensures var p := S.Call(S.Site(map[], ""), "players", [Str("p1")]);
            && p.Success?
            && L.LFind(p.value, Str("p1"), map[], (path, q) => Some(Joey)) == Failure(L.NoSite)
  {
    assert UcFirst("players") == "Players";
    var p := S.Call(S.Site(map[], ""), "players", [Str("p1")]).value;
    assert p.cls == ["Badgeville", "Players"];
    assert L.LUri(p).Success?;
  }

  /** With the site injected the same request goes out and the player
      comes back. */
  lemma LegacyFindWithSite()
    ensures var q := S.CallInjecting(S.Site(map[], ""), "players", [Str("p1")]);
            && q.Success?
            && L.LFind(q.value, Str("p1"), map[], (path, q) => Some(Joey)).Success?
  {
    assert UcFirst("players") == "Players";
    var q := S.CallInjecting(S.Site(map[], ""), "players", [Str("p1")]).value;
    assert q.cls == ["Badgeville", "Players"];
    assert L.LUri(q).Success?;
    assert Envelope(Joey).None?;
    PlayersIndex();
    assert L.IndexName(q.cls) == "players";
  }
}
