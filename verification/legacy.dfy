/** The original, namespace-driven `Badgeville\ResourceAbstract`. A
    resource's uri is read off its own class name: every namespace
    segment after the first becomes a lower-cased path segment, followed
    by the id of the nearest ancestor whose class name ends with that
    segment. The site reference is injected by `setSite` and copied to
    every child. */
module Legacy {
  import opened Wrappers
  import opened Php
  import opened Transport
  import R = Resource

  /** What a legacy resource hangs from: nothing, the `Site` root, or
      another resource. */
  datatype Parent = Orphan | SiteRoot | Parent(node: LNode)

  /** `cls` is the fully qualified class name split at `\`, such as
      `["Badgeville", "Players"]`; `siteSet` records whether a site has
      been injected. */
  datatype LNode = LNode(cls: seq<string>, data: Attrs, parent: Parent, siteSet: bool)

  const SiteClass: seq<string> := ["Badgeville", "Site"]

  /** The class `get_class(null)` names inside the base class under PHP 5. */
  const AbstractClass: seq<string> := ["Badgeville", "ResourceAbstract"]

  /** Legacy resource classes of the repository: the two files of this
      namespace that take a parent, and the nested classes its tests
      instantiate. */
  const LegacyClasses: set<seq<string>> := {
    ["Badgeville", "Players"],
    ["Badgeville", "Sites"],
    ["Badgeville", "Players", "Activities"],
    ["Badgeville", "Players", "Activities", "Behaviors"]}

  function ClassName(cls: seq<string>): string {
    Join(cls, "\\")
  }

  /** `$instance->id` through the magic getter: null when absent. */
  function LId(n: LNode): Value {
    Get(n.data, "id")
  }

  /** `__construct($parent, $id)`: no validation at all; the id goes into
      the attribute array and no site is set yet. */
  function LNew(cls: seq<string>, parent: Parent, id: Value): (r: LNode)
    ensures r.cls == cls && r.parent == parent && !r.siteSet
    ensures r.data.Keys == {"id"} && LId(r) == id
  {
    LNode(cls, map["id" := id], parent, false)
  }

  /** `setSite($site)`. */
  function SetSite(n: LNode): (r: LNode)
    ensures r.siteSet && r.cls == n.cls && r.data == n.data && r.parent == n.parent
  {
    n.(siteSet := true)
  }

  /** `__call($name, $params)`: the child class is the receiver's class
      plus the capitalised name; its id is the first argument, or the
      empty argument array itself when there is none, and it inherits
      the receiver's site. A class that does not exist is fatal. */
  function LCall(n: LNode, name: string, args: seq<Value>, classes: set<seq<string>>): (r: Result<LNode, Error>)
    ensures r.Success? <==> n.cls + [UcFirst(name)] in classes
    ensures r.Failure? ==> r.error.Fatal?
    ensures r.Success? ==> && r.value.cls == n.cls + [UcFirst(name)]
                           && r.value.parent == Parent(n)
                           && r.value.siteSet == n.siteSet
                           && r.value.data.Keys == {"id"}
                           && LId(r.value) == (if |args| > 0 then args[0] else List([]))
  {
    var cls := n.cls + [UcFirst(name)];
    if cls !in classes then Failure(Fatal("Class not found"))
    else Success(LNew(cls, Parent(n), if |args| > 0 then args[0] else List([])).(siteSet := n.siteSet))
  }

  /** The resources above a parent link, nearest first. */
  function Ancestors(p: Parent): (a: seq<LNode>)
    ensures p.Parent? ==> |a| > 0 && a[0] == p.node
  {
    match p
    case Parent(n) => [n] + Ancestors(n.parent)
    case _ => []
  }

  /** Where a chain of parent links ends: the site or nothing. */
  function Terminal(p: Parent): (t: Parent)
    ensures !t.Parent?
  {
    match p
    case Parent(n) => Terminal(n.parent)
    case _ => p
  }

  /** A class "is" a segment when its full name ends with it. */
  predicate Named(cls: seq<string>, part: string) {
    Suffix(ClassName(cls), |part|) == part
  }

  /** `getIdOfParent($part)`: walks up from the parent and returns the id
      of the first resource whose class name ends with `part`. The site
      is compared too (it has no id, so a match yields null); past it the
      answer is `false`. A chain without a site ends in a call on null. */
  function IdOfParent(p: Parent, part: string): Result<Value, Error> {
    match p
    case Orphan =>
      if Named(AbstractClass, part) then Success(Null)
      else Failure(Fatal("Call to a member function getParent() on a non-object"))
    case SiteRoot => Success(if Named(SiteClass, part) then Null else Bool(false))
    case Parent(n) => if Named(n.cls, part) then Success(LId(n)) else IdOfParent(n.parent, part)
  }

  /** The walk returns the id of the nearest ancestor named `part`. */
  lemma {:induction false} FirstMatchWins(p: Parent, part: string, i: nat)
    requires i < |Ancestors(p)| && Named(Ancestors(p)[i].cls, part)
    requires forall j :: 0 <= j < i ==> !Named(Ancestors(p)[j].cls, part)
    ensures IdOfParent(p, part) == Success(LId(Ancestors(p)[i]))
  {
    var n := p.node;
    if i > 0 {
      assert !Named(Ancestors(p)[0].cls, part);
      forall j | 0 <= j < i - 1
        ensures !Named(Ancestors(n.parent)[j].cls, part)
      {
        assert Ancestors(n.parent)[j] == Ancestors(p)[j + 1];
      }
      assert Ancestors(n.parent)[i - 1] == Ancestors(p)[i];
      FirstMatchWins(n.parent, part, i - 1);
    }
  }

  /** With no ancestor named `part`, the end of the chain decides: below
      the site the answer is false (or null should the site's own class
      name end with `part`); without a site the walk calls a method on
      null. */
  lemma {:induction false} NoMatchFallsThrough(p: Parent, part: string)
    requires forall j :: 0 <= j < |Ancestors(p)| ==> !Named(Ancestors(p)[j].cls, part)
    ensures Terminal(p).SiteRoot? ==> IdOfParent(p, part) == Success(if Named(SiteClass, part) then Null else Bool(false))
    ensures Terminal(p).Orphan? && !Named(AbstractClass, part) ==> IdOfParent(p, part).Failure?
  {
    match p
    case Orphan =>
    case SiteRoot =>
    case Parent(n) =>
      assert !Named(Ancestors(p)[0].cls, part);
      forall j | 0 <= j < |Ancestors(n.parent)|
        ensures !Named(Ancestors(n.parent)[j].cls, part)
      {
        assert Ancestors(n.parent)[j] == Ancestors(p)[j + 1];
      }
      NoMatchFallsThrough(n.parent, part);
  }

  /** Below a site every segment resolves. */
  lemma {:induction false} RootedResolves(p: Parent, part: string)
    requires Terminal(p).SiteRoot?
    ensures IdOfParent(p, part).Success?
  {
    match p
    case SiteRoot =>
    case Parent(n) =>
      if !Named(n.cls, part) {
        RootedResolves(n.parent, part);
      }
  }

  lemma RootedPartsResolve(p: Parent, parts: seq<string>)
    ensures Terminal(p).SiteRoot? ==> UriParts(p, parts).Success?
  {
    if Terminal(p).SiteRoot? {
      forall i | 0 <= i < |parts| {
        RootedResolves(p, parts[i]);
      }
    }
  }

  /** One segment of the path: the lower-cased name and a `/`, then the
      resolved id and a `/` unless the lookup answered false. */
  function Segment(part: string, id: Value): (s: string)
    ensures |s| > |part| && s[|s| - 1] == '/'
    ensures s[..|part| + 1] == Lower(part) + "/"
    ensures id == Bool(false) <==> |s| == |part| + 1
  {
    var head := Lower(part) + "/";
    var tail := if id == Bool(false) then "" else ToStr(id) + "/";
    assert (head + tail)[..|part| + 1] == head;
    head + tail
  }

  /** The path for the namespace segments `parts`, one `Segment` each. */
  function UriParts(p: Parent, parts: seq<string>): (r: Result<string, Error>)
    ensures r.Success? <==> forall i :: 0 <= i < |parts| ==> IdOfParent(p, parts[i]).Success?
    ensures r.Success? && |parts| > 0 ==> |r.value| > 0 && r.value[|r.value| - 1] == '/'
  {
    if |parts| == 0 then Success("")
    else
      match IdOfParent(p, parts[0])
      case Failure(e) => Failure(e)
      case Success(id) =>
        match UriParts(p, parts[1..])
        case Failure(e) =>
          assert forall i :: 1 <= i < |parts| ==> parts[i] == parts[1..][i - 1];
          Failure(e)
        case Success(rest) =>
          assert forall i :: 0 <= i < |parts| - 1 ==> parts[1..][i] == parts[i + 1];
          Success(Segment(parts[0], id) + rest)
  }

  /** `uriBuilder(get_called_class())`: the first namespace segment is
      dropped. */
  function LUri(n: LNode): (r: Result<string, Error>)
    ensures |n.cls| > 1 && r.Success? ==> |r.value| > 0 && r.value[|r.value| - 1] == '/'
    ensures Terminal(n.parent).SiteRoot? ==> r.Success?
  {
    RootedPartsResolve(n.parent, if |n.cls| == 0 then [] else n.cls[1..]);
    UriParts(n.parent, if |n.cls| == 0 then [] else n.cls[1..])
  }

  /** `strtolower(substr($class, strrpos($class, '\\') + 1))`: the short
      class name, lower-cased. */
  function IndexName(cls: seq<string>): (r: string)
    ensures |cls| > 1 ==> r == Lower(cls[|cls| - 1])
  {
    if |cls| > 1 then Lower(cls[|cls| - 1])
    else
      var name := ClassName(cls);
      if |name| == 0 then "" else Lower(name[1..])
  }

  /** The failure of `$this->getSite()->getRequest(...)` with no site. */
  const NoSite: Error := Fatal("Call to a member function getRequest() on a non-object")

  /** `find($id, $params)`: the path is the uri with the id appended, no
      separator added. Without a site nothing is sent; otherwise a copy
      of the receiver takes `response[index][0]`. */
  function LFind(n: LNode, id: Value, params: Query, client: Client): (r: Result<LNode, Error>)
    ensures LUri(n).Failure? ==> r == Failure(LUri(n).error)
    ensures LUri(n).Success? && !n.siteSet ==> r == Failure(NoSite)
    ensures LUri(n).Success? && n.siteSet ==>
              var sent := Send(client, Req(LUri(n).value + ToStr(id), params));
              && (sent.Failure? ==> r == Failure(sent.error))
              && (sent.Success? ==> (r.Success? <==> R.Unwrap(sent.value, IndexName(n.cls)).Success?))
              && (sent.Success? && r.Success? ==> r.value.data == R.Unwrap(sent.value, IndexName(n.cls)).value)
    ensures r.Success? ==> r.value == n.(data := r.value.data)
  {
    var uri :- LUri(n);
    if !n.siteSet then Failure(NoSite)
    else
      var body :- Send(client, Req(uri + ToStr(id), params));
      var d :- R.Unwrap(body, IndexName(n.cls));
      Success(n.(data := d))
  }

  /** `findAll($params)`: the parameters go out unchanged, and every
      record under the index name becomes a copy of the receiver, in
      order. */
  function LFindAll(n: LNode, params: Query, client: Client): (r: Result<seq<LNode>, Error>)
    ensures LUri(n).Failure? ==> r == Failure(LUri(n).error)
    ensures LUri(n).Success? && !n.siteSet ==> r == Failure(NoSite)
    ensures LUri(n).Success? && n.siteSet ==>
              var sent := Send(client, Req(LUri(n).value, params));
              && (sent.Failure? ==> r == Failure(sent.error))
              && (sent.Success? ==> (r.Success? <==> R.Rows(Get(sent.value, IndexName(n.cls))).Success?))
              && (sent.Success? && r.Success? ==>
                    var rows := R.Rows(Get(sent.value, IndexName(n.cls))).value;
                    |r.value| == |rows| && forall i :: 0 <= i < |rows| ==> r.value[i] == n.(data := rows[i]))
  {
    var uri :- LUri(n);
    if !n.siteSet then Failure(NoSite)
    else
      var body :- Send(client, Req(uri, params));
      var rows :- R.Rows(Get(body, IndexName(n.cls)));
      Success(seq(|rows|, i requires 0 <= i < |rows| => n.(data := rows[i])))
  }

  /** `create($params)`: the data travels inline in the uri, with no
      query parameters; a copy of the receiver takes the created record. */
  function LCreate(n: LNode, params: Value, encode: Value -> string, client: Client): (r: Result<LNode, Error>)
    ensures LUri(n).Failure? ==> r == Failure(LUri(n).error)
    ensures LUri(n).Success? && !n.siteSet ==> r == Failure(NoSite)
    ensures LUri(n).Success? && n.siteSet ==>
              var sent := Send(client, Req(LUri(n).value + "?do=create&data=" + encode(params), map[]));
              && (sent.Failure? ==> r == Failure(sent.error))
              && (sent.Success? ==> (r.Success? <==> R.Unwrap(sent.value, IndexName(n.cls)).Success?))
              && (sent.Success? && r.Success? ==> r.value.data == R.Unwrap(sent.value, IndexName(n.cls)).value)
    ensures r.Success? ==> r.value == n.(data := r.value.data)
  {
    var uri :- LUri(n);
    if !n.siteSet then Failure(NoSite)
    else
      var body :- Send(client, Req(uri + "?do=create&data=" + encode(params), map[]));
      var d :- R.Unwrap(body, IndexName(n.cls));
      Success(n.(data := d))
  }

  /** Matching is by string suffix, not by whole segment: a `Players`
      segment picks up the id of a `TopPlayers` ancestor. */
  lemma SuffixNotSegment()
    ensures var top := LNode(["Badgeville", "TopPlayers"], map["id" := Str("x")], SiteRoot, true);
            IdOfParent(Parent(top), "Players") == Success(Str("x"))
  {
    var top := LNode(["Badgeville", "TopPlayers"], map["id" := Str("x")], SiteRoot, true);
    assert ClassName(top.cls) == "Badgeville\\TopPlayers";
    assert Suffix(ClassName(top.cls), 7) == "Players";
  }
}
