/** The resource-node tree shared by both Cairo variants of
    `ResourceAbstract`: a node knows its class, its resource name, its
    attribute array (which also holds its id) and the node that created
    it. The uri of a node is read off its parent chain, children are
    created by name through a registry of the classes that exist, and
    `find`/`findAll`/`create` turn responses into value copies of the
    receiver. */
module Resource {
  import opened Wrappers
  import opened Php
  import opened Transport
  import C = Collection

  /** `cls` is the class path below the variant's namespace (the root is
      `["Sites"]`); `kind` is what `getResourceName()` returns. */
  datatype Node = Node(cls: seq<string>, kind: string, data: Attrs, parent: Option<Node>)

  /** The outcome of an operation that may write its response into the
      receiver: `receiver` is the receiver afterwards, equal to `result`
      when PHP mutated `$this` and returned it. */
  datatype Outcome = Outcome(result: Node, receiver: Node)

  /** The resource classes that exist, by class path, with the resource
      name each declares. It stands for the file-existence probe of
      `__call`. */
  type Registry = map<seq<string>, string>

  const RootClass: seq<string> := ["Sites"]

  /** Classes of the `Badgeville\Api\Cairo` namespace. */
  const ApiRegistry: Registry := map[
    ["Sites"] := "sites",
    ["Sites", "Players"] := "players",
    ["Sites", "Teams"] := "teams",
    ["Sites", "Players", "Activities"] := "activities"]

  /** Classes of the `Badgeville\Cairo` namespace. */
  const CairoRegistry: Registry := map[
    ["Sites"] := "sites",
    ["Sites", "Players"] := "players",
    ["Sites", "Players", "Activities"] := "activities",
    ["Sites", "Players", "Activities", "Behaviors"] := "behaviors"]

  /** `$this->id`: the id is an ordinary attribute. */
  function Id(n: Node): Value {
    Get(n.data, "id")
  }

  /** `__construct($id, $parent)`: only the root class may lack a parent,
      and an id must be null or scalar. The id is written through the
      magic setter, so it lands in the attribute array. */
  function New(cls: seq<string>, kind: string, id: Value, parent: Option<Node>): (r: Result<Node, Error>)
    ensures r.Success? <==> (cls == RootClass || parent.Some?) && (id == Null || IsScalar(id))
    ensures r.Failure? ==> r.error.InvalidArgument?
    ensures r.Success? ==> r.value.cls == cls && r.value.kind == kind && r.value.parent == parent
    ensures r.Success? ==> r.value.data.Keys == {"id"} && Id(r.value) == id
  {
    if cls != RootClass && parent.None? then Failure(InvalidArgument("Unable to call constructor directly"))
    else if id != Null && !IsScalar(id) then Failure(InvalidArgument("Invalid id passed."))
    else Success(Node(cls, kind, map["id" := id], parent))
  }

  /** `__get($key)`: a missing attribute reads as null. */
  function Attr(n: Node, key: string): Value {
    Get(n.data, key)
  }

  /** `__set($key, $value)`: writes one attribute and nothing else. */
  function SetAttr(n: Node, key: string, v: Value): (r: Node)
    ensures Attr(r, key) == v
    ensures forall k :: k != key ==> Attr(r, k) == Attr(n, k)
    ensures r.data.Keys == n.data.Keys + {key}
    ensures r.cls == n.cls && r.kind == n.kind && r.parent == n.parent
  {
    n.(data := n.data[key := v])
  }

  /** `setData($data)`: replaces every attribute, the id included; the
      node keeps its place in the tree. */
  function SetData(n: Node, d: Attrs): (r: Node)
    ensures r.data == d && Id(r) == Get(d, "id")
    ensures r.cls == n.cls && r.kind == n.kind && r.parent == n.parent
  {
    n.(data := d)
  }

  /** The chain of nodes from the top of the parent chain down to `n`. */
  function Lineage(n: Node): (l: seq<Node>)
    ensures |l| >= 1 && l[|l| - 1] == n && l[0].parent.None?
    ensures forall i :: 0 < i < |l| ==> l[i].parent == Some(l[i - 1])
  {
    match n.parent
    case None => [n]
    case Some(p) => Lineage(p) + [n]
  }

  /** What the constructor guarantees of every node it builds: each node
      on the chain that is not a site has a parent. */
  ghost predicate WellFormed(n: Node) {
    forall m :: m in Lineage(n) ==> m.cls == RootClass || m.parent.Some?
  }

  /** `getSite()`: climbs parents until a site. PHP calls `getParent()`
      on null when the chain ends without one; a well-formed node always
      reaches its site. */
  function GetSite(n: Node): (r: Result<Node, Error>)
    ensures r.Success? ==> r.value.cls == RootClass && r.value in Lineage(n)
    ensures r.Failure? ==> r.error.Fatal? && forall m :: m in Lineage(n) ==> m.cls != RootClass
    ensures WellFormed(n) ==> r.Success?
  {
    if n.cls == RootClass then Success(n)
    else match n.parent
      case None => Failure(Fatal("getParent() on null"))
      case Some(p) => GetSite(p)
  }

  /** Kind and id of each ancestor, the top of the chain first. */
  function AncestorPairs(p: Option<Node>): seq<string> {
    match p
    case None => []
    case Some(q) => AncestorPairs(q.parent) + [q.kind, ToStr(Id(q))]
  }

  /** The segments of a node's uri: every ancestor's kind and id, then
      the node's own kind (never its own id). */
  function Segments(n: Node): seq<string> {
    AncestorPairs(n.parent) + [n.kind]
  }

  /** The uri of a node relative to the API base. */
  function UriBuilder(n: Node): string {
    Join(Segments(n), "/")
  }

  /** The segments alternate kind and id along the lineage: position 2i
      is the kind of the i-th node from the top, position 2i+1 the id of
      that node, and the node's own id is absent. */
  lemma {:induction false} SegmentsFollowLineage(n: Node)
    ensures |Segments(n)| == 2 * |Lineage(n)| - 1
    ensures forall i :: 0 <= i < |Lineage(n)| ==> Segments(n)[2 * i] == Lineage(n)[i].kind
    ensures forall i :: 0 <= i < |Lineage(n)| - 1 ==> Segments(n)[2 * i + 1] == ToStr(Id(Lineage(n)[i]))
  {
    match n.parent
    case None =>
    case Some(p) =>
      SegmentsFollowLineage(p);
      assert Segments(n) == Segments(p) + [ToStr(Id(p)), n.kind];
      assert Lineage(n) == Lineage(p) + [n];
  }

  /** A child's uri extends its parent's uri by the parent's id and the
      child's kind. */
  lemma {:induction false} ChildUri(n: Node, p: Node)
    requires n.parent == Some(p)
    ensures UriBuilder(n) == UriBuilder(p) + "/" + ToStr(Id(p)) + "/" + n.kind
  {
    assert Segments(n) == Segments(p) + [ToStr(Id(p))] + [n.kind];
    JoinSnoc(Segments(p), ToStr(Id(p)), "/");
    JoinSnoc(Segments(p) + [ToStr(Id(p))], n.kind, "/");
  }

  /** `uriBuilder()` as the source writes it: collect the node's kind,
      then each ancestor's id and kind while climbing, reverse, implode. */
  method BuildUri(n: Node) returns (uri: string)
    ensures uri == UriBuilder(n)
  {
    var parts := [n.kind];
    var instance := n;
    while instance.parent.Some?
      invariant Segments(n) == AncestorPairs(instance.parent) + Reverse(parts)
      decreases instance
    {
      var p := instance.parent.value;
      var pair := [ToStr(Id(p)), p.kind];
      assert pair[1..] == [p.kind] && pair[1..][1..] == [];
      assert Reverse(pair) == [p.kind, ToStr(Id(p))];
      ReverseAppend(parts, pair);
      parts := parts + [ToStr(Id(p)), p.kind];
      instance := p;
    }
    assert AncestorPairs(instance.parent) == [];
    assert Segments(n) == Reverse(parts);
    uri := Join(Reverse(parts), "/");
  }

  /** `__call($name, $params)`: the child class must exist (checked
      first), the receiver must have a truthy id, and the child gets the
      receiver as parent and the first argument, if any, as id. */
  function Call(n: Node, name: string, args: seq<Value>, reg: Registry): (r: Result<Node, Error>)
    ensures n.cls + [UcFirst(name)] !in reg ==> r.Failure? && r.error.BadMethodCall?
    ensures Empty(Id(n)) ==> r.Failure? && r.error.BadMethodCall?
    ensures r.Success? <==> && n.cls + [UcFirst(name)] in reg && Truthy(Id(n))
                            && (|args| == 0 || args[0] == Null || IsScalar(args[0]))
    ensures r.Success? ==> && r.value.parent == Some(n)
                           && r.value.cls == n.cls + [UcFirst(name)]
                           && r.value.kind == reg[n.cls + [UcFirst(name)]]
                           && Id(r.value) == (if |args| > 0 then args[0] else Null)
  {
    var cls := n.cls + [UcFirst(name)];
    if cls !in reg then Failure(BadMethodCall(name))
    else if Empty(Id(n)) then Failure(BadMethodCall(name))
    else New(cls, reg[cls], if |args| > 0 then args[0] else Null, Some(n))
  }

  /** Children of a well-formed node are well-formed. */
  lemma {:induction false} CallKeepsWellFormed(n: Node, name: string, args: seq<Value>, reg: Registry)
    requires WellFormed(n) && Call(n, name, args, reg).Success?
    ensures WellFormed(Call(n, name, args, reg).value)
  {
    var c := Call(n, name, args, reg).value;
    assert Lineage(c) == Lineage(n) + [c];
  }

  /** The id `find` targets: a non-null argument wins, then a truthy
      stored id; otherwise there is nothing to find. */
  function FindRequest(n: Node, id: Value, params: Query): (r: Result<Req, Error>)
    ensures r.Success? <==> id != Null || Truthy(Id(n))
    ensures r.Failure? ==> r.error.InvalidArgument?
    ensures r.Success? ==> r.value.query == params
    ensures r.Success? && id != Null ==> r.value.path == UriBuilder(n) + "/" + ToStr(id)
    ensures r.Success? && id == Null ==> r.value.path == UriBuilder(n) + "/" + ToStr(Id(n))
  {
    if id != Null then Success(Req(UriBuilder(n) + "/" + ToStr(id), params))
    else if Truthy(Id(n)) then Success(Req(UriBuilder(n) + "/" + ToStr(Id(n)), params))
    else Failure(InvalidArgument("An id is required to call find."))
  }

  /** `$response[$key][0]`, which must be a JSON object. PHP reads the
      first element of a decoded list and the key "0" of a decoded
      object alike. */
  function Unwrap(body: Body, key: string): (r: Result<Attrs, Error>)
    ensures r.Success? <==> At(Get(body, key), 0).Assoc? || Field(Get(body, key), "0").Assoc?
    ensures r.Success? && Get(body, key).List? ==> Assoc(r.value) == At(Get(body, key), 0)
    ensures r.Success? && Get(body, key).Assoc? ==> Assoc(r.value) == Field(Get(body, key), "0")
  {
    var v := Get(body, key);
    var first := if v.List? then At(v, 0) else Field(v, "0");
    if first.Assoc? then Success(first.fields) else Failure(Malformed)
  }

  /** A copy of `n` holding `response[key][0]`. */
  function Adopt(n: Node, body: Body, key: string): (r: Result<Node, Error>)
    ensures r.Success? <==> Unwrap(body, key).Success?
    ensures r.Success? ==> r.value == SetData(n, Unwrap(body, key).value)
  {
    var d :- Unwrap(body, key);
    Success(SetData(n, d))
  }

  /** Sends `req` through the node's site and copies the first record
      under `key` into a copy of `n`. */
  function Exchange(n: Node, req: Req, key: string, client: Client): (r: Result<Node, Error>)
    ensures WellFormed(n) ==>
              var sent := Send(client, req);
              && (sent.Failure? ==> r == Failure(sent.error))
              && (sent.Success? ==> r == Adopt(n, sent.value, key))
    ensures r.Success? ==> r.value == SetData(n, r.value.data)
  {
    var _ :- GetSite(n);
    var body :- Send(client, req);
    Adopt(n, body, key)
  }

  /** The path of the node's own record: its uri, then its own id. */
  function ItemPath(n: Node): string {
    UriBuilder(n) + "/" + ToStr(Id(n))
  }

  /** `find($id, $params)`: without an id it fails before any request;
      otherwise it returns a copy of the receiver holding the first
      record under the node's kind. The receiver is a value and stays as
      it was. */
  function Find(n: Node, id: Value, params: Query, client: Client): (r: Result<Node, Error>)
    ensures FindRequest(n, id, params).Failure? ==> r == Failure(FindRequest(n, id, params).error)
    ensures FindRequest(n, id, params).Success? && WellFormed(n) ==>
              var sent := Send(client, FindRequest(n, id, params).value);
              && (sent.Failure? ==> r == Failure(sent.error))
              && (sent.Success? ==> r == Adopt(n, sent.value, n.kind))
    ensures r.Success? ==> r.value.cls == n.cls && r.value.kind == n.kind && r.value.parent == n.parent
  {
    var req :- FindRequest(n, id, params);
    Exchange(n, req, n.kind, client)
  }

  /** `findAll`'s query: `with_count` forced on, and `offset` 0 and
      `limit` 30 unless the caller gave non-empty values. */
  function FindAllQuery(params: Query): (q: Query)
    ensures q.Keys == params.Keys + {"with_count", "offset", "limit"}
    ensures q["with_count"] == Str("true")
    ensures q["offset"] == (if Truthy(Get(params, "offset")) then params["offset"] else Int(0))
    ensures q["limit"] == (if Truthy(Get(params, "limit")) then params["limit"] else Int(30))
    ensures forall k :: k in params && k != "with_count" && k != "offset" && k != "limit" ==> q[k] == params[k]
  {
    params["with_count" := Str("true")]
          ["offset" := if Truthy(Get(params, "offset")) then params["offset"] else Int(0)]
          ["limit" := if Truthy(Get(params, "limit")) then params["limit"] else Int(30)]
  }

  /** A number in `_context_info`: an integer, or 0 when absent (PHP's
      null in arithmetic and in tests). */
  function Num(v: Value): (r: Result<int, Error>)
    ensures v == Null ==> r == Success(0)
    ensures v.Int? ==> r == Success(v.i)
    ensures r.Success? <==> v == Null || v.Int?
  {
    match v
    case Null => Success(0)
    case Int(i) => Success(i)
    case _ => Failure(Malformed)
  }

  /** `extract($response['_context_info'])`: offset, limit and count.
      Only an object defines variables: a list has no names to extract,
      and a scalar or a missing entry makes `extract` warn and define
      nothing, so all three read as null, that is 0. */
  function Context(body: Body): (r: Result<(int, int, int), Error>)
    ensures !Get(body, "_context_info").Assoc? ==> r == Success((0, 0, 0))
    ensures Get(body, "_context_info").Assoc? ==>
              var m := Get(body, "_context_info").fields;
              (r.Success? <==> Num(Get(m, "offset")).Success? && Num(Get(m, "limit")).Success? && Num(Get(m, "count")).Success?)
    ensures r.Success? && Get(body, "_context_info").Assoc? ==>
              var m := Get(body, "_context_info").fields;
              && Num(Get(m, "offset")) == Success(r.value.0)
              && Num(Get(m, "limit")) == Success(r.value.1)
              && Num(Get(m, "count")) == Success(r.value.2)
  {
    match Get(body, "_context_info")
    case Assoc(m) =>
      var offset :- Num(Get(m, "offset"));
      var limit :- Num(Get(m, "limit"));
      var count :- Num(Get(m, "count"));
      Success((offset, limit, count))
    case _ => Success((0, 0, 0))
  }

  /** The records of a list response; each must be a JSON object. A
      missing list, or a scalar in its place, iterates as nothing (PHP
      warns and skips the loop). */
  function Rows(v: Value): (r: Result<seq<Attrs>, Error>)
    ensures v == Null || IsScalar(v) ==> r == Success([])
    ensures v.List? ==> (r.Success? <==> forall i :: 0 <= i < |v.items| ==> v.items[i].Assoc?)
    ensures v.List? && r.Success? ==> |r.value| == |v.items|
    ensures v.List? && r.Success? ==> forall i :: 0 <= i < |v.items| ==> v.items[i] == Assoc(r.value[i])
    decreases if v.List? then |v.items| else 0
  {
    match v
    case Null => Success([])
    case List(xs) =>
      if |xs| == 0 then Success([])
      else if !xs[0].Assoc? then Failure(Malformed)
      else
        var rest :- Rows(List(xs[1..]));
        Success([xs[0].fields] + rest)
    case Assoc(_) => Failure(Malformed)
    case _ => Success([])
  }

  /** The `foreach` of `findAll`: one copy of `n` per record, appended
      in order. */
  function Fill(c: C.Collection<Node>, n: Node, rows: seq<Attrs>): (r: C.Collection<Node>)
    ensures |r.items| == |c.items| + |rows|
    ensures r.items[..|c.items|] == c.items
    ensures forall i :: 0 <= i < |rows| ==> r.items[|c.items| + i] == SetData(n, rows[i])
    ensures r.position == c.position && r.offset == c.offset && r.limit == c.limit && r.total == c.total
    decreases |rows|
  {
    if |rows| == 0 then c
    else Fill(C.Append(c, SetData(n, rows[0])), n, rows[1..])
  }

  function FindAllRequest(n: Node, params: Query): (r: Req)
    ensures r.path == UriBuilder(n) && r.query == FindAllQuery(params)
  {
    Req(UriBuilder(n), FindAllQuery(params))
  }

  /** `findAll($params)`: requests the node's own uri (no id segment) and
      returns a collection at its start holding the server's paging
      numbers and one copy of the receiver per record, in order. */
  function FindAll(n: Node, params: Query, client: Client): (r: Result<C.Collection<Node>, Error>)
    ensures WellFormed(n) && Send(client, FindAllRequest(n, params)).Failure? ==>
              r == Failure(Send(client, FindAllRequest(n, params)).error)
    ensures WellFormed(n) && Send(client, FindAllRequest(n, params)).Success? ==>
              var body := Send(client, FindAllRequest(n, params)).value;
              (r.Success? <==> Context(body).Success? && Rows(Get(body, n.kind)).Success?)
    ensures r.Success? ==>
              && Send(client, FindAllRequest(n, params)).Success?
              && var body := Send(client, FindAllRequest(n, params)).value;
              && Context(body) == Success((r.value.offset, r.value.limit, r.value.total))
              && Rows(Get(body, n.kind)).Success?
              && var rows := Rows(Get(body, n.kind)).value;
              && r.value.position == 0
              && |r.value.items| == |rows|
              && forall i :: 0 <= i < |rows| ==> r.value.items[i] == SetData(n, rows[i])
  {
    var _ :- GetSite(n);
    var body :- Send(client, FindAllRequest(n, params));
    var ctx :- Context(body);
    var rows :- Rows(Get(body, n.kind));
    Success(Fill(C.Make(ctx.0, ctx.1, ctx.2), n, rows))
  }

  /** The short class name: the last segment of the class path. */
  function ShortName(cls: seq<string>): string {
    if |cls| == 0 then "" else cls[|cls| - 1]
  }

  /** The request of the Cairo variant's `create($params)`: the action
      and the JSON-encoded parameters ride inline in the uri, which has
      no id segment. `encode` stands for `json_encode`. */
  function CreateInlineRequest(n: Node, params: Attrs, encode: Value -> string): (r: Req)
    ensures r.query == map[]
    ensures r.path == UriBuilder(n) + "?do=create&data=" + encode(Assoc(params))
  {
    Req(UriBuilder(n) + "?do=create&data=" + encode(Assoc(params)), map[])
  }

  /** The Cairo variant's `create($params)`: the response is unwrapped
      by the lower-cased short class name, not by the resource name,
      into a copy of the receiver. */
  function CreateInline(n: Node, params: Attrs, encode: Value -> string, client: Client): (r: Result<Node, Error>)
    ensures WellFormed(n) ==>
              var sent := Send(client, CreateInlineRequest(n, params, encode));
              && (sent.Failure? ==> r == Failure(sent.error))
              && (sent.Success? ==> r == Adopt(n, sent.value, Lower(ShortName(n.cls))))
    ensures r.Success? ==> r.value.cls == n.cls && r.value.kind == n.kind && r.value.parent == n.parent
  {
    Exchange(n, CreateInlineRequest(n, params, encode), Lower(ShortName(n.cls)), client)
  }
}
