/** The table-driven `create` and `update` that Players, Teams and
    Activities share: filter the fields through a property table, guard
    the required ones, send the action, then clone or update the
    receiver with `response[kind][0]`. */
module Tabled {
  import opened Wrappers
  import opened Php
  import opened Transport
  import opened Shaping
  import R = Resource

  /** The required-field guard of the older `create`s, as written: it
      looks for a `'required' => true` entry, which no table has. */
  function GuardAsWritten(data: Attrs, table: Table, key: string): (r: Result<Attrs, Error>)
    ensures ListStyle(table) ==> r == Success(data)
    ensures r.Success? ==> r.value == data
  {
    if MissingRequiredAsWritten(data, table) then Failure(RequiredField(key)) else Success(data)
  }

  /** The guard as evidently intended: a field whose rule lists
      'required' must be non-empty after filtering. `key` is the one
      such field of the table. */
  function Guard(data: Attrs, table: Table, key: string): (r: Result<Attrs, Error>)
    requires key in table && table[key].listsRequired
    requires forall k :: k in table && table[k].listsRequired ==> k == key
    ensures r.Failure? <==> Empty(Get(data, key))
    ensures r.Failure? ==> r.error == RequiredField(key)
    ensures r.Success? ==> r.value == data && !MissingRequired(data, table)
  {
    if MissingRequired(data, table) then Failure(RequiredField(key)) else Success(data)
  }

  /** `do=create` sent to the collection path: the path carries no id. */
  function CreateRequest(n: R.Node, payload: Attrs): (r: Req)
    ensures r.path == R.UriBuilder(n)
    ensures r.query.Keys == {"do", "data"} && r.query["do"] == Str("create") && r.query["data"] == Assoc(payload)
  {
    Req(R.UriBuilder(n), Action("create", payload))
  }

  /** The attributes `update($obj)` reads: the argument's when it is an
      instance of the receiver's class, else the receiver's own. */
  function Source(n: R.Node, obj: Option<R.Node>): (d: Attrs)
    ensures obj.Some? && obj.value.cls == n.cls ==> d == obj.value.data
    ensures obj.None? || obj.value.cls != n.cls ==> d == n.data
  {
    if obj.Some? && obj.value.cls == n.cls then obj.value.data else n.data
  }

  /** The fields `update` sends: null values dropped, then filtered. */
  function UpdateData(n: R.Node, obj: Option<R.Node>, table: Table, f: Sanitizer): (r: Attrs)
    ensures forall k :: k in r <==> k in table && k in Source(n, obj) && Source(n, obj)[k] != Null
    ensures forall k :: k in r ==> r[k] == f(table[k].filter, Source(n, obj)[k])
  {
    FilterVarArray(DropNulls(Source(n, obj)), table, f)
  }

  /** `do=update` sent to the receiver's own path. */
  function UpdateRequest(n: R.Node, payload: Attrs): (r: Req)
    ensures r.path == R.ItemPath(n)
    ensures r.query.Keys == {"do", "data"} && r.query["do"] == Str("update") && r.query["data"] == Assoc(payload)
  {
    Req(R.ItemPath(n), Action("update", payload))
  }

  /** The common tail of `update`: with no argument of the receiver's
      class the receiver takes `response[kind][0]` and is returned; with
      one, a copy takes it and the receiver keeps its data. */
  function Updated(n: R.Node, obj: Option<R.Node>, req: Req, client: Client): (r: Result<R.Outcome, Error>)
    ensures R.WellFormed(n) ==>
              var sent := Send(client, req);
              && (sent.Failure? ==> r == Failure(sent.error))
              && (sent.Success? ==> (r.Success? <==> R.Adopt(n, sent.value, n.kind).Success?))
              && (sent.Success? && r.Success? ==> r.value.result == R.Adopt(n, sent.value, n.kind).value)
    ensures r.Success? ==> r.value.result == R.SetData(n, r.value.result.data)
    ensures r.Success? && (obj.None? || obj.value.cls != n.cls) ==> r.value.receiver == r.value.result
    ensures r.Success? && obj.Some? && obj.value.cls == n.cls ==> r.value.receiver == n
  {
    var m :- R.Exchange(n, req, n.kind, client);
    if obj.Some? && obj.value.cls == n.cls then Success(R.Outcome(m, n)) else Success(R.Outcome(m, m))
  }

  /** The common tail of join, leave and history updates: the receiver
      itself takes `response[kind][0]`. */
  function Mutated(n: R.Node, req: Req, client: Client): (r: Result<R.Outcome, Error>)
    ensures R.WellFormed(n) ==>
              var sent := Send(client, req);
              && (sent.Failure? ==> r == Failure(sent.error))
              && (sent.Success? ==> (r.Success? <==> R.Adopt(n, sent.value, n.kind).Success?))
              && (sent.Success? && r.Success? ==> r.value.result == R.Adopt(n, sent.value, n.kind).value)
    ensures r.Success? ==> r.value.receiver == r.value.result && r.value.result == R.SetData(n, r.value.result.data)
  {
    var m :- R.Exchange(n, req, n.kind, client);
    Success(R.Outcome(m, m))
  }
}
