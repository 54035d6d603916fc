/** `Badgeville\Api\Cairo\Sites\Teams`: team creation and update. */
module Teams {
  import opened Wrappers
  import opened Php
  import opened Transport
  import opened Shaping
  import R = Resource
  import Tabled

  /** The property table of `create`: 'required' is a list element of
      the display_name rule. */
  const CreateRules: Table := map[
    "display_name" := Required("sanitize_string"),
    "name" := Plain("sanitize_string"),
    "active" := Plain("validate_boolean_or_null"),
    "display_priority" := Plain("sanitize_number_int")]

  /** The property table of `update`: the same fields, none required. */
  const UpdateRules: Table := map[
    "display_name" := Plain("sanitize_string"),
    "name" := Plain("sanitize_string"),
    "active" := Plain("validate_boolean_or_null"),
    "display_priority" := Plain("sanitize_number_int")]

  lemma DisplayNameIsTheOnlyRequiredField()
    ensures "display_name" in CreateRules && CreateRules["display_name"].listsRequired
    ensures forall k :: k in CreateRules && CreateRules[k].listsRequired ==> k == "display_name"
    ensures ListStyle(CreateRules)
  {
  }

  /** The payload of `create($params)` as written: only table keys are
      kept, and the guard lets a missing display name through. */
  function CreatePayload(params: Attrs, f: Sanitizer): (r: Result<Attrs, Error>)
    ensures r.Success?
    ensures r.value.Keys == params.Keys * CreateRules.Keys
    ensures forall k :: k in r.value ==> r.value[k] == f(CreateRules[k].filter, params[k])
  {
    Tabled.GuardAsWritten(FilterVarArray(params, CreateRules, f), CreateRules, "display_name")
  }

  /** `create($params)` as written: sends `do=create` to the collection
      path and returns a copy of the receiver holding
      `response['teams'][0]`. */
  function Create(n: R.Node, params: Attrs, f: Sanitizer, client: Client): (r: Result<R.Node, Error>)
    ensures R.WellFormed(n) ==>
              var sent := Send(client, Tabled.CreateRequest(n, CreatePayload(params, f).value));
              && (sent.Failure? ==> r == Failure(sent.error))
              && (sent.Success? ==> r == R.Adopt(n, sent.value, n.kind))
    ensures r.Success? ==> r.value == R.SetData(n, r.value.data)
  {
    R.Exchange(n, Tabled.CreateRequest(n, CreatePayload(params, f).value), n.kind, client)
  }

  /** The payload with the guard working: an empty display name after
      filtering is rejected before any request. */
  function CreatePayloadGuarded(params: Attrs, f: Sanitizer): (r: Result<Attrs, Error>)
    ensures r.Failure? <==> "display_name" !in params || Empty(f("sanitize_string", params["display_name"]))
    ensures r.Failure? ==> r.error == RequiredField("display_name")
    ensures r.Success? ==> r == CreatePayload(params, f)
  {
    DisplayNameIsTheOnlyRequiredField();
    Tabled.Guard(FilterVarArray(params, CreateRules, f), CreateRules, "display_name")
  }

  /** `create` with the guard working. */
  function CreateGuarded(n: R.Node, params: Attrs, f: Sanitizer, client: Client): (r: Result<R.Node, Error>)
    ensures CreatePayloadGuarded(params, f).Failure? ==> r == Failure(RequiredField("display_name"))
    ensures CreatePayloadGuarded(params, f).Success? ==> r == Create(n, params, f, client)
  {
    var payload :- CreatePayloadGuarded(params, f);
    R.Exchange(n, Tabled.CreateRequest(n, payload), n.kind, client)
  }

  /** A team with no display name: the source sends it, the guarded
      version refuses. */
  lemma CreateWithoutDisplayName(n: R.Node, f: Sanitizer, client: Client)
    ensures CreatePayload(map["name" := Str("red")], f).Success?
    ensures CreateGuarded(n, map["name" := Str("red")], f, client) == Failure(RequiredField("display_name"))
  {
  }

  /** The request of `update($obj)`: null fields dropped, then filtered. */
  function UpdateRequest(n: R.Node, obj: Option<R.Node>, f: Sanitizer): (r: Req)
    ensures r.path == R.ItemPath(n)
    ensures r.query.Keys == {"do", "data"} && r.query["do"] == Str("update")
    ensures r.query["data"].Assoc?
    ensures forall k :: k in r.query["data"].fields <==>
              k in UpdateRules && k in Tabled.Source(n, obj) && Tabled.Source(n, obj)[k] != Null
    ensures forall k :: k in r.query["data"].fields ==>
              r.query["data"].fields[k] == f(UpdateRules[k].filter, Tabled.Source(n, obj)[k])
  {
    Tabled.UpdateRequest(n, Tabled.UpdateData(n, obj, UpdateRules, f))
  }

  /** `update($obj)` as written. Without a team argument the receiver
      takes `response['teams'][0]`. With one, the copy is given
      `setData()` with no argument: the response is never read and the
      returned team has no attributes (PHP 5 stores null there with a
      warning; every attribute then reads as null, as it does here). */
  function Update(n: R.Node, obj: Option<R.Node>, f: Sanitizer, client: Client): (r: Result<R.Outcome, Error>)
    ensures (obj.None? || obj.value.cls != n.cls) && R.WellFormed(n) ==>
              var sent := Send(client, UpdateRequest(n, obj, f));
              && (sent.Failure? ==> r == Failure(sent.error))
              && (sent.Success? ==> (r.Success? <==> R.Adopt(n, sent.value, n.kind).Success?))
              && (sent.Success? && r.Success? ==> r.value.result == R.Adopt(n, sent.value, n.kind).value)
    ensures r.Success? && (obj.None? || obj.value.cls != n.cls) ==> r.value.receiver == r.value.result
    ensures obj.Some? && obj.value.cls == n.cls && R.WellFormed(n) ==>
              var sent := Send(client, UpdateRequest(n, obj, f));
              && (r.Success? <==> sent.Success?)
              && (sent.Failure? ==> r == Failure(sent.error))
    ensures r.Success? && obj.Some? && obj.value.cls == n.cls ==>
              r.value.receiver == n && r.value.result == R.SetData(n, map[])
  {
    if obj.Some? && obj.value.cls == n.cls then
      var _ :- R.GetSite(n);
      var _ :- Send(client, UpdateRequest(n, obj, f));
      Success(R.Outcome(R.SetData(n, map[]), n))
    else
      Tabled.Updated(n, obj, UpdateRequest(n, obj, f), client)
  }

  /** `update` as evidently intended: the copy takes the response, as
      the player resources do. */
  function UpdateCorrected(n: R.Node, obj: Option<R.Node>, f: Sanitizer, client: Client): (r: Result<R.Outcome, Error>)
    ensures R.WellFormed(n) ==>
              var sent := Send(client, UpdateRequest(n, obj, f));
              && (sent.Failure? ==> r == Failure(sent.error))
              && (sent.Success? ==> (r.Success? <==> R.Adopt(n, sent.value, n.kind).Success?))
              && (sent.Success? && r.Success? ==> r.value.result == R.Adopt(n, sent.value, n.kind).value)
    ensures r.Success? && (obj.None? || obj.value.cls != n.cls) ==> r.value.receiver == r.value.result
    ensures r.Success? && obj.Some? && obj.value.cls == n.cls ==> r.value.receiver == n
    ensures obj.None? || obj.value.cls != n.cls ==> r == Update(n, obj, f, client)
  {
    Tabled.Updated(n, obj, UpdateRequest(n, obj, f), client)
  }

  /** A site with one team, a copy of that team passed to `update`, and
      a server answering with the updated team. */
  const Site: R.Node := R.Node(R.RootClass, "sites", map["id" := Str("s1")], None)
  const Team: R.Node := R.Node(["Sites", "Teams"], "teams", map["id" := Str("t1")], Some(Site))
  const Reply: Body := map["teams" := List([Assoc(map["id" := Str("t1"), "name" := Str("red")])])]

  /** The source's `update($team)` drops the server's answer; the
      corrected one returns it. */
  lemma UpdateDropsResponse()
    ensures Update(Team, Some(Team), (k, v) => v, (p, q) => Some(Reply)).Success?
    ensures R.Attr(Update(Team, Some(Team), (k, v) => v, (p, q) => Some(Reply)).value.result, "name") == Null
    ensures R.Attr(UpdateCorrected(Team, Some(Team), (k, v) => v, (p, q) => Some(Reply)).value.result, "name") == Str("red")
  {
    var c: Client := (p, q) => Some(Reply);
    var f: Sanitizer := (k, v) => v;
    assert R.WellFormed(Team) by {
      assert R.Lineage(Team) == [Site, Team];
    }
    assert Envelope(Reply).None?;
    assert R.Unwrap(Reply, "teams") == Success(map["id" := Str("t1"), "name" := Str("red")]);
  }
}
