/** `Badgeville\Cairo\Sites\Players`, the older player resource: no
    custom properties, a `create` whose required-email guard never
    fires, and join/leave that both go through `$ids[] = $ids`. The
    property tables are the same as the newer variant's. */
module CairoPlayers {
  import opened Wrappers
  import opened Php
  import opened Transport
  import opened Shaping
  import R = Resource
  import Tabled
  import ApiPlayers

  /** The payload of `create($params)` as written: only table keys are
      kept, and the guard lets a missing email through. */
  function CreatePayload(params: Attrs, f: Sanitizer): (r: Result<Attrs, Error>)
    ensures r.Success?
    ensures r.value.Keys == params.Keys * ApiPlayers.CreateRules.Keys
    ensures forall k :: k in r.value ==> r.value[k] == f(ApiPlayers.CreateRules[k].filter, params[k])
  {
    Tabled.GuardAsWritten(FilterVarArray(params, ApiPlayers.CreateRules, f), ApiPlayers.CreateRules, "email")
  }

  /** `create($params)` as written: sends `do=create` to the collection
      path whatever the email, and returns a copy of the receiver holding
      `response['players'][0]`. */
  function Create(n: R.Node, params: Attrs, f: Sanitizer, client: Client): (r: Result<R.Node, Error>)
    ensures R.WellFormed(n) ==>
              var sent := Send(client, Tabled.CreateRequest(n, CreatePayload(params, f).value));
              && (sent.Failure? ==> r == Failure(sent.error))
              && (sent.Success? ==> r == R.Adopt(n, sent.value, n.kind))
    ensures r.Success? ==> r.value == R.SetData(n, r.value.data)
  {
    R.Exchange(n, Tabled.CreateRequest(n, CreatePayload(params, f).value), n.kind, client)
  }

  /** The payload with the guard working: a missing or invalid email is
      rejected before any request. */
  function CreatePayloadGuarded(params: Attrs, f: Sanitizer): (r: Result<Attrs, Error>)
    ensures r.Failure? <==> "email" !in params || Empty(f("validate_email", params["email"]))
    ensures r.Failure? ==> r.error == RequiredField("email")
    ensures r.Success? ==> r == CreatePayload(params, f)
  {
    ApiPlayers.EmailIsTheOnlyRequiredField();
    Tabled.Guard(FilterVarArray(params, ApiPlayers.CreateRules, f), ApiPlayers.CreateRules, "email")
  }

  /** `create` with the guard working. */
  function CreateGuarded(n: R.Node, params: Attrs, f: Sanitizer, client: Client): (r: Result<R.Node, Error>)
    ensures CreatePayloadGuarded(params, f).Failure? ==> r == Failure(RequiredField("email"))
    ensures CreatePayloadGuarded(params, f).Success? ==> r == Create(n, params, f, client)
  {
    var payload :- CreatePayloadGuarded(params, f);
    R.Exchange(n, Tabled.CreateRequest(n, payload), n.kind, client)
  }

  /** With no email at all, the source still sends the request; the
      guarded version refuses. */
  lemma CreateWithoutEmail(n: R.Node, f: Sanitizer, client: Client)
    ensures CreatePayload(map["name" := Str("Joey")], f).Success?
    ensures "email" !in CreatePayload(map["name" := Str("Joey")], f).value
    ensures CreateGuarded(n, map["name" := Str("Joey")], f, client) == Failure(RequiredField("email"))
  {
  }

  /** The request of `update($obj)`: null fields dropped, then filtered;
      no custom block. */
  function UpdateRequest(n: R.Node, obj: Option<R.Node>, f: Sanitizer): (r: Req)
    ensures r.path == R.ItemPath(n)
    ensures r.query.Keys == {"do", "data"} && r.query["do"] == Str("update")
    ensures r.query["data"].Assoc?
    ensures forall k :: k in r.query["data"].fields <==>
              k in ApiPlayers.UpdateRules && k in Tabled.Source(n, obj) && Tabled.Source(n, obj)[k] != Null
    ensures forall k :: k in r.query["data"].fields ==>
              r.query["data"].fields[k] == f(ApiPlayers.UpdateRules[k].filter, Tabled.Source(n, obj)[k])
  {
    Tabled.UpdateRequest(n, Tabled.UpdateData(n, obj, ApiPlayers.UpdateRules, f))
  }

  /** `update($obj)`: with no player argument the receiver takes the
      response; with one, a copy does and the receiver is unchanged. */
  function Update(n: R.Node, obj: Option<R.Node>, f: Sanitizer, client: Client): (r: Result<R.Outcome, Error>)
    ensures R.WellFormed(n) ==>
              var sent := Send(client, UpdateRequest(n, obj, f));
              && (sent.Failure? ==> r == Failure(sent.error))
              && (sent.Success? ==> (r.Success? <==> R.Adopt(n, sent.value, n.kind).Success?))
              && (sent.Success? && r.Success? ==> r.value.result == R.Adopt(n, sent.value, n.kind).value)
    ensures r.Success? && (obj.None? || obj.value.cls != n.cls) ==> r.value.receiver == r.value.result
    ensures r.Success? && obj.Some? && obj.value.cls == n.cls ==> r.value.receiver == n
  {
    Tabled.Updated(n, obj, UpdateRequest(n, obj, f), client)
  }

  /** `joinTeams($ids)` as written: a non-array goes through
      `$ids[] = $ids` before the request; the receiver takes the
      response. */
  function JoinTeams(n: R.Node, ids: Value, client: Client): (r: Result<R.Outcome, Error>)
    ensures AppendSelf(ids).Failure? ==> r == Failure(AppendSelf(ids).error)
    ensures AppendSelf(ids).Success? && R.WellFormed(n) ==>
              var sent := Send(client, Req(R.ItemPath(n), Action("join", TeamsPayload(AppendSelf(ids).value))));
              && (sent.Failure? ==> r == Failure(sent.error))
              && (sent.Success? ==> (r.Success? <==> R.Adopt(n, sent.value, n.kind).Success?))
              && (sent.Success? && r.Success? ==> r.value.result == R.Adopt(n, sent.value, n.kind).value)
    ensures r.Success? ==> r.value.receiver == r.value.result && r.value.result == R.SetData(n, r.value.result.data)
  {
    var list :- AppendSelf(ids);
    Tabled.Mutated(n, Req(R.ItemPath(n), Action("join", TeamsPayload(list))), client)
  }

  /** `leaveTeams($ids)` as written: the same shape with `do=leave`. */
  function LeaveTeams(n: R.Node, ids: Value, client: Client): (r: Result<R.Outcome, Error>)
    ensures AppendSelf(ids).Failure? ==> r == Failure(AppendSelf(ids).error)
    ensures AppendSelf(ids).Success? && R.WellFormed(n) ==>
              var sent := Send(client, Req(R.ItemPath(n), Action("leave", TeamsPayload(AppendSelf(ids).value))));
              && (sent.Failure? ==> r == Failure(sent.error))
              && (sent.Success? ==> (r.Success? <==> R.Adopt(n, sent.value, n.kind).Success?))
              && (sent.Success? && r.Success? ==> r.value.result == R.Adopt(n, sent.value, n.kind).value)
    ensures r.Success? ==> r.value.receiver == r.value.result && r.value.result == R.SetData(n, r.value.result.data)
  {
    var list :- AppendSelf(ids);
    Tabled.Mutated(n, Req(R.ItemPath(n), Action("leave", TeamsPayload(list))), client)
  }

  /** For an array of ids both agree with the newer variant, whose join
      wraps a single id instead of failing on it. */
  lemma {:induction false} ArrayIdsAgree(n: R.Node, ids: Value, client: Client)
    requires IsArray(ids)
    ensures JoinTeams(n, ids, client) == ApiPlayers.JoinTeams(n, ids, client)
    ensures LeaveTeams(n, ids, client) == ApiPlayers.LeaveTeamsWrapped(n, ids, client)
  {
    assert AppendSelf(ids) == Success(ids);
    assert WrapIds(ids) == ids;
  }

  /** A single team id: the source's join fails, the newer variant's
      join sends it as a one-element list. */
  lemma JoinScalarId(n: R.Node, client: Client)
    ensures JoinTeams(n, Str("t1"), client).Failure?
    ensures ApiPlayers.JoinRequest(n, Str("t1")).query["data"] == Assoc(map["teams" := List([Str("t1")])])
  {
  }
}
