/** `Badgeville\Api\Cairo\Sites\Players\Activities`: recording an
    activity for a player and updating its history. */
module Activities {
  import opened Wrappers
  import opened Php
  import opened Transport
  import opened Shaping
  import R = Resource
  import Tabled

  /** The property table of `create`: only the verb, listed as required. */
  const CreateRules: Table := map["verb" := Required("sanitize_string")]

  /** The history type `updateHistory` uses when none is given. */
  const DefaultHistoryType := "viewed"

  /** The payload of `create($params)` as written: only the verb is
      kept, and the guard lets a missing verb through. */
  function CreatePayload(params: Attrs, f: Sanitizer): (r: Result<Attrs, Error>)
    ensures r.Success?
    ensures r.value.Keys == params.Keys * {"verb"}
    ensures "verb" in r.value ==> r.value["verb"] == f("sanitize_string", params["verb"])
  {
    Tabled.GuardAsWritten(FilterVarArray(params, CreateRules, f), CreateRules, "verb")
  }

  /** `create($params)` as written: sends `do=create` to the player's
      activities path and returns a copy of the receiver holding
      `response['activities'][0]`. */
  function Create(n: R.Node, params: Attrs, f: Sanitizer, client: Client): (r: Result<R.Node, Error>)
    ensures R.WellFormed(n) ==>
              var sent := Send(client, Tabled.CreateRequest(n, CreatePayload(params, f).value));
              && (sent.Failure? ==> r == Failure(sent.error))
              && (sent.Success? ==> r == R.Adopt(n, sent.value, n.kind))
    ensures r.Success? ==> r.value == R.SetData(n, r.value.data)
  {
    R.Exchange(n, Tabled.CreateRequest(n, CreatePayload(params, f).value), n.kind, client)
  }

  /** The payload with the guard working: an empty verb is rejected. */
  function CreatePayloadGuarded(params: Attrs, f: Sanitizer): (r: Result<Attrs, Error>)
    ensures r.Failure? <==> "verb" !in params || Empty(f("sanitize_string", params["verb"]))
    ensures r.Failure? ==> r.error == RequiredField("verb")
    ensures r.Success? ==> r == CreatePayload(params, f)
  {
    Tabled.Guard(FilterVarArray(params, CreateRules, f), CreateRules, "verb")
  }

  /** `create` with the guard working. */
  function CreateGuarded(n: R.Node, params: Attrs, f: Sanitizer, client: Client): (r: Result<R.Node, Error>)
    ensures CreatePayloadGuarded(params, f).Failure? ==> r == Failure(RequiredField("verb"))
    ensures CreatePayloadGuarded(params, f).Success? ==> r == Create(n, params, f, client)
  {
    var payload :- CreatePayloadGuarded(params, f);
    R.Exchange(n, Tabled.CreateRequest(n, payload), n.kind, client)
  }

  /** An activity with no verb: the source sends an empty payload, the
      guarded version refuses. */
  lemma CreateWithoutVerb(n: R.Node, f: Sanitizer, client: Client)
    ensures CreatePayload(map[], f) == Success(map[])
    ensures CreateGuarded(n, map[], f, client) == Failure(RequiredField("verb"))
  {
  }

  /** The request of `updateHistory($type)`, the clock reading given as
      `timestamp`: `{type: timestamp}` with `do=update_history` on the
      activity's own path. */
  function HistoryRequest(n: R.Node, historyType: string, timestamp: string): (r: Req)
    ensures r.path == R.ItemPath(n)
    ensures r.query.Keys == {"do", "data"} && r.query["do"] == Str("update_history")
    ensures r.query["data"] == Assoc(map[historyType := Str(timestamp)])
  {
    Req(R.ItemPath(n), Action("update_history", map[historyType := Str(timestamp)]))
  }

  /** `updateHistory($type)`: the receiver takes the response. */
  function UpdateHistory(n: R.Node, historyType: string, timestamp: string, client: Client): (r: Result<R.Outcome, Error>)
    ensures R.WellFormed(n) ==>
              var sent := Send(client, HistoryRequest(n, historyType, timestamp));
              && (sent.Failure? ==> r == Failure(sent.error))
              && (sent.Success? ==> (r.Success? <==> R.Adopt(n, sent.value, n.kind).Success?))
              && (sent.Success? && r.Success? ==> r.value.result == R.Adopt(n, sent.value, n.kind).value)
    ensures r.Success? ==> r.value.receiver == r.value.result
  {
    Tabled.Mutated(n, HistoryRequest(n, historyType, timestamp), client)
  }

  /** With no type given, the payload records a view. */
  lemma DefaultIsViewed(n: R.Node, timestamp: string)
    ensures HistoryRequest(n, DefaultHistoryType, timestamp).query["data"] == Assoc(map["viewed" := Str(timestamp)])
  {
  }
}
