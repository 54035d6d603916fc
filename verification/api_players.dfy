/** `Badgeville\Api\Cairo\Sites\Players`: player creation with custom
    properties, update, and joining or leaving teams. */
module ApiPlayers {
  import opened Wrappers
  import opened Php
  import opened Transport
  import opened Shaping
  import Tabled
  import R = Resource

  /** The property table of `create`; 'required' is a list element. */
  const CreateRules: Table := map[
    "email" := Required("validate_email"),
    "name" := Plain("sanitize_string"),
    "display_name" := Plain("sanitize_string"),
    "first_name" := Plain("sanitize_string"),
    "last_name" := Plain("sanitize_string"),
    "image" := Plain("validate_url"),
    "admin" := Plain("validate_boolean_or_null")]

  /** The property table of `update`: the same fields without email. */
  const UpdateRules: Table := map[
    "name" := Plain("sanitize_string"),
    "display_name" := Plain("sanitize_string"),
    "first_name" := Plain("sanitize_string"),
    "last_name" := Plain("sanitize_string"),
    "image" := Plain("validate_url"),
    "admin" := Plain("validate_boolean_or_null")]

  lemma EmailIsTheOnlyRequiredField()
    ensures forall k :: k in CreateRules && CreateRules[k].listsRequired ==> k == "email"
    ensures "email" in CreateRules && CreateRules["email"].listsRequired
    ensures "custom" !in CreateRules && "custom" !in UpdateRules
  {
  }

  /** The shapes of `custom` that `$this->data['custom'][$key] = $value`
      turns into a one-entry array under PHP 5: unset, null, false, the
      empty string and the empty array. */
  predicate CustomFresh(v: Value) {
    v.Null? || v == Bool(false) || v == Str("") || v == List([])
  }

  /** `setCustom($key, $value)`: writes one entry of the `custom` array,
      creating the array when it is unset or an empty value. An integer
      or `true` there is left as it was (PHP warns); a non-empty string
      or list is not modelled. */
  function SetCustom(n: R.Node, key: string, v: Value): (r: Result<R.Node, Error>)
    ensures r.Success? <==> !(R.Attr(n, "custom").Str? && R.Attr(n, "custom") != Str(""))
                            && !(R.Attr(n, "custom").List? && R.Attr(n, "custom") != List([]))
    ensures r.Success? ==> r.value.cls == n.cls && r.value.kind == n.kind && r.value.parent == n.parent
    ensures r.Success? ==> forall k :: k != "custom" ==> R.Attr(r.value, k) == R.Attr(n, k)
    ensures R.Attr(n, "custom").Int? || R.Attr(n, "custom") == Bool(true) ==> r == Success(n)
    ensures r.Success? && (R.Attr(n, "custom").Assoc? || CustomFresh(R.Attr(n, "custom"))) ==>
              && Field(R.Attr(r.value, "custom"), key) == v
              && forall j :: j != key ==> Field(R.Attr(r.value, "custom"), j) == Field(R.Attr(n, "custom"), j)
  {
    match R.Attr(n, "custom")
    case Assoc(m) => Success(R.SetAttr(n, "custom", Assoc(m[key := v])))
    case Null => Success(R.SetAttr(n, "custom", Assoc(map[key := v])))
    case Bool(b) => if b then Success(n) else Success(R.SetAttr(n, "custom", Assoc(map[key := v])))
    case Int(_) => Success(n)
    case List(xs) => if |xs| == 0 then Success(R.SetAttr(n, "custom", Assoc(map[key := v]))) else Failure(Unmodelled)
    case Str(s) => if s == "" then Success(R.SetAttr(n, "custom", Assoc(map[key := v]))) else Failure(Unmodelled)
  }

  /** The email rule is the only one listing 'required', so the guard of
      `create` fails exactly when the filtered email is empty. */
  lemma {:induction false} CreateGuard(data: Attrs, f: Sanitizer)
    ensures MissingRequired(FilterVarArray(data, CreateRules, f), CreateRules) <==>
            ("email" !in data || Empty(f("validate_email", data["email"])))
  {
    EmailIsTheOnlyRequiredField();
    var filtered := FilterVarArray(data, CreateRules, f);
    if "email" !in data || Empty(f("validate_email", data["email"])) {
      assert "email" in CreateRules && CreateRules["email"].listsRequired && Empty(Get(filtered, "email"));
    } else {
      assert Get(filtered, "email") == f("validate_email", data["email"]);
    }
  }

  /** `$params` merged over the filtered fields, then the custom block
      set when it has entries; an empty block leaves whatever `custom`
      the merge produced. */
  function WithCustom(filtered: Attrs, params: Attrs, custom: Attrs): (r: Attrs)
    ensures forall k :: k in params && (k != "custom" || custom.Keys == {}) ==> k in r && r[k] == params[k]
    ensures forall k :: k in filtered && k !in params && (k != "custom" || custom.Keys == {}) ==>
              k in r && r[k] == filtered[k]
    ensures forall k :: k in r ==> k in filtered || k in params || (k == "custom" && custom.Keys != {})
    ensures custom.Keys != {} ==> "custom" in r && r["custom"] == Assoc(custom)
  {
    var merged := filtered + params;
    if custom.Keys != {} then merged["custom" := Assoc(custom)] else merged
  }

  /** The payload of `create($data, $params)`: keys outside the table go
      to the `custom` block, table keys are filtered, a missing or
      invalid email is rejected, and `$params` is merged over the result
      before the custom block is set. */
  function CreatePayload(data: Attrs, params: Attrs, f: Sanitizer): (r: Result<Attrs, Error>)
    ensures r.Failure? <==> "email" !in data || Empty(f("validate_email", data["email"]))
    ensures r.Failure? ==> r.error.InvalidArgument?
    ensures r.Success? ==> forall k :: k in params && k != "custom" ==> k in r.value && r.value[k] == params[k]
    ensures r.Success? ==> forall k :: k in data && k in CreateRules && k !in params ==>
              k in r.value && r.value[k] == f(CreateRules[k].filter, data[k])
    ensures r.Success? ==> forall k :: k in r.value ==> k in CreateRules || k in params || k == "custom"
    ensures r.Success? ==> forall k :: k in r.value && k in CreateRules && k != "custom" ==> k in data || k in params
    ensures r.Success? ==> ("custom" in r.value <==> data.Keys - CreateRules.Keys != {} || "custom" in params)
    ensures r.Success? && data.Keys <= CreateRules.Keys && "custom" in params ==> r.value["custom"] == params["custom"]
    ensures r.Success? ==> forall k :: k in data && k !in CreateRules ==>
              && "custom" in r.value && r.value["custom"].Assoc?
              && r.value["custom"].fields.Keys == data.Keys - CreateRules.Keys
              && r.value["custom"].fields[k] == data[k]
  {
    CreateGuard(data, f);
    EmailIsTheOnlyRequiredField();
    var filtered := FilterVarArray(data, CreateRules, f);
    if MissingRequired(filtered, CreateRules) then
      Failure(InvalidArgument("The required field email is missing or not valid."))
    else
      Success(WithCustom(filtered, params, WithoutKeys(data, CreateRules.Keys)))
  }

  function CreateRequest(n: R.Node, data: Attrs, params: Attrs, f: Sanitizer): (r: Result<Req, Error>)
    ensures r.Success? <==> CreatePayload(data, params, f).Success?
    ensures r.Success? ==> r.value == Req(R.UriBuilder(n), Action("create", CreatePayload(data, params, f).value))
  {
    var payload :- CreatePayload(data, params, f);
    Success(Req(R.UriBuilder(n), Action("create", payload)))
  }

  /** `create($data, $params)`: rejects before any request when the email
      check fails; otherwise sends `do=create` to the collection path and
      returns a copy of the receiver holding the created player. */
  function Create(n: R.Node, data: Attrs, params: Attrs, f: Sanitizer, client: Client): (r: Result<R.Node, Error>)
    ensures CreatePayload(data, params, f).Failure? ==> r == Failure(CreatePayload(data, params, f).error)
    ensures CreateRequest(n, data, params, f).Success? && R.WellFormed(n) ==>
              var sent := Send(client, CreateRequest(n, data, params, f).value);
              && (sent.Failure? ==> r == Failure(sent.error))
              && (sent.Success? ==> r == R.Adopt(n, sent.value, n.kind))
    ensures r.Success? ==> r.value == R.SetData(n, r.value.data)
  {
    var req :- CreateRequest(n, data, params, f);
    R.Exchange(n, req, n.kind, client)
  }

  /** No value follows a null: dropping the nulls leaves the indices
      0..n-1, which `json_encode` writes as a list. */
  predicate NullsTrail(xs: seq<Value>) {
    forall i, j :: 0 <= i < j < |xs| && xs[i] == Null ==> xs[j] == Null
  }

  /** The index of the first null, or the length when there is none. */
  function FirstNull(xs: seq<Value>): (m: nat)
    ensures m <= |xs|
    ensures forall i :: 0 <= i < m ==> xs[i] != Null
    ensures m < |xs| ==> xs[m] == Null
  {
    if |xs| == 0 || xs[0] == Null then 0 else 1 + FirstNull(xs[1..])
  }

  /** A list whose nulls all trail, without them. */
  function NonNullPrefix(xs: seq<Value>): (p: seq<Value>)
    requires NullsTrail(xs)
    ensures |p| <= |xs| && p == xs[..|p|]
    ensures forall i :: 0 <= i < |p| ==> p[i] != Null
    ensures forall i :: |p| <= i < |xs| ==> xs[i] == Null
  {
    xs[..FirstNull(xs)]
  }

  /** The non-null entries of a list under their decimal indices. */
  function KeyedByIndex(xs: seq<Value>): (m: Attrs)
    ensures forall i :: 0 <= i < |xs| ==> (Decimal(i) in m <==> xs[i] != Null)
    ensures forall i :: 0 <= i < |xs| && xs[i] != Null ==> m[Decimal(i)] == xs[i]
    ensures forall k :: k in m ==> exists i :: 0 <= i < |xs| && k == Decimal(i)
  {
    DecimalIndicesDistinct();
    map i | 0 <= i < |xs| && xs[i] != Null :: Decimal(i) := xs[i]
  }

  /** `array_filter` of a nested array: null entries dropped, the
      remaining ones keeping their keys. A list whose nulls all trail
      stays a list; any other list loses indices and becomes an object
      keyed by the surviving indices. A scalar yields null, as PHP's
      `array_filter` does after its warning. */
  function DropNullsValue(v: Value): (r: Value)
    ensures v.Assoc? ==> r == Assoc(DropNulls(v.fields))
    ensures v.List? && NullsTrail(v.items) ==>
              && r.List? && |r.items| <= |v.items| && r.items == v.items[..|r.items|]
              && (forall i :: 0 <= i < |r.items| ==> r.items[i] != Null)
              && (forall i :: |r.items| <= i < |v.items| ==> v.items[i] == Null)
    ensures v.List? && !NullsTrail(v.items) ==>
              && r.Assoc?
              && (forall i :: 0 <= i < |v.items| ==> (Decimal(i) in r.fields <==> v.items[i] != Null))
              && (forall i :: 0 <= i < |v.items| && v.items[i] != Null ==> r.fields[Decimal(i)] == v.items[i])
              && (forall k :: k in r.fields ==> exists i :: 0 <= i < |v.items| && k == Decimal(i))
    ensures !IsArray(v) ==> r == Null
  {
    match v
    case Assoc(m) => Assoc(DropNulls(m))
    case List(xs) =>
      if NullsTrail(xs) then List(NonNullPrefix(xs)) else Assoc(KeyedByIndex(xs))
    case _ => Null
  }

  /** A null between values turns the list into an object keyed by the
      surviving indices. */
  lemma DropNullsGap(a: Value, b: Value)
    requires a != Null && b != Null
    ensures DropNullsValue(List([a, Null, b])) == Assoc(map["0" := a, "2" := b])
  {
    var gap := [a, Null, b];
    assert gap[1] == Null && gap[2] != Null;
    assert !NullsTrail(gap);
    KeyedGap(a, b);
  }

  lemma KeyedGap(a: Value, b: Value)
    requires a != Null && b != Null
    ensures KeyedByIndex([a, Null, b]) == map["0" := a, "2" := b]
  {
    var gap := [a, Null, b];
    var m := KeyedByIndex(gap);
    IndexKeys();
    assert gap[0] != Null && gap[1] == Null && gap[2] != Null;
    assert m.Keys == {"0", "2"} by {
      forall k | k in m
        ensures k == "0" || k == "2"
      {
        var i :| 0 <= i < |gap| && k == Decimal(i);
      }
    }
    assert m["0"] == a && m["2"] == b;
  }

  lemma IndexKeys()
    ensures Decimal(0) == "0" && Decimal(1) == "1" && Decimal(2) == "2"
  {
  }

  /** Trailing nulls only shorten a list. */
  lemma DropNullsTail(a: Value, b: Value)
    requires a != Null && b != Null
    ensures DropNullsValue(List([a, b, Null])) == List([a, b])
  {
    var tail := [a, b, Null];
    assert NullsTrail(tail);
    var l := DropNullsValue(List(tail)).items;
    assert tail[0] != Null && tail[1] != Null && tail[2] == Null;
    assert |l| == 2;
  }

  /** The payload of `update`: null fields dropped, then filtered through
      the table; the custom block comes from the receiver, never from the
      argument, with its nulls dropped. */
  function UpdatePayload(n: R.Node, obj: Option<R.Node>, f: Sanitizer): (r: Attrs)
    ensures forall k :: k in UpdateRules ==>
              (k in r <==> k in Tabled.Source(n, obj) && Tabled.Source(n, obj)[k] != Null)
    ensures forall k :: k in r && k != "custom" ==>
              k in UpdateRules && r[k] == f(UpdateRules[k].filter, Tabled.Source(n, obj)[k])
    ensures "custom" in r <==> Truthy(R.Attr(n, "custom"))
    ensures "custom" in r ==> r["custom"] == DropNullsValue(R.Attr(n, "custom"))
  {
    EmailIsTheOnlyRequiredField();
    var data := Tabled.UpdateData(n, obj, UpdateRules, f);
    var custom := R.Attr(n, "custom");
    if Truthy(custom) then data["custom" := DropNullsValue(custom)] else data
  }

  function UpdateRequest(n: R.Node, obj: Option<R.Node>, f: Sanitizer): (r: Req)
    ensures r.path == R.ItemPath(n) && r.query == Action("update", UpdatePayload(n, obj, f))
  {
    Req(R.ItemPath(n), Action("update", UpdatePayload(n, obj, f)))
  }

  /** `update($obj)`: sends `do=update` to the receiver's own path. With
      no player argument the receiver takes the response and is returned;
      with one, a copy takes it and the receiver is left as it was. */
  function Update(n: R.Node, obj: Option<R.Node>, f: Sanitizer, client: Client): (r: Result<R.Outcome, Error>)
    ensures R.WellFormed(n) ==>
              var sent := Send(client, UpdateRequest(n, obj, f));
              && (sent.Failure? ==> r == Failure(sent.error))
              && (sent.Success? ==> (r.Success? <==> R.Adopt(n, sent.value, n.kind).Success?))
              && (sent.Success? && r.Success? ==> r.value.result == R.Adopt(n, sent.value, n.kind).value)
    ensures r.Success? ==> r.value.result == R.SetData(n, r.value.result.data)
    ensures r.Success? && (obj.None? || obj.value.cls != n.cls) ==> r.value.receiver == r.value.result
    ensures r.Success? && obj.Some? && obj.value.cls == n.cls ==> r.value.receiver == n
  {
    Tabled.Updated(n, obj, UpdateRequest(n, obj, f), client)
  }

  function JoinRequest(n: R.Node, ids: Value): (r: Req)
    ensures r.path == R.ItemPath(n)
    ensures r.query == Action("join", TeamsPayload(if IsArray(ids) then ids else List([ids])))
  {
    Req(R.ItemPath(n), Action("join", TeamsPayload(WrapIds(ids))))
  }

  /** `joinTeams($teamIds)`: a single id is wrapped into a list; the
      receiver takes the response. */
  function JoinTeams(n: R.Node, ids: Value, client: Client): (r: Result<R.Outcome, Error>)
    ensures R.WellFormed(n) ==>
              var sent := Send(client, JoinRequest(n, ids));
              && (sent.Failure? ==> r == Failure(sent.error))
              && (sent.Success? ==> (r.Success? <==> R.Adopt(n, sent.value, n.kind).Success?))
              && (sent.Success? && r.Success? ==> r.value.result == R.Adopt(n, sent.value, n.kind).value)
    ensures r.Success? ==> r.value.receiver == r.value.result && r.value.result == R.SetData(n, r.value.result.data)
  {
    Tabled.Mutated(n, JoinRequest(n, ids), client)
  }

  /** `leaveTeams($ids)` as written: a non-array goes through
      `$ids[] = $ids`, fatal for a non-empty string, before any request. */
  function LeaveTeams(n: R.Node, ids: Value, client: Client): (r: Result<R.Outcome, Error>)
    ensures AppendSelf(ids).Failure? ==> r == Failure(AppendSelf(ids).error)
    ensures AppendSelf(ids).Success? && R.WellFormed(n) ==>
              var sent := Send(client, Req(R.ItemPath(n), Action("leave", TeamsPayload(AppendSelf(ids).value))));
              && (sent.Failure? ==> r == Failure(sent.error))
              && (sent.Success? ==> (r.Success? <==> R.Adopt(n, sent.value, n.kind).Success?))
              && (sent.Success? && r.Success? ==> r.value.result == R.Adopt(n, sent.value, n.kind).value)
    ensures r.Success? ==> r.value.receiver == r.value.result && r.value.result == R.SetData(n, r.value.result.data)
  {
    var list :- AppendSelf(ids);
    Tabled.Mutated(n, Req(R.ItemPath(n), Action("leave", TeamsPayload(list))), client)
  }

  function LeaveRequest(n: R.Node, ids: Value): (r: Req)
    ensures r.path == R.ItemPath(n)
    ensures r.query.Keys == {"do", "data"} && r.query["do"] == Str("leave")
    ensures r.query["data"] == Assoc(map["teams" := if IsArray(ids) then ids else List([ids])])
  {
    Req(R.ItemPath(n), Action("leave", TeamsPayload(WrapIds(ids))))
  }

  /** `leaveTeams` as evidently intended: wraps a single id like
      `joinTeams`, so every id value reaches the request. */
  function LeaveTeamsWrapped(n: R.Node, ids: Value, client: Client): (r: Result<R.Outcome, Error>)
    ensures R.WellFormed(n) ==>
              var sent := Send(client, LeaveRequest(n, ids));
              && (sent.Failure? ==> r == Failure(sent.error))
              && (sent.Success? ==> (r.Success? <==> R.Adopt(n, sent.value, n.kind).Success?))
              && (sent.Success? && r.Success? ==> r.value.result == R.Adopt(n, sent.value, n.kind).value)
    ensures r.Success? ==> r.value.receiver == r.value.result && r.value.result == R.SetData(n, r.value.result.data)
  {
    Tabled.Mutated(n, LeaveRequest(n, ids), client)
  }

  /** A single team id: the source fails, the wrapped version sends a
      one-element list. */
  lemma LeaveTeamsScalarId(n: R.Node, client: Client)
    ensures LeaveTeams(n, Str("t1"), client).Failure?
    ensures LeaveTeams(n, Str("t1"), client).error.Fatal?
    ensures LeaveRequest(n, Str("t1")).query["data"] == Assoc(map["teams" := List([Str("t1")])])
  {
  }

  /** The first rejection the tests expect: a player without an email
      never reaches the server. */
  lemma CreateRejectsMissingEmail(n: R.Node, f: Sanitizer, client: Client)
    ensures var noEmail := map["display_name" := Str("test"), "first_name" := Str("tester"), "last_name" := Str("person")];
            && Create(n, noEmail, map[], f, client).Failure?
            && Create(n, noEmail, map[], f, client).error.InvalidArgument?
  {
    var noEmail := map["display_name" := Str("test"), "first_name" := Str("tester"), "last_name" := Str("person")];
    assert "email" !in noEmail;
    assert CreatePayload(noEmail, map[], f).Failure?;
  }

  /** The second: an email the validator refuses. */
  lemma CreateRejectsBadEmail(n: R.Node, f: Sanitizer, client: Client)
    requires Empty(f("validate_email", Str("test")))
    ensures var badEmail := map["email" := Str("test"), "name" := Str("test"), "display_name" := Str("test"),
                                "first_name" := Str("tester"), "last_name" := Str("person")];
            && Create(n, badEmail, map[], f, client).Failure?
            && Create(n, badEmail, map[], f, client).error.InvalidArgument?
  {
    var badEmail := map["email" := Str("test"), "name" := Str("test"), "display_name" := Str("test"),
                        "first_name" := Str("tester"), "last_name" := Str("person")];
    assert badEmail["email"] == Str("test");
    assert CreatePayload(badEmail, map[], f).Failure?;
  }
}
