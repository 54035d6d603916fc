/** The request-shaping pattern the per-kind resources share: a table of
    known fields with their `filter_var_array` rules, a required-field
    guard, the `do=<action>&data=<payload>` query, and the team-id list
    of join/leave. The sanitizers themselves are an abstract function. */
module Shaping {
  import opened Wrappers
  import opened Php
  import opened Transport

  /** One entry of a property table. `filter` names the PHP filter;
      `listsRequired` is true when the entry is an array holding the
      string 'required' as a list element; `requiredKey` is the value the
      entry holds under the key 'required', if any. */
  datatype Rule = Rule(filter: string, listsRequired: bool, requiredKey: Option<Value>)

  type Table = map<string, Rule>

  /** `filter_var` with a given filter: abstract. Failed validation
      usually yields false, or null for the `NULL_ON_FAILURE` flag. */
  type Sanitizer = (string, Value) -> Value

  function Plain(filter: string): Rule {
    Rule(filter, false, None)
  }

  function Required(filter: string): Rule {
    Rule(filter, true, None)
  }

  /** `filter_var_array($data, $table, false)`: only table keys that are
      present in the data survive, each through its field's filter. */
  function FilterVarArray(data: Attrs, table: Table, f: Sanitizer): (r: Attrs)
    ensures r.Keys == data.Keys * table.Keys
    ensures forall k :: k in r ==> r[k] == f(table[k].filter, data[k])
  {
    map k | k in data && k in table :: f(table[k].filter, data[k])
  }

  /** The guard of the Api `Players::create`: some field whose rule lists
      'required' is empty after filtering. */
  predicate MissingRequired(data: Attrs, table: Table) {
    exists k :: k in table && table[k].listsRequired && Empty(Get(data, k))
  }

  /** The guard of the older `create`s, as written: it tests the value
      under the key 'required', which the tables never set. */
  predicate MissingRequiredAsWritten(data: Attrs, table: Table) {
    exists k :: k in table && table[k].requiredKey == Some(Bool(true)) && Empty(Get(data, k))
  }

  /** A table written like the library's: 'required' appears only as a
      list element. */
  predicate ListStyle(table: Table) {
    forall k :: k in table ==> table[k].requiredKey.None?
  }

  /** With list-style tables the as-written guard never fires, whatever
      the data. */
  lemma AsWrittenGuardIsDead(data: Attrs, table: Table)
    requires ListStyle(table)
    ensures !MissingRequiredAsWritten(data, table)
  {
  }

  /** The query of a mutation: `do=<action>` and the JSON payload. */
  function Action(verb: string, payload: Attrs): (q: Query)
    ensures q.Keys == {"do", "data"}
    ensures q["do"] == Str(verb) && q["data"] == Assoc(payload)
  {
    map["do" := Str(verb), "data" := Assoc(payload)]
  }

  /** `is_array($ids) ? $ids : [$ids]`. */
  function WrapIds(ids: Value): (r: Value)
    ensures IsArray(r)
    ensures IsArray(ids) ==> r == ids
    ensures !IsArray(ids) ==> r == List([ids])
  {
    if IsArray(ids) then ids else List([ids])
  }

  /** `if (!is_array($ids)) { $ids[] = $ids; }` as PHP 5 runs it: a
      non-empty string is a fatal error, null, false and "" turn into a
      one-element list, and an integer or true is left as it was (with a
      warning). */
  function AppendSelf(ids: Value): (r: Result<Value, Error>)
    ensures IsArray(ids) ==> r == Success(ids)
    ensures ids.Str? && ids.s != "" ==> r.Failure? && r.error.Fatal?
    ensures r.Failure? <==> ids.Str? && ids.s != ""
  {
    match ids
    case List(_) => Success(ids)
    case Assoc(_) => Success(ids)
    case Null => Success(List([ids]))
    case Bool(b) => if b then Success(ids) else Success(List([ids]))
    case Int(_) => Success(ids)
    case Str(s) => if s == "" then Success(List([ids])) else Failure(Fatal("[] operator not supported for strings"))
  }

  /** The team-id payload `{"teams": ids}`. */
  function TeamsPayload(ids: Value): (r: Attrs)
    ensures r.Keys == {"teams"} && r["teams"] == ids
  {
    map["teams" := ids]
  }
}
