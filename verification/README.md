# badgeville-php in Dafny

A model of the resource layer of the Badgeville PHP client. The client
addresses the Badgeville REST API as a tree of resource objects, rooted
at a site: `$site->players('p1')->activities()` builds a child per call,
and the child's uri is read off its chain of parents. Every request is
a GET. `find` and `findAll` send the caller's query parameters. The
mutations (`create`, `update`, joining and leaving teams, history
updates) send the query `do=<action>&data=<json>`. The older inline
creates put `?do=create&data=<json>` in the uri itself and send no
query. The answer is unwrapped by the resource's name and copied into a
clone of the receiver, or into the receiver itself.

The model covers the three generations of that layer.

- **The two Cairo `ResourceAbstract` variants** (`Badgeville\Api\Cairo`
  and `Badgeville\Cairo`) are modelled in one module, `Resource`. It
  covers:
  - construction rules;
  - the uri builder, both as a pure function and as the source's loop;
  - dispatch of `__call` through a registry of existing classes;
  - `find`, `findAll`, and the older variant's inline `create`.
- **`Collection`** is the paged result of `findAll`: `getPagination`
  and the one-shot `toArray`.
- **The per-kind resources** are `ApiPlayers`, `CairoPlayers`, `Teams`
  and `Activities`. Their shared request pattern lives in two modules:
  - `Shaping`: field tables, `filter_var_array`, the required-field
    guards, and the team-id lists;
  - `Tabled`: the common create/update/mutate tails.
- **The legacy namespace-driven `Badgeville\ResourceAbstract`** is
  modelled in `Legacy`, and its `Players` in `LegacyPlayers`. A legacy
  uri is derived from the class name, with parent ids found by suffix
  match.
- **The roots** are modelled in `Site` and `Sites`:
  - configuration validation and the RFC 6570 base url;
  - `__call`;
  - `getRequest`, including the error envelope that arrives with HTTP 200.

Conventions of the model:

- PHP values are the `Php.Value` datatype. A decoded JSON array is a
  `List` and a decoded object an `Assoc`. PHP holds both as one kind of
  array; where the library reads them alike (`[0]` on a response) the
  model does too. Exceptions and fatal errors
  are `Error` values inside a `Result`. The PHP semantics followed are
  PHP 5's, where the versions differ: `$x[] = $x` on scalars,
  `get_class(null)`, and a call with a missing argument.
- The HTTP client is an abstract function from (path, query) to an
  optional decoded body. "Fails before any request" is stated as: the
  result is the same error whatever that function is.
- An operation that PHP runs on `$this` returns an `Outcome`: the
  result, and the receiver as it is afterwards. The two are equal
  exactly when PHP mutated and returned `$this`.
- `Scenarios` states the repository's test cases as lemmas about
  concrete values.

Behaviour of the code that is easy to miss:

- **Pagination with a zero limit.** With a non-zero total, the page
  count divides by zero, and PHP 5 turns the quotient into 0. The
  result is page 1 of 0.
- **The last item number.** `end` is `limit * page` when
  `offset + limit` fits within the total, and the total otherwise. The
  two differ when the offset is not a multiple of the limit.
- **Dispatch errors.** An unknown child kind and a parent without an id
  both raise `BadMethodCallException`.
- **Configuration errors.** A missing key raises a plain `Exception`. An
  empty or non-string value raises `InvalidArgumentException`.
- **Unreachable root.** A chain without a site ends in a call of
  `getParent()` on null, which is fatal.
- **Empty uri.** `getRequest` only reads `$uri[0]`. On an empty string
  that is a notice, so an empty uri passes through.

## Model

| member | source | states |
|---|---|---|
| Resource.New | src/Badgeville/Api/Cairo/ResourceAbstract.php:68-82 | construction succeeds exactly when the class is the root or a parent is given, and the id is null or scalar; otherwise InvalidArgument; the id is stored as the `id` attribute |
| Resource.SetAttr | src/Badgeville/Api/Cairo/ResourceAbstract.php:106-111 | the written attribute reads back, every other attribute reads as before, the tree position is kept |
| Resource.SetData | src/Badgeville/Api/Cairo/ResourceAbstract.php:188-193 | all attributes, the id included, are replaced; class, kind and parent are kept |
| Resource.GetSite | src/Badgeville/Api/Cairo/ResourceAbstract.php:172-180 | the result is a site on the node's own lineage; it fails only when no node of the lineage is a site, and never for a node built by the constructors |
| Resource.SegmentsFollowLineage | src/Badgeville/Api/Cairo/ResourceAbstract.php:267-278 | the uri segments alternate kind and id along the lineage from the root, in order, and the node's own id is absent |
| Resource.ChildUri | src/Badgeville/Cairo/ResourceAbstract.php:286-297 | a child's uri is its parent's uri, then the parent's id, then the child's kind |
| Resource.BuildUri | src/Badgeville/Api/Cairo/ResourceAbstract.php:267-278 | the source's collect-reverse-implode loop computes the lineage-defined uri |
| Resource.Call | src/Badgeville/Api/Cairo/ResourceAbstract.php:120-145 | a child is built exactly when its class exists, the receiver's id is truthy and the argument is a valid id; an unknown class or a missing parent id is BadMethodCall; the child hangs under the receiver with the registry's kind and the first argument as id |
| Resource.CallKeepsWellFormed | src/Badgeville/Cairo/ResourceAbstract.php:120-145 | children of a node reaching its site reach it too |
| Resource.FindRequest | src/Badgeville/Api/Cairo/ResourceAbstract.php:206-215 | a non-null argument is the target, then a truthy stored id; with neither, InvalidArgument; the path is the uri, `/` and the id; the query is passed unchanged |
| Resource.Unwrap | src/Badgeville/Api/Cairo/ResourceAbstract.php:217-220 | succeeds exactly when the first element of a list under the key, or the entry "0" of an object under it, is an object, and yields that object |
| Resource.Find | src/Badgeville/Api/Cairo/ResourceAbstract.php:206-221 | fails before any request without an id; otherwise transport errors propagate and the result is a copy of the receiver holding the first record; the receiver is a value and is not changed |
| Resource.FindAllQuery | src/Badgeville/Api/Cairo/ResourceAbstract.php:236-239 | `with_count` is forced to "true", `offset` and `limit` default to 0 and 30 unless given non-empty, and every other parameter is passed unchanged |
| Resource.Rows | src/Badgeville/Api/Cairo/ResourceAbstract.php:249-253 | the records of a list response, one per element in order, exactly when every element is an object; a missing list or a scalar iterates as nothing |
| Resource.Fill | src/Badgeville/Cairo/ResourceAbstract.php:249-253 | appends one copy of the receiver per record, in order, after the existing items, and keeps the paging numbers |
| Resource.Context | src/Badgeville/Api/Cairo/ResourceAbstract.php:245 | an object `_context_info` gives its integer offset, limit and count, each 0 when absent (see Left out); anything else defines nothing and reads as zeros |
| Resource.FindAll | src/Badgeville/Api/Cairo/ResourceAbstract.php:234-256 | on success the collection carries the response's offset, limit and count, is positioned at its start, and holds one copy of the receiver per record, in order; for a node that reaches its site and a delivered response it succeeds exactly when the context and the rows are readable; transport errors propagate |
| Resource.CreateInlineRequest | src/Badgeville/Cairo/ResourceAbstract.php:264-268 | the uri carries `?do=create&data=` and the encoded parameters, and the query is empty |
| Resource.CreateInline | src/Badgeville/Cairo/ResourceAbstract.php:264-275 | the response is unwrapped under the lower-cased short class name into a copy of the receiver |
| Collection.Make | src/Badgeville/Cairo/Utils/Collection.php:54-62 | a new collection is empty, at its start, and holds the given paging numbers |
| Collection.FloorDiv | src/Badgeville/Cairo/Utils/Collection.php:76 | the floor of the quotient for either sign of divisor, and 0 for a zero divisor |
| Collection.CeilDiv | src/Badgeville/Cairo/Utils/Collection.php:77 | the ceiling of the quotient for either sign of divisor, and 0 for a zero divisor |
| Collection.GetPagination | src/Badgeville/Cairo/Utils/Collection.php:70-101 | page is the window containing the offset and pages the fewest windows covering the total; prev and next exist exactly when they are valid pages; start is offset+1; end is the total when the window overruns it |
| Collection.EndWithinTotal | src/Badgeville/Cairo/Utils/Collection.php:92-98 | for a non-negative window with a positive limit (or no items) the end never passes the total and there is at least one page |
| Collection.PaginationExamples | src/Badgeville/Cairo/Utils/Collection.php:70-101 | one result of ten is page 1 of 1 with no neighbours; offset 10 of 25 is page 2 of 3, items 11 to 20 |
| Collection.ToArray | src/Badgeville/Cairo/Utils/Collection.php:109-118 | every item from the cursor on is mapped in order, and the collection is left exhausted |
| Transport.StripSlash | src/Badgeville/Sites.php:90-93 | exactly one leading `/` is dropped, and a uri without one is unchanged |
| Transport.Envelope | src/Badgeville/Sites.php:101-106 | a body announces an error exactly when its `errors` entry is non-empty |
| Transport.Send | src/Badgeville/Sites.php:95-116 | a transport failure or an error envelope is an error; otherwise the body is returned as received |
| Transport.EnvelopeExample | tests/SitesTest.php:45 | the documented 404 envelope becomes a remote error with code 404 and "Invalid route." |
| Shaping.FilterVarArray | src/Badgeville/Api/Cairo/Sites/Players.php:86 | only table keys present in the data survive, each through its own filter |
| Shaping.AsWrittenGuardIsDead | src/Badgeville/Cairo/Sites/Players.php:76-80 | a guard testing `$value['required'] === true` never fires on tables that list 'required' as an element |
| Shaping.Action | src/Badgeville/Api/Cairo/Sites/Players.php:104-107 | a mutation query has exactly the keys `do` and `data` |
| Shaping.WrapIds | src/Badgeville/Api/Cairo/Sites/Players.php:187 | an array is kept and anything else becomes a one-element list |
| Shaping.AppendSelf | src/Badgeville/Api/Cairo/Sites/Players.php:207-209 | arrays are kept; it fails exactly on a non-empty string |
| Shaping.TeamsPayload | src/Badgeville/Api/Cairo/Sites/Players.php:191 | the payload holds the ids under `teams` and nothing else |
| Tabled.GuardAsWritten | src/Badgeville/Cairo/Sites/Players.php:76-80 | with the library's tables the data always passes unchanged |
| Tabled.Guard | src/Badgeville/Api/Cairo/Sites/Players.php:90-94 | rejects exactly when the required field is empty after filtering |
| Tabled.CreateRequest | src/Badgeville/Cairo/Sites/Players.php:82-87 | `do=create` with the payload, sent to the collection path without an id |
| Tabled.Source | src/Badgeville/Cairo/Sites/Players.php:103-109 | update reads the argument's attributes when it is of the receiver's class, else the receiver's |
| Tabled.UpdateData | src/Badgeville/Cairo/Sites/Players.php:125-131 | the sent fields are the table fields that are present and not null, each filtered |
| Tabled.UpdateRequest | src/Badgeville/Cairo/Sites/Players.php:133-138 | `do=update` with the payload, sent to the receiver's own path |
| Tabled.Updated | src/Badgeville/Cairo/Sites/Players.php:138-147 | the result takes the response; the receiver is the result unless an argument of its class was given, in which case it is unchanged |
| Tabled.Mutated | src/Badgeville/Cairo/Sites/Players.php:167-169 | the receiver itself takes the response and is returned |
| ApiPlayers.EmailIsTheOnlyRequiredField | src/Badgeville/Api/Cairo/Sites/Players.php:66-80 | email is the one field listing 'required', and neither table has `custom` |
| ApiPlayers.SetCustom | src/Badgeville/Api/Cairo/Sites/Players.php:47-52 | the entry reads back and every other custom entry and attribute is unchanged; an integer or `true` there is left alone; a non-empty string or list there is not modelled |
| ApiPlayers.CreateGuard | src/Badgeville/Api/Cairo/Sites/Players.php:88-94 | the guard fires exactly when the email is missing or the validator empties it |
| ApiPlayers.WithCustom | src/Badgeville/Api/Cairo/Sites/Players.php:96-102 | parameters win over filtered fields; a non-empty custom block is set last and overrides a `custom` parameter; an empty block leaves the merge as it is, and no other key appears |
| ApiPlayers.CreatePayload | src/Badgeville/Api/Cairo/Sites/Players.php:63-107 | rejected exactly for a missing or invalid email; otherwise parameters win, known fields are filtered, a table field appears only when given in the data or the parameters, no other key appears, unknown fields form the custom block, `custom` is present exactly when there are unknown fields or a `custom` parameter, and it is that parameter when there are no unknown fields |
| ApiPlayers.CreateRequest | src/Badgeville/Api/Cairo/Sites/Players.php:104-109 | the payload is sent with `do=create` to the collection path |
| ApiPlayers.Create | src/Badgeville/Api/Cairo/Sites/Players.php:63-115 | an invalid payload fails before any request; otherwise a copy of the receiver holds the created player |
| ApiPlayers.CreateRejectsMissingEmail | tests/Sites/PlayersTest.php:72-81 | a player without an email is InvalidArgument, whatever the server |
| ApiPlayers.CreateRejectsBadEmail | tests/Sites/PlayersTest.php:86-97 | a player whose email the validator refuses is InvalidArgument, whatever the server |
| ApiPlayers.DropNullsValue | src/Badgeville/Api/Cairo/Sites/Players.php:155-158 | null entries are dropped and the rest keep their keys: an object keeps its non-null fields; a list whose nulls all trail becomes its non-null prefix; any other list becomes an object from surviving index to value; a scalar gives null |
| ApiPlayers.DropNullsGap | src/Badgeville/Api/Cairo/Sites/Players.php:155-158 | `[a, null, b]` becomes the object `{"0": a, "2": b}` |
| ApiPlayers.DropNullsTail | src/Badgeville/Api/Cairo/Sites/Players.php:155-158 | `[a, b, null]` stays the list `[a, b]` |
| ApiPlayers.UpdatePayload | src/Badgeville/Api/Cairo/Sites/Players.php:133-160 | known non-null fields are filtered, and the custom block comes from the receiver exactly when it is non-empty, without nulls |
| ApiPlayers.UpdateRequest | src/Badgeville/Api/Cairo/Sites/Players.php:162-167 | `do=update` with that payload on the receiver's own path |
| ApiPlayers.Update | src/Badgeville/Api/Cairo/Sites/Players.php:123-177 | the result takes the response; the receiver is the result unless a player argument was given, in which case it is unchanged |
| ApiPlayers.JoinRequest | src/Badgeville/Api/Cairo/Sites/Players.php:187-194 | `do=join` with a single id wrapped into a list |
| ApiPlayers.JoinTeams | src/Badgeville/Api/Cairo/Sites/Players.php:185-197 | transport errors propagate; otherwise the receiver itself takes the first record of the response and is returned |
| ApiPlayers.LeaveTeams | src/Badgeville/Api/Cairo/Sites/Players.php:205-219 | a non-empty string id is fatal before any request; otherwise transport errors propagate and the receiver itself takes the first record of the response |
| ApiPlayers.LeaveRequest | src/Badgeville/Api/Cairo/Sites/Players.php:211-216 | `do=leave` with every id value reaching the `teams` list |
| ApiPlayers.LeaveTeamsWrapped | src/Badgeville/Api/Cairo/Sites/Players.php:205-219 | leaving wraps a single id like joining; transport errors propagate and the receiver itself takes the first record of the response |
| ApiPlayers.LeaveTeamsScalarId | src/Badgeville/Api/Cairo/Sites/Players.php:207-209 | leaving one string id fails as written and is a one-element list when wrapped |
| CairoPlayers.CreatePayload | src/Badgeville/Cairo/Sites/Players.php:52-85 | always accepted; keys are the table fields present; each is filtered |
| CairoPlayers.Create | src/Badgeville/Cairo/Sites/Players.php:52-93 | the request is sent whatever the email, and a copy takes the response |
| CairoPlayers.CreatePayloadGuarded | src/Badgeville/Cairo/Sites/Players.php:76-80 | rejected exactly for a missing or invalid email; otherwise the same payload |
| CairoPlayers.CreateGuarded | src/Badgeville/Cairo/Sites/Players.php:52-93 | refuses before any request without a valid email, and agrees with `create` otherwise |
| CairoPlayers.CreateWithoutEmail | src/Badgeville/Cairo/Sites/Players.php:76-80 | a player without email is sent as written and refused when guarded |
| CairoPlayers.UpdateRequest | src/Badgeville/Cairo/Sites/Players.php:101-138 | the sent fields are exactly the update table's fields that are present and not null, each through its filter, so no custom block is sent |
| CairoPlayers.Update | src/Badgeville/Cairo/Sites/Players.php:101-148 | the result takes the response; the receiver is the result unless a player argument was given |
| CairoPlayers.JoinTeams | src/Badgeville/Cairo/Sites/Players.php:156-170 | a non-empty string id is fatal before any request; otherwise transport errors propagate and the receiver itself takes the first record of the response |
| CairoPlayers.LeaveTeams | src/Badgeville/Cairo/Sites/Players.php:178-192 | the same with `do=leave`: a non-empty string id is fatal before any request; otherwise the receiver itself takes the first record of the response |
| CairoPlayers.ArrayIdsAgree | src/Badgeville/Cairo/Sites/Players.php:156-192 | for an array of ids both agree with the newer variant |
| CairoPlayers.JoinScalarId | src/Badgeville/Cairo/Sites/Players.php:158-160 | joining one string id fails, where the newer variant sends a one-element list |
| Teams.DisplayNameIsTheOnlyRequiredField | src/Badgeville/Api/Cairo/Sites/Teams.php:55-66 | display_name is the one field listing 'required' |
| Teams.CreatePayload | src/Badgeville/Api/Cairo/Sites/Teams.php:52-81 | always accepted; keys are the table fields present; each is filtered |
| Teams.Create | src/Badgeville/Api/Cairo/Sites/Teams.php:52-89 | the request is sent whatever the display name, and a copy takes the response |
| Teams.CreatePayloadGuarded | src/Badgeville/Api/Cairo/Sites/Teams.php:72-76 | rejected exactly for an empty display name after filtering |
| Teams.CreateGuarded | src/Badgeville/Api/Cairo/Sites/Teams.php:52-89 | refuses before any request without a display name, and agrees with `create` otherwise |
| Teams.CreateWithoutDisplayName | src/Badgeville/Api/Cairo/Sites/Teams.php:72-76 | a team without display name is sent as written and refused when guarded |
| Teams.UpdateRequest | src/Badgeville/Api/Cairo/Sites/Teams.php:97-130 | the sent fields are exactly the update table's fields that are present and not null, each through its filter |
| Teams.Update | src/Badgeville/Api/Cairo/Sites/Teams.php:97-140 | without a team argument the receiver takes the response; with one, the request is sent, its failure propagates with its error, and the returned copy has no attributes |
| Teams.UpdateCorrected | src/Badgeville/Api/Cairo/Sites/Teams.php:132-139 | the copy takes the response, and without a team argument it agrees with `update` |
| Teams.UpdateDropsResponse | src/Badgeville/Api/Cairo/Sites/Teams.php:136-137 | for a server answering with a named team, `update($team)` returns no name and the corrected one returns it |
| Activities.CreatePayload | src/Badgeville/Api/Cairo/Sites/Players/Activities.php:52-75 | always accepted; keys are the table fields present; each is filtered |
| Activities.Create | src/Badgeville/Api/Cairo/Sites/Players/Activities.php:52-83 | the request is sent whatever the verb, and a copy takes the response |
| Activities.CreatePayloadGuarded | src/Badgeville/Api/Cairo/Sites/Players/Activities.php:66-70 | rejected exactly for an empty verb after filtering |
| Activities.CreateGuarded | src/Badgeville/Api/Cairo/Sites/Players/Activities.php:52-83 | refuses before any request without a verb, and agrees with `create` otherwise |
| Activities.CreateWithoutVerb | src/Badgeville/Api/Cairo/Sites/Players/Activities.php:66-70 | an activity without verb is sent as written and refused when guarded |
| Activities.HistoryRequest | src/Badgeville/Api/Cairo/Sites/Players/Activities.php:87-94 | `do=update_history` with the timestamp under the history type, on the receiver's own path |
| Activities.UpdateHistory | src/Badgeville/Api/Cairo/Sites/Players/Activities.php:85-97 | the receiver takes the response |
| Activities.DefaultIsViewed | src/Badgeville/Api/Cairo/Sites/Players/Activities.php:85 | without a type the timestamp is recorded under `viewed` |
| Legacy.LNew | src/Badgeville/ResourceAbstract.php:63-71 | no validation; the id is the `id` attribute and no site is set |
| Legacy.SetSite | src/Badgeville/ResourceAbstract.php:152-157 | the site is set and nothing else changes |
| Legacy.LCall | src/Badgeville/ResourceAbstract.php:105-114 | a child exists exactly when its class does; it hangs under the receiver, inherits its site, and its id is the first argument or the empty argument array |
| Legacy.FirstMatchWins | src/Badgeville/ResourceAbstract.php:253-269 | the id found is that of the nearest ancestor whose class ends with the segment |
| Legacy.NoMatchFallsThrough | src/Badgeville/ResourceAbstract.php:253-269 | with no matching ancestor a site-rooted chain answers false (null if the site matches), and an orphan chain fails |
| Legacy.RootedResolves | src/Badgeville/ResourceAbstract.php:253-269 | every lookup on a site-rooted chain succeeds |
| Legacy.RootedPartsResolve | src/Badgeville/ResourceAbstract.php:242-248 | every segment lookup of a site-rooted chain succeeds |
| Legacy.Segment | src/Badgeville/ResourceAbstract.php:243-247 | the lower-cased segment and `/`, then the id and `/` exactly when the lookup did not answer false |
| Legacy.UriParts | src/Badgeville/ResourceAbstract.php:242-248 | succeeds exactly when every segment's lookup does, and ends with `/` |
| Legacy.LUri | src/Badgeville/ResourceAbstract.php:234-251 | a namespaced class's uri ends with `/` whenever it exists, and a site-rooted node always has one |
| Legacy.IndexName | src/Badgeville/ResourceAbstract.php:185 | the lower-cased short class name |
| Legacy.LFind | src/Badgeville/ResourceAbstract.php:182-190 | the id is appended without separator; without a site nothing is sent; otherwise a copy takes the first record under the index name |
| Legacy.LFindAll | src/Badgeville/ResourceAbstract.php:198-213 | parameters go out unchanged and each record becomes a copy of the receiver, in order |
| Legacy.LCreate | src/Badgeville/ResourceAbstract.php:221-232 | the data rides inline in the uri with no query; without a site nothing is sent; otherwise a copy's data is the first record under the index name |
| Legacy.SuffixNotSegment | src/Badgeville/ResourceAbstract.php:260-262 | the suffix test matches a class like `TopPlayers` for the segment `Players` |
| LegacyPlayers.SavePayload | src/Badgeville/Players.php:48-54 | exactly the allowed fields that are present and not null, unchanged |
| LegacyPlayers.SaveRequest | src/Badgeville/Players.php:56-61 | `do=update` on `players/<id>` |
| LegacyPlayers.ThroughGetClient | src/Badgeville/Players.php:61-64 | reaching the server through `getClient()` is always fatal and sends nothing |
| LegacyPlayers.SaveAsWritten | src/Badgeville/Players.php:46-67 | `save()` as written is fatal for every player |
| LegacyPlayers.Save | src/Badgeville/Players.php:46-67 | through the site, a copy takes `response['players'][0]`; without a site nothing is sent |
| LegacyPlayers.CreateUri | src/Badgeville/Players.php:38 | the fixed prefix followed by the encoded parameters |
| LegacyPlayers.CreateAsWritten | src/Badgeville/Players.php:36-44 | `create()` as written is fatal for every input |
| LegacyPlayers.Create | src/Badgeville/Players.php:36-44 | through the site, a copy takes the created player |
| LegacyPlayers.NoGetClientClass | src/Badgeville/ResourceAbstract.php:105-114 | `getClient` on a player finds no child class |
| LegacyPlayers.SaveFailsWhereSiteWorks | src/Badgeville/Players.php:61-66 | a player the server would update fails as written and succeeds through the site |
| Site.Validate | src/Badgeville/Site.php:65-76 | no error exactly when every key is a truthy string; otherwise the error of the first failing key, missing or invalid |
| Site.PctEncode | src/Badgeville/Site.php:80-84 | the expansion holds only unreserved characters and `%`, and is never shorter |
| Site.PctEncodeIdentity | src/Badgeville/Site.php:80-84 | expansion leaves a value unchanged exactly when it is all unreserved characters |
| Site.BaseUrl | src/Badgeville/Site.php:78-86 | the base url is at least as long as its parts and the template's nine literal characters |
| Site.PlainBaseUrl | src/Badgeville/Site.php:78-86 | for unreserved values the base url is the plain concatenation |
| Site.New | src/Badgeville/Site.php:63-95 | construction succeeds exactly for a valid configuration, fails with the first key's error otherwise, and keeps the configuration and its base url |
| Site.Call | src/Badgeville/Site.php:104-124 | a name without a source file is BadMethodCall; `playerActivities` fails with the "invalid client" exception its constructor throws for a non-client parent; a resource is built under the site with the first argument or null as id, and no site is set |
| Site.CallInjecting | src/Badgeville/Site.php:122-123 | the same node with the site set |
| Site.GetRequest | src/Badgeville/Site.php:144-178 | a non-string uri is InvalidArgument before any request; otherwise one leading `/` is dropped and error envelopes become errors |
| Sites.SetClient | src/Badgeville/Sites.php:68-73 | the client is installed and the attributes are kept |
| Sites.GetRequest | src/Badgeville/Sites.php:83-117 | a non-string uri is rejected first; without a client nothing is sent; otherwise as `Site.GetRequest` |
| Sites.SetClientEnablesRequests | src/Badgeville/Sites.php:63-73 | the same request fails before `setClient` and reaches the client after |
| Scenarios.RootIsBuilt | tests/TestAbstract.php:125-138 | the test root is built with id `123asdf` and reaches its site |
| Scenarios.ArrayIdRefused | src/Badgeville/Api/Cairo/ResourceAbstract.php:70-76 | an array id is refused, and a non-root without parent is refused |
| Scenarios.PlayersDispatch | tests/SitesTest.php:154-158 | `players('123')` on the root builds the players node |
| Scenarios.ActivitiesDispatch | tests/SitesTest.php:160-164 | `activities('456')` on it builds the activities node |
| Scenarios.BehaviorsDispatch | tests/SitesTest.php:166-170 | `behaviors()` on that builds the behaviors node |
| Scenarios.ChainUri | src/Badgeville/Cairo/ResourceAbstract.php:286-297 | a three-level chain's uri carries every ancestor's kind and id, in order, and ends with the node's kind |
| Scenarios.NestedUri | src/Badgeville/Cairo/ResourceAbstract.php:286-297 | the behaviors node's uri is `sites/123asdf/players/123/activities/456/behaviors` |
| Scenarios.DispatchFailures | tests/SitesTest.php:139-179 | an unknown name and a child of an id-less node are refused |
| Scenarios.CairoNamesAreShortNames | src/Badgeville/Cairo/ResourceAbstract.php:270-272 | every Cairo resource name is its lower-cased short class name |
| Scenarios.ApiNamesAreShortNames | tests/TestAbstract.php:107-111 | every Api resource name is its lower-cased short class name |
| Scenarios.OnePlayerPage | tests/Sites/PlayersTest.php:48-67 | `findAll()` on a one-player page yields that player and page 1 of 1 |
| Scenarios.FindJoey | src/Badgeville/Api/Cairo/ResourceAbstract.php:217-220 | `find('p1')` returns a copy holding the player and leaves the receiver as it was |
| Scenarios.FindWithoutId | src/Badgeville/Api/Cairo/ResourceAbstract.php:209-215 | `find()` without any id is InvalidArgument whatever the server |
| Scenarios.ConfigRejected | tests/SiteTest.php:75-91 | a missing key and empty values are rejected |
| Scenarios.PlainSite | src/Badgeville/Site.php:78-86 | a configuration of truthy, unreserved strings builds a site with the plain base url |
| Scenarios.TestSite | tests/SiteTest.php:48-61 | the test configuration builds a site with base url `http://www.joeyrivera.com/v1/123asdf1234asdf/sites/123asdf/` |
| Scenarios.LegacyChildCall | src/Badgeville/ResourceAbstract.php:105-114 | `activities()` on a legacy player builds its child with the inherited site |
| Scenarios.LegacyNestedUri | src/Badgeville/ResourceAbstract.php:234-251 | the child's uri is `players/p1/activities/` |
| Scenarios.LegacyFindWithoutSite | src/Badgeville/Site.php:104-124 | `$site->players('p1')->find('p1')` as written fails for want of a site |
| Scenarios.LegacyFindWithSite | src/Badgeville/ResourceAbstract.php:182-190 | with the site injected the same lookup returns the player |

## Left out

- The HTTP client, Guzzle and JSON decoding. The client is an abstract function from path and query to a decoded body, or to nothing for a transport failure.
- The JSON text of `data=`. Payloads are modelled as structured values, and the `json_encode` of the inline creates is a parameter.
- The `filter_var` sanitizers and validators. They are an abstract function of the filter name and value.
- The filesystem probe of `__call`. It is replaced by a registry of existing classes per namespace.
- `DateTime` in `updateHistory`. The timestamp is a parameter.
- `Badgeville\Api\Cairo\Sites` and `Badgeville\Cairo\Sites` are not part of this model. Their `getRequest` is taken to behave like `src/Badgeville/Sites.php`'s.
- `src/Badgeville/Client.php`, `src/Badgeville/PlayerActivities.php` and the example scripts are not part of this model, apart from the `PlayerActivities` constructor's refusal of a parent that is not a `Client`, which `Site.Call` meets.
- The Guzzle `adapter` option of `Site`. It only selects a transport.
- Floats. Numbers are integers, and pagination uses exact floor and ceiling where PHP goes through doubles.
- Resource.Unwrap: a missing key, or a first element that is not an object, is a `Malformed` error, where PHP emits a notice and stores null or the scalar.
- Resource.Rows: a non-object row is `Malformed`, where PHP stores it as it is. An object in place of the list is also `Malformed`, where PHP iterates its values in document order; the model's maps carry no order.
- Resource.Context: an absent `offset`, `limit` or `count` is 0 here, where PHP passes the undefined variable, null, to the collection; `getPagination()` then reports null for that field, and can report null for `end`, where the model reports 0. Page, pages, prev, next and start come out the same either way. A string, bool or non-integer number inside an object `_context_info` is a `Malformed` error, where PHP converts it as a number.
- ApiPlayers.SetCustom: a non-empty string or list in `custom` is `Unmodelled`. PHP 5 would index into or append to it.
- ApiPlayers.Update: the `$params` argument is not a parameter, because the source never reads it.
- Teams.Update: `setData()` without an argument stores null in PHP 5, with a warning. Here it is an empty attribute map, so every attribute reads as null in both.
- Site.Call: a source file that is not a resource class (`Client`, `ResourceAbstract`, `ResourceInterface`, `Site`) is `Unmodelled`. PHP would construct it with the wrong arguments.
- Site.BaseUrl: the url part goes into the template literally. A url that itself contains `{...}` would be expanded again by Guzzle, and that is not modelled.
- Resource.GetSite: walking off a chain with no site is a single fatal error. The PHP call on null is not modelled further.
- Legacy.IdOfParent: `get_class(null)` follows PHP 5 and names the calling class; later versions raise an error.

## Findings

| source | as written | input that shows it | evidently intended | confidence | as-written member | corrected member |
|---|---|---|---|---|---|---|
| src/Badgeville/Cairo/Sites/Players.php:76-80 | the guard tests `$value['required'] === true`, but the table lists 'required' as an element, so it never fires | `create(['name' => 'Joey'])` | a missing or invalid email is refused before the request, as the Api variant does | not executed | CairoPlayers.CreateWithoutEmail | CairoPlayers.CreateGuarded |
| src/Badgeville/Api/Cairo/Sites/Teams.php:72-76 | the same dead guard | `create(['name' => 'red'])` | a missing display name is refused | not executed | Teams.CreateWithoutDisplayName | Teams.CreateGuarded |
| src/Badgeville/Api/Cairo/Sites/Players/Activities.php:66-70 | the same dead guard | `create([])` | a missing verb is refused | not executed | Activities.CreateWithoutVerb | Activities.CreateGuarded |
| src/Badgeville/Api/Cairo/Sites/Teams.php:136-137 | with a team argument the copy gets `setData()` with no argument, so the response is dropped | `update($team)` against a server answering `{"teams":[{"id":"t1","name":"red"}]}` | the copy takes `response['teams'][0]`, as in the player resources | not executed | Teams.UpdateDropsResponse | Teams.UpdateCorrected |
| src/Badgeville/Api/Cairo/Sites/Players.php:207-209 | `$ids[] = $ids` on a string id is fatal | `leaveTeams('t1')` | wrap a single id into a list, as `joinTeams` does | not executed | ApiPlayers.LeaveTeamsScalarId | ApiPlayers.LeaveTeamsWrapped |
| src/Badgeville/Cairo/Sites/Players.php:158-160 | the same append in `joinTeams` | `joinTeams('t1')` | wrap a single id, as the newer variant does | not executed | CairoPlayers.JoinScalarId | ApiPlayers.JoinTeams |
| src/Badgeville/Site.php:122-123 | "always inject site" passes the site only as the parent and never calls `setSite`, so `getSite()` is null | `$site->players('p1')->find('p1')` | the child holds the site and can send requests | not executed | Scenarios.LegacyFindWithoutSite | Site.CallInjecting |
| src/Badgeville/Players.php:61 | `$this->getClient()` is not defined on resources, so `__call` looks for a class `Badgeville\Players\GetClient` | `save()` on any player | send through the injected site | not executed | LegacyPlayers.SaveFailsWhereSiteWorks | LegacyPlayers.Save |
