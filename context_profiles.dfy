/** `GET /api/context-profiles` (the searchable list with link counts) and
    `POST /api/context-profiles` (create a profile from validated JSON). */
module ContextProfilesRoute {
  import opened Wrappers
  import opened SqlText
  import opened Ordering
  import opened Query
  import opened Store
  import opened Joins
  import opened Api
  import JsonText

  // ---------------------------------------------------------------------------------------------
  // The list query

  datatype Column = Name | Description

  /** The list has one order, `ORDER BY cp.updated_at DESC`. */
  datatype SortKey = ByUpdatedAt

  /** The query-string parameter `search`. */
  datatype ListRequest = ListRequest(search: Option<string>)

  /** The searchable text columns; `json_data` is not one of them. */
  function Text(c: ContextProfile, col: Column): Option<string> {
    match col
    case Name => Some(c.name)
    case Description => c.description
  }

  function Flag(c: ContextProfile, col: Column): bool {
    false
  }

  function UpdatedAt(c: ContextProfile): int {
    c.updatedAt
  }

  /** `if (search)`. */
  predicate SearchFilterOn(search: Option<string>) {
    search.Some? && search.value != ""
  }

  const SearchedColumns: seq<Column> := [Name, Description]

  predicate SearchHitProfile(c: ContextProfile, search: string) {
    SearchHit(c.name, search) || (c.description.Some? && SearchHit(c.description.value, search))
  }

  /** The profiles the list promises for a request, stated on the request itself. */
  predicate Matches(c: ContextProfile, req: ListRequest) {
    SearchFilterOn(req.search) ==> SearchHitProfile(c, req.search.value)
  }

  /** The list query as the route builds it: at most one clause, on placeholder `$1`. */
  method BuildListQuery(req: ListRequest) returns (q: Query<Column, SortKey>)
    ensures q.conditions == if SearchFilterOn(req.search) then [AnyLike(SearchedColumns, 1)] else []
    ensures q.params == if SearchFilterOn(req.search) then [SearchPattern(req.search.value)] else []
    ensures PlaceholdersBound(q)
    ensures forall c :: HoldsAll(q, c, Text, Flag) <==> Matches(c, req)
    ensures q.orderBy == ByUpdatedAt && q.limit == None
  {
    var conditions: seq<Condition<Column>> := [];
    var params: seq<string> := [];
    var paramCount := 0;
    if req.search.Some? && req.search.value != "" {
      paramCount := paramCount + 1;
      conditions := conditions + [AnyLike(SearchedColumns, paramCount)];
      params := params + ["%" + req.search.value + "%"];
    }
    q := Query(conditions, params, ByUpdatedAt, None);
    forall c
      ensures HoldsAll(q, c, Text, Flag) <==> Matches(c, req)
    {
      if SearchFilterOn(req.search) {
        AllHoldOne(AnyLike(SearchedColumns, 1), q.params, c, Text, Flag);
        assert SearchedColumns[0] == Name && SearchedColumns[1] == Description;
        assert q.params[0] == SearchPattern(req.search.value);
      }
    }
  }

  /** What Postgres returns for a built query: one row per profile whose clause holds (the
      counts are joined from pre-grouped subqueries), most recently updated first. */
  function RunListQuery(t: Tables, q: Query<Column, SortKey>): seq<ProfileRow> {
    var hits := Filter(t.contextProfiles, (c: ContextProfile) => HoldsAll(q, c, Text, Flag));
    var ordered := SortDesc(hits, UpdatedAt);
    ProfileRows(t, if q.limit.Some? then Take(ordered, q.limit.value) else ordered)
  }

  function MatchingProfiles(t: Tables, req: ListRequest): seq<ContextProfile> {
    Filter(t.contextProfiles, (c: ContextProfile) => Matches(c, req))
  }

  /** The profiles the list shows, in the order shown. */
  function Ranked(t: Tables, req: ListRequest): seq<ContextProfile> {
    SortDesc(MatchingProfiles(t, req), UpdatedAt)
  }

  /** The list the route promises: the ranked profiles, each with its link counts. */
  function Listing(t: Tables, req: ListRequest): seq<ProfileRow> {
    ProfileRows(t, Ranked(t, req))
  }

  lemma ListQueryMeansListing(t: Tables, req: ListRequest, q: Query<Column, SortKey>)
    requires forall c :: HoldsAll(q, c, Text, Flag) <==> Matches(c, req)
    requires q.orderBy == ByUpdatedAt && q.limit == None
    ensures RunListQuery(t, q) == Listing(t, req)
  {
    FilterAgrees(t.contextProfiles, (c: ContextProfile) => HoldsAll(q, c, Text, Flag), (c: ContextProfile) => Matches(c, req));
  }

  /** `GET /api/context-profiles`; `fault` is a failing database call. */
  method List(db: Database, req: ListRequest, fault: bool) returns (r: Response<seq<ProfileRow>>)
    ensures r == if fault then ServerError("Failed to fetch context profiles") else Ok(Listing(db.Snapshot(), req))
  {
    var q := BuildListQuery(req);
    if fault {
      return ServerError("Failed to fetch context profiles");
    }
    ListQueryMeansListing(db.Snapshot(), req, q);
    r := Ok(RunListQuery(db.Snapshot(), q));
  }

  // ---------------------------------------------------------------------------------------------
  // What the list contains

  lemma MatchingProfilesHas(t: Tables, req: ListRequest, c: ContextProfile)
    ensures multiset(MatchingProfiles(t, req))[c] == if Matches(c, req) then multiset(t.contextProfiles)[c] else 0
  {
    var f := (x: ContextProfile) => Matches(x, req);
    assert multiset(MatchingProfiles(t, req))[c] == if f(c) then multiset(t.contextProfiles)[c] else 0;
  }

  /** Every matching profile exactly as often as it is stored (once, ids being unique), no
      other, the most recently updated first. */
  lemma ListingAll(t: Tables, req: ListRequest)
    ensures var cs := Ranked(t, req);
      && (forall c :: multiset(cs)[c] == if Matches(c, req) then multiset(t.contextProfiles)[c] else 0)
      && (forall i, j | 0 <= i < j < |cs| :: cs[i].updatedAt >= cs[j].updatedAt)
  {
    var cs := Ranked(t, req);
    SortDescSpec(MatchingProfiles(t, req), UpdatedAt);
    forall c
      ensures multiset(cs)[c] == if Matches(c, req) then multiset(t.contextProfiles)[c] else 0
    {
      MatchingProfilesHas(t, req, c);
    }
    forall i, j | 0 <= i < j < |cs|
      ensures cs[i].updatedAt >= cs[j].updatedAt
    {
      assert UpdatedAt(cs[i]) >= UpdatedAt(cs[j]);
    }
  }

  /** Every row is one ranked profile; `linked_prompts` and `linked_knowledge` count its rows in
      the two link tables, and are 0 exactly when it has none. */
  lemma ListingCounts(t: Tables, req: ListRequest)
    ensures var rows := Listing(t, req);
      && |rows| == |Ranked(t, req)|
      && forall i | 0 <= i < |rows| ::
           && rows[i].profile == Ranked(t, req)[i]
           && rows[i].linkedPrompts == |set l | l in t.promptLinks && l.1 == rows[i].profile.id|
           && rows[i].linkedKnowledge == |set l | l in t.knowledgeLinks && l.1 == rows[i].profile.id|
           && (rows[i].linkedPrompts == 0 <==> forall l | l in t.promptLinks :: l.1 != rows[i].profile.id)
           && (rows[i].linkedKnowledge == 0 <==> forall l | l in t.knowledgeLinks :: l.1 != rows[i].profile.id)
  {
    var rows := Listing(t, req);
    forall i | 0 <= i < |rows|
      ensures rows[i].linkedPrompts == 0 <==> forall l | l in t.promptLinks :: l.1 != rows[i].profile.id
      ensures rows[i].linkedKnowledge == 0 <==> forall l | l in t.knowledgeLinks :: l.1 != rows[i].profile.id
    {
      LinkCountZero(t.promptLinks, rows[i].profile.id);
      LinkCountZero(t.knowledgeLinks, rows[i].profile.id);
    }
  }

  /** Without wildcard characters in the term, search is case-insensitive substring search over
      the name and the description (never when it is `NULL`); `json_data` is never searched. */
  lemma SearchIsSubstring(c: ContextProfile, search: string, otherJson: string)
    requires NoPatternChars(search)
    ensures SearchHitProfile(c, search) <==>
      || Contains(Lower(c.name), Lower(search))
      || (c.description.Some? && Contains(Lower(c.description.value), Lower(search)))
    ensures SearchHitProfile(c.(jsonData := otherJson), search) == SearchHitProfile(c, search)
  {
    SearchHitIsSubstring(c.name, search);
    if c.description.Some? {
      SearchHitIsSubstring(c.description.value, search);
    }
  }

  // ---------------------------------------------------------------------------------------------
  // Creating a profile

  /** The request body of `POST /api/context-profiles`: `json_data` is any JSON value, `None`
      when the property is missing. */
  datatype CreateRequest = CreateRequest(name: Field<string>, description: Field<string>, jsonData: Option<JsonText.Json>)

  const CreateFailed := "Failed to create context profile"

  const FieldsRequired := "Name and JSON data are required"

  const InvalidJson := "Invalid JSON data"

  /** `!name || !json_data` is false. */
  predicate HasRequiredFields(b: CreateRequest) {
    Truthy(b.name) && b.jsonData.Some? && JsonText.Truthy(b.jsonData.value)
  }

  /** The value the route stores: a string is parsed as JSON text (`None` when that throws),
      any other value is taken as it is. */
  function Validate(j: JsonText.Json): Option<JsonText.Json> {
    match j
    case JString(text) => JsonText.Parse(text)
    case _ => Some(j)
  }

  /** The answer and the new store of `POST /api/context-profiles` on a store `t`. `body` is
      `None` when the request is not JSON; `fault` is a failing insert. */
  function CreateOutcome(t: Tables, body: Option<CreateRequest>, now: int, fault: bool): (Response<ContextProfile>, Tables) {
    if body.None? then (ServerError(CreateFailed), t)
    else if !HasRequiredFields(body.value) then (BadRequest(FieldsRequired), t)
    else
      match Validate(body.value.jsonData.value)
      case None => (BadRequest(InvalidJson), t)
      case Some(parsed) =>
        if fault then (ServerError(CreateFailed), t)
        else
          var u := ExecStmt(t, InsertContextProfile(body.value.name.value, Bound(body.value.description),
                                                    JsonText.Serialize(parsed), now)).value;
          (Created(u.contextProfiles[|u.contextProfiles| - 1]), u)
  }

  /** `POST /api/context-profiles`: validation, then one insert. */
  method Create(db: Database, body: Option<CreateRequest>, now: int, fault: bool) returns (r: Response<ContextProfile>)
    modifies db
    ensures (r, db.Snapshot()) == CreateOutcome(old(db.Snapshot()), body, now, fault)
    ensures old(db.Valid()) ==> db.Valid()
  {
    if body.None? {
      return ServerError(CreateFailed);
    }
    var b := body.value;
    if !Truthy(b.name) || b.jsonData.None? || !JsonText.Truthy(b.jsonData.value) {
      return BadRequest(FieldsRequired);
    }
    var parsed;
    if b.jsonData.value.JString? {
      var attempt := JsonText.Parse(b.jsonData.value.s);
      if attempt.None? {
        return BadRequest(InvalidJson);
      }
      parsed := attempt.value;
    } else {
      parsed := b.jsonData.value;
    }
    var stmt := InsertContextProfile(b.name.value, Bound(b.description), JsonText.Serialize(parsed), now);
    ExecAllOne(db.Snapshot(), stmt);
    var ok := db.Transaction([stmt], fault);
    if !ok {
      return ServerError(CreateFailed);
    }
    r := Created(db.contextProfiles[|db.contextProfiles| - 1]);
  }

  /** A create answers 400 exactly when the name or `json_data` is falsy or `json_data` is a
      string that is not JSON text, and then writes nothing; a failing insert writes nothing
      either. When it answers 201 it has added exactly one profile, under a fresh id, whose
      `json_data` is the serialized validated value and parses back to it; a string is parsed
      first and any other value is stored as it is. Neither link table changes, and every
      outcome keeps the store's constraints. */
  lemma CreateEffect(t: Tables, body: Option<CreateRequest>, now: int, fault: bool)
    requires Wellformed(t)
    ensures var (r, u) := CreateOutcome(t, body, now, fault);
      && Wellformed(u)
      && u.promptLinks == t.promptLinks && u.knowledgeLinks == t.knowledgeLinks
      && (r.BadRequest? <==>
            body.Some? && (!HasRequiredFields(body.value) || Validate(body.value.jsonData.value).None?))
      && (!r.Created? ==> u == t)
      && (r.Created? <==> body.Some? && HasRequiredFields(body.value) && Validate(body.value.jsonData.value).Some? && !fault)
      && (r.Created? ==>
            var b := body.value;
            var parsed := Validate(b.jsonData.value).value;
            && (b.jsonData.value.JString? ==> JsonText.Parse(b.jsonData.value.s) == Some(parsed))
            && (!b.jsonData.value.JString? ==> parsed == b.jsonData.value)
            && r.body == ContextProfile(t.nextId, b.name.value, Bound(b.description), JsonText.Serialize(parsed), now, now)
            && JsonText.Parse(r.body.jsonData) == Some(parsed)
            && r.body.id !in ProfileIds(t)
            && u == t.(contextProfiles := t.contextProfiles + [r.body], nextId := t.nextId + 1))
  {
    if body.Some? && HasRequiredFields(body.value) && Validate(body.value.jsonData.value).Some? && !fault {
      var b := body.value;
      var parsed := Validate(b.jsonData.value).value;
      var stmt := InsertContextProfile(b.name.value, Bound(b.description), JsonText.Serialize(parsed), now);
      ExecStmtKeepsWellformed(t, stmt);
      JsonText.SerializeThenParse(parsed);
    }
  }

  /** The text `not json` is refused with 400 and nothing is stored. */
  lemma CreateRejectsNonJsonText(t: Tables, now: int, fault: bool)
    ensures CreateOutcome(t, Some(CreateRequest(Given("p"), Undefined, Some(JsonText.JString("not json")))), now, fault)
         == (BadRequest(InvalidJson), t)
  {
    assert JsonText.SkipWhitespace("not json") == "not json";
    assert "not json"[..4] != "null" by {
      assert "not json"[..4][1] == 'o';
    }
  }
}
