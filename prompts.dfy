/** `GET /api/prompts` (the filtered list) and `POST /api/prompts` (create a prompt and link it
    to context profiles). */
module PromptsRoute {
  import opened Wrappers
  import opened SqlText
  import opened Ordering
  import opened Query
  import opened Store
  import opened Joins
  import opened Api

  // ---------------------------------------------------------------------------------------------
  // The list query

  datatype Column = Title | Description | Content | Category | IsFavorited

  datatype SortKey = ByUpdatedAt | ByLastUsed

  /** The query-string parameters `category`, `search`, `favorites` and `recent`. */
  datatype ListRequest = ListRequest(
    category: Option<string>,
    search: Option<string>,
    favorites: Option<string>,
    recent: Option<string>)

  function Text(p: Prompt, c: Column): Option<string> {
    match c
    case Title => Some(p.title)
    case Description => p.description
    case Content => Some(p.content)
    case Category => p.category
    case IsFavorited => None
  }

  function Flag(p: Prompt, c: Column): bool {
    c == IsFavorited && p.isFavorited
  }

  function Key(k: SortKey): Prompt -> int {
    match k
    case ByUpdatedAt => (p: Prompt) => p.updatedAt
    case ByLastUsed => (p: Prompt) => p.lastUsed
  }

  /** `category && category !== 'All'`. */
  predicate CategoryFilterOn(category: Option<string>) {
    category.Some? && category.value != "" && category.value != "All"
  }

  /** `if (search)`. */
  predicate SearchFilterOn(search: Option<string>) {
    search.Some? && search.value != ""
  }

  const SearchedColumns: seq<Column> := [Title, Description, Content]

  predicate SearchHitPrompt(p: Prompt, search: string) {
    || SearchHit(p.title, search)
    || (p.description.Some? && SearchHit(p.description.value, search))
    || SearchHit(p.content, search)
  }

  /** The prompts the list promises for a request, stated on the request itself. */
  predicate Matches(p: Prompt, req: ListRequest) {
    && (CategoryFilterOn(req.category) ==> p.category == req.category)
    && (SearchFilterOn(req.search) ==> SearchHitPrompt(p, req.search.value))
    && (SwitchOn(req.favorites) ==> p.isFavorited)
  }

  /** The `AND` clauses of the query. They depend on which filters are on and on nothing else:
      no request text reaches the query text. */
  function Clauses(categoryOn: bool, searchOn: bool, favoritesOn: bool): seq<Condition<Column>> {
    (if categoryOn then [Equals(Category, 1)] else [])
    + (if searchOn then [AnyLike(SearchedColumns, if categoryOn then 2 else 1)] else [])
    + (if favoritesOn then [IsTrue(IsFavorited)] else [])
  }

  /** The bound values: the category first, then the search pattern; `favorites` binds nothing. */
  function Params(req: ListRequest): (r: seq<string>)
    ensures |r| == (if CategoryFilterOn(req.category) then 1 else 0) + (if SearchFilterOn(req.search) then 1 else 0)
    ensures CategoryFilterOn(req.category) ==> r[0] == req.category.value
    ensures SearchFilterOn(req.search) ==> r[|r| - 1] == SearchPattern(req.search.value)
  {
    (if CategoryFilterOn(req.category) then [req.category.value] else [])
    + (if SearchFilterOn(req.search) then [SearchPattern(req.search.value)] else [])
  }

  /** The list query as the route builds it: clauses appended and values pushed one filter at a
      time, with `paramCount` numbering the placeholders. */
  method BuildListQuery(req: ListRequest) returns (q: Query<Column, SortKey>)
    ensures q.conditions == Clauses(CategoryFilterOn(req.category), SearchFilterOn(req.search), SwitchOn(req.favorites))
    ensures q.params == Params(req)
    ensures PlaceholdersBound(q)
    ensures forall p :: HoldsAll(q, p, Text, Flag) <==> Matches(p, req)
    ensures q.orderBy == (if SwitchOn(req.recent) then ByLastUsed else ByUpdatedAt)
    ensures q.limit == (if SwitchOn(req.recent) then Some(3) else None)
  {
    ghost var categoryOn, searchOn := CategoryFilterOn(req.category), SearchFilterOn(req.search);
    var conditions: seq<Condition<Column>> := [];
    var params: seq<string> := [];
    var paramCount := 0;
    if req.category.Some? && req.category.value != "" && req.category.value != "All" {
      paramCount := paramCount + 1;
      conditions := conditions + [Equals(Category, paramCount)];
      params := params + [req.category.value];
    }
    assert paramCount == |params| == (if categoryOn then 1 else 0);
    assert conditions == Clauses(categoryOn, false, false);
    if req.search.Some? && req.search.value != "" {
      paramCount := paramCount + 1;
      conditions := conditions + [AnyLike(SearchedColumns, paramCount)];
      params := params + ["%" + req.search.value + "%"];
    }
    assert conditions == Clauses(categoryOn, searchOn, false);
    if req.favorites == Some("true") {
      conditions := conditions + [IsTrue(IsFavorited)];
    }
    assert params == Params(req);
    if req.recent == Some("true") {
      q := Query(conditions, params, ByLastUsed, Some(3));
    } else {
      q := Query(conditions, params, ByUpdatedAt, None);
    }
    ClausesSound(req, q);
  }

  /** The clauses and parameters of a built query: every placeholder is bound, and the
      `WHERE` clause holds of exactly the prompts the request asks for. */
  lemma ClausesSound(req: ListRequest, q: Query<Column, SortKey>)
    requires q.conditions == Clauses(CategoryFilterOn(req.category), SearchFilterOn(req.search), SwitchOn(req.favorites))
    requires q.params == Params(req)
    ensures PlaceholdersBound(q)
    ensures forall p :: HoldsAll(q, p, Text, Flag) <==> Matches(p, req)
  {
    forall p
      ensures HoldsAll(q, p, Text, Flag) <==> Matches(p, req)
    {
      ClausesMeanMatches(req, q, p);
    }
  }

  lemma SearchClause(p: Prompt, params: seq<string>, k: nat, search: string)
    requires 1 <= k <= |params| && params[k - 1] == SearchPattern(search)
    ensures Holds(AnyLike(SearchedColumns, k), params, p, Text, Flag) <==> SearchHitPrompt(p, search)
  {
    assert SearchedColumns[0] == Title && SearchedColumns[1] == Description && SearchedColumns[2] == Content;
  }

  lemma ClausesMeanMatches(req: ListRequest, q: Query<Column, SortKey>, p: Prompt)
    requires q.conditions == Clauses(CategoryFilterOn(req.category), SearchFilterOn(req.search), SwitchOn(req.favorites))
    requires q.params == Params(req)
    ensures HoldsAll(q, p, Text, Flag) <==> Matches(p, req)
  {
    var cat: seq<Condition<Column>> := if CategoryFilterOn(req.category) then [Equals(Category, 1)] else [];
    var srch: seq<Condition<Column>> :=
      if SearchFilterOn(req.search) then [AnyLike(SearchedColumns, if CategoryFilterOn(req.category) then 2 else 1)] else [];
    var fav: seq<Condition<Column>> := if SwitchOn(req.favorites) then [IsTrue(IsFavorited)] else [];
    assert q.conditions == cat + srch + fav;
    AllHoldAppend(cat + srch, fav, q.params, p, Text, Flag);
    AllHoldAppend(cat, srch, q.params, p, Text, Flag);
    if CategoryFilterOn(req.category) {
      AllHoldOne(Equals(Category, 1), q.params, p, Text, Flag);
      assert q.params[0] == req.category.value;
    }
    if SearchFilterOn(req.search) {
      var k := if CategoryFilterOn(req.category) then 2 else 1;
      AllHoldOne(AnyLike(SearchedColumns, k), q.params, p, Text, Flag);
      SearchClause(p, q.params, k, req.search.value);
    }
    if SwitchOn(req.favorites) {
      AllHoldOne(IsTrue(IsFavorited), q.params, p, Text, Flag);
    }
  }

  /** What Postgres returns for a built query: the rows whose clauses hold, ordered, limited,
      each grouped with its linked contexts. */
  function RunListQuery(t: Tables, q: Query<Column, SortKey>): seq<PromptRow> {
    var hits := Filter(t.prompts, (p: Prompt) => HoldsAll(q, p, Text, Flag));
    var ordered := SortDesc(hits, Key(q.orderBy));
    PromptRows(t, if q.limit.Some? then Take(ordered, q.limit.value) else ordered)
  }

  function MatchingPrompts(t: Tables, req: ListRequest): seq<Prompt> {
    Filter(t.prompts, (p: Prompt) => Matches(p, req))
  }

  /** The prompts the list shows, in the order shown: the three most recently used matching
      prompts when `recent` is on, and every matching prompt by last update otherwise. */
  function Ranked(t: Tables, req: ListRequest): seq<Prompt> {
    var matching := MatchingPrompts(t, req);
    if SwitchOn(req.recent) then Take(SortDesc(matching, Key(ByLastUsed)), 3)
    else SortDesc(matching, Key(ByUpdatedAt))
  }

  /** The list the route promises: the ranked prompts, each with its linked contexts. */
  function Listing(t: Tables, req: ListRequest): seq<PromptRow> {
    PromptRows(t, Ranked(t, req))
  }

  lemma ListQueryMeansListing(t: Tables, req: ListRequest, q: Query<Column, SortKey>)
    requires forall p :: HoldsAll(q, p, Text, Flag) <==> Matches(p, req)
    requires q.orderBy == (if SwitchOn(req.recent) then ByLastUsed else ByUpdatedAt)
    requires q.limit == (if SwitchOn(req.recent) then Some(3) else None)
    ensures RunListQuery(t, q) == Listing(t, req)
  {
    FilterAgrees(t.prompts, (p: Prompt) => HoldsAll(q, p, Text, Flag), (p: Prompt) => Matches(p, req));
  }

  /** `GET /api/prompts`; `fault` is a failing database call. */
  method List(db: Database, req: ListRequest, fault: bool) returns (r: Response<seq<PromptRow>>)
    ensures r == if fault then ServerError("Failed to fetch prompts") else Ok(Listing(db.Snapshot(), req))
  {
    var q := BuildListQuery(req);
    if fault {
      return ServerError("Failed to fetch prompts");
    }
    ListQueryMeansListing(db.Snapshot(), req, q);
    r := Ok(RunListQuery(db.Snapshot(), q));
  }

  // ---------------------------------------------------------------------------------------------
  // What the list contains

  lemma MatchingPromptsHas(t: Tables, req: ListRequest, p: Prompt)
    ensures multiset(MatchingPrompts(t, req))[p] == if Matches(p, req) then multiset(t.prompts)[p] else 0
    ensures p in MatchingPrompts(t, req) <==> p in t.prompts && Matches(p, req)
  {
    var f := (q: Prompt) => Matches(q, req);
    assert multiset(MatchingPrompts(t, req))[p] == if f(p) then multiset(t.prompts)[p] else 0;
  }

  /** Without `recent`: each matching prompt exactly as often as it is stored (once, ids being
      unique), no other prompt, and the most recently updated first. */
  lemma ListingAll(t: Tables, req: ListRequest)
    requires !SwitchOn(req.recent)
    ensures var ps := Ranked(t, req);
      && (forall p :: multiset(ps)[p] == if Matches(p, req) then multiset(t.prompts)[p] else 0)
      && (forall i, j | 0 <= i < j < |ps| :: ps[i].updatedAt >= ps[j].updatedAt)
  {
    var matching := MatchingPrompts(t, req);
    var ps := Ranked(t, req);
    SortDescSpec(matching, Key(ByUpdatedAt));
    forall p
      ensures multiset(ps)[p] == if Matches(p, req) then multiset(t.prompts)[p] else 0
    {
      MatchingPromptsHas(t, req, p);
    }
    forall i, j | 0 <= i < j < |ps|
      ensures ps[i].updatedAt >= ps[j].updatedAt
    {
      assert Key(ByUpdatedAt)(ps[i]) >= Key(ByUpdatedAt)(ps[j]);
    }
  }

  /** With `recent`: at most three prompts, each stored and matching the other filters, the
      most recently used first. */
  lemma ListingRecent(t: Tables, req: ListRequest)
    requires SwitchOn(req.recent)
    ensures var ps := Ranked(t, req);
      && |ps| <= 3
      && (forall i | 0 <= i < |ps| :: ps[i] in t.prompts && Matches(ps[i], req))
      && (forall i, j | 0 <= i < j < |ps| :: ps[i].lastUsed >= ps[j].lastUsed)
  {
    var matching := MatchingPrompts(t, req);
    var sorted := SortDesc(matching, Key(ByLastUsed));
    var ps := Ranked(t, req);
    SortDescSpec(matching, Key(ByLastUsed));
    forall i | 0 <= i < |ps|
      ensures ps[i] in t.prompts && Matches(ps[i], req)
    {
      assert ps[i] == sorted[i];
      assert sorted[i] in multiset(matching);
      MatchingPromptsHas(t, req, ps[i]);
    }
    forall i, j | 0 <= i < j < |ps|
      ensures ps[i].lastUsed >= ps[j].lastUsed
    {
      assert ps[i] == sorted[i] && ps[j] == sorted[j];
      assert Key(ByLastUsed)(sorted[i]) >= Key(ByLastUsed)(sorted[j]);
    }
  }

  /** With `recent` the listed prompts are the most recently used matching ones: no matching
      prompt left out was used later than one that is listed, and when fewer than three are
      listed none is left out. */
  lemma ListingRecentIsTop(t: Tables, req: ListRequest)
    requires SwitchOn(req.recent)
    ensures var ps := Ranked(t, req);
      && (forall p, i | p in t.prompts && Matches(p, req) && p !in ps && 0 <= i < |ps| ::
            ps[i].lastUsed >= p.lastUsed)
      && (|ps| < 3 ==> forall p | p in t.prompts && Matches(p, req) :: p in ps)
  {
    var ps := Ranked(t, req);
    var matching := MatchingPrompts(t, req);
    TopRows(matching, Key(ByLastUsed), 3);
    forall p | p in t.prompts && Matches(p, req)
      ensures p in matching
    {
      MatchingPromptsHas(t, req, p);
    }
    forall p, i | p in t.prompts && Matches(p, req) && p !in ps && 0 <= i < |ps|
      ensures ps[i].lastUsed >= p.lastUsed
    {
      assert Key(ByLastUsed)(ps[i]) >= Key(ByLastUsed)(p);
    }
  }

  /** Every row of the list is one ranked prompt with exactly the contexts linked to it. */
  lemma ListingRows(t: Tables, req: ListRequest)
    ensures var rows := Listing(t, req);
      && |rows| == |Ranked(t, req)|
      && forall i, ref | 0 <= i < |rows| ::
           && rows[i].prompt == Ranked(t, req)[i]
           && (ref in rows[i].linkedContexts <==>
                 exists c | c in t.contextProfiles :: (rows[i].prompt.id, c.id) in t.promptLinks && ref == ContextRef(c.id, c.name))
  {
  }

  /** Without wildcard characters in the term, search is case-insensitive substring search over
      the title, the description (never when it is `NULL`) and the content. */
  lemma SearchIsSubstring(p: Prompt, search: string)
    requires NoPatternChars(search)
    ensures SearchHitPrompt(p, search) <==>
      || Contains(Lower(p.title), Lower(search))
      || (p.description.Some? && Contains(Lower(p.description.value), Lower(search)))
      || Contains(Lower(p.content), Lower(search))
  {
    SearchHitIsSubstring(p.title, search);
    SearchHitIsSubstring(p.content, search);
    if p.description.Some? {
      SearchHitIsSubstring(p.description.value, search);
    }
  }

  // ---------------------------------------------------------------------------------------------
  // Creating a prompt

  /** The request body of `POST /api/prompts`, as destructured. */
  datatype CreateRequest = CreateRequest(
    title: Field<string>,
    description: Field<string>,
    content: Field<string>,
    category: Field<string>,
    contextProfileIds: Field<seq<int>>)

  const CreateFailed := "Failed to create prompt"

  const FieldsRequired := "Title and content are required"

  /** `!title || !content` is false. */
  predicate HasRequiredFields(b: CreateRequest) {
    Truthy(b.title) && Truthy(b.content)
  }

  /** The `INSERT INTO prompts …` of a valid body; the category defaults to `'General'`. */
  function InsertStmt(b: CreateRequest, now: int): Stmt
    requires HasRequiredFields(b)
  {
    InsertPrompt(b.title.value, Bound(b.description), b.content.value, WithDefault(b.category, "General"), now)
  }

  /** The row that insert adds to a store `t`. */
  function Inserted(t: Tables, b: CreateRequest, now: int): Prompt
    requires HasRequiredFields(b)
  {
    Prompt(t.nextId, b.title.value, Bound(b.description), b.content.value, WithDefault(b.category, "General"), false, now, now, now)
  }

  /** The answer and the new store of `POST /api/prompts` on a store `t`. `body` is `None` when
      the request is not JSON; `insertFault` and `linkFault` say whether the first and the second
      transaction fail in the database. The prompt is committed by the first transaction, before
      the link inserts run in a second one. */
  function CreateOutcome(t: Tables, body: Option<CreateRequest>, now: int, insertFault: bool, linkFault: bool): (Response<Prompt>, Tables) {
    if body.None? then (ServerError(CreateFailed), t)
    else if !HasRequiredFields(body.value) then (BadRequest(FieldsRequired), t)
    else if insertFault then (ServerError(CreateFailed), t)
    else
      var u := ExecStmt(t, InsertStmt(body.value, now)).value;
      var row := u.prompts[|u.prompts| - 1];
      match ProfileIdList(body.value.contextProfileIds)
      case None => (ServerError(CreateFailed), u)
      case Some(ids) =>
        match AddLinks(u, PromptLinks, row.id, ids, linkFault)
        case None => (ServerError(CreateFailed), u)
        case Some(v) => (Created(row), v)
  }

  /** `POST /api/prompts`. */
  method Create(db: Database, body: Option<CreateRequest>, now: int, insertFault: bool, linkFault: bool)
    returns (r: Response<Prompt>)
    modifies db
    ensures (r, db.Snapshot()) == CreateOutcome(old(db.Snapshot()), body, now, insertFault, linkFault)
    ensures old(db.Valid()) ==> db.Valid()
  {
    if body.None? {
      return ServerError(CreateFailed);
    }
    var b := body.value;
    if !Truthy(b.title) || !Truthy(b.content) {
      return BadRequest(FieldsRequired);
    }
    ExecAllOne(db.Snapshot(), InsertStmt(b, now));
    var ok := db.Transaction([InsertPrompt(b.title.value, Bound(b.description), b.content.value, WithDefault(b.category, "General"), now)], insertFault);
    if !ok {
      return ServerError(CreateFailed);
    }
    var prompt := db.prompts[|db.prompts| - 1];
    if b.contextProfileIds.Null? {
      return ServerError(CreateFailed);
    }
    var ids := if b.contextProfileIds.Given? then b.contextProfileIds.value else [];
    if |ids| > 0 {
      ok := db.Transaction(LinkStmts(PromptLinks, prompt.id, ids), linkFault);
      if !ok {
        return ServerError(CreateFailed);
      }
    }
    r := Created(prompt);
  }

  /** A create answers 400 exactly when the title or the content is falsy, and then writes
      nothing. When it answers 201 it has added exactly one prompt, under a fresh id, with the
      category defaulting to `'General'`, and the prompt link table has become its union with
      the listed pairs. It succeeds exactly when neither transaction fails and every listed
      profile exists. A 500 after the insert has committed leaves the new row stored without
      its links. Every outcome keeps the store's constraints. */
  lemma CreateEffect(t: Tables, body: Option<CreateRequest>, now: int, insertFault: bool, linkFault: bool)
    requires Wellformed(t)
    ensures var (r, u) := CreateOutcome(t, body, now, insertFault, linkFault);
      && Wellformed(u)
      && (r.BadRequest? <==> body.Some? && !HasRequiredFields(body.value))
      && (r.BadRequest? ==> u == t)
      && (r.ServerError? ==>
            u == if body.Some? && HasRequiredFields(body.value) && !insertFault
                 then t.(prompts := t.prompts + [Inserted(t, body.value, now)], nextId := t.nextId + 1)
                 else t)
      && (r.Created? <==>
            && body.Some? && HasRequiredFields(body.value) && !insertFault
            && ProfileIdList(body.value.contextProfileIds).Some?
            && var ids := ProfileIdList(body.value.contextProfileIds).value;
               ids == [] || (!linkFault && forall c | c in ids :: c in ProfileIds(t)))
      && (r.Created? ==>
            && r.body == Inserted(t, body.value, now)
            && r.body.id !in PromptIds(t)
            && u == t.(prompts := t.prompts + [r.body], nextId := t.nextId + 1,
                       promptLinks := t.promptLinks + LinkPairs(r.body.id, ProfileIdList(body.value.contextProfileIds).value)))
  {
    if body.Some? && HasRequiredFields(body.value) && !insertFault {
      var b := body.value;
      var row := Inserted(t, b, now);
      var u := ExecStmt(t, InsertStmt(b, now)).value;
      assert u == t.(prompts := t.prompts + [row], nextId := t.nextId + 1);
      ExecStmtKeepsWellformed(t, InsertStmt(b, now));
      assert ProfileIds(u) == ProfileIds(t);
      assert row.id in PromptIds(u);
      if ProfileIdList(b.contextProfileIds).Some? {
        AddLinksEffect(u, PromptLinks, row.id, ProfileIdList(b.contextProfileIds).value, linkFault);
      }
    }
  }

  /** Listing a profile id more than once, or in any repetition of the ids already listed,
      creates the same prompt and the same links. */
  lemma CreateIgnoresRepeatedIds(t: Tables, b: CreateRequest, ids: seq<int>, more: seq<int>, now: int, insertFault: bool, linkFault: bool)
    requires ids != [] && forall c | c in more :: c in ids
    ensures CreateOutcome(t, Some(b.(contextProfileIds := Given(ids + more))), now, insertFault, linkFault)
         == CreateOutcome(t, Some(b.(contextProfileIds := Given(ids))), now, insertFault, linkFault)
  {
    if HasRequiredFields(b) && !insertFault {
      var u := ExecStmt(t, InsertStmt(b, now)).value;
      AddLinksIgnoresRepeats(u, PromptLinks, u.prompts[|u.prompts| - 1].id, ids, more, linkFault);
    }
  }

  // ---------------------------------------------------------------------------------------------
  // The prompt and its links are not created as one unit

  /** The prompt is committed even when the create then answers 500: with `null` as the id list
      (`null.length` throws) and with the id of a profile that does not exist (the link insert
      is refused by its foreign key). */
  lemma CreateIsNotAtomic()
    ensures var t := Tables([], [], [], {}, {}, 1);
      && (var (r, u) := CreateOutcome(t, Some(CreateRequest(Given("t"), Undefined, Given("c"), Undefined, Null)), 0, false, false);
          r.ServerError? && |u.prompts| == 1)
      && (var (r, u) := CreateOutcome(t, Some(CreateRequest(Given("t"), Undefined, Given("c"), Undefined, Given([7]))), 0, false, false);
          r.ServerError? && |u.prompts| == 1)
  {
    var t := Tables([], [], [], {}, {}, 1);
    var u := ExecStmt(t, InsertPrompt("t", None, "c", Some("General"), 0)).value;
    AddLinksEffect(u, PromptLinks, 1, [7], false);
    assert 7 !in ProfileIds(u);
  }

  /** The create as one transaction: the id list is read before anything is written, and the
      prompt insert and its link inserts commit or roll back together (`fault` is a failure of
      that transaction). */
  function AtomicCreateOutcome(t: Tables, body: Option<CreateRequest>, now: int, fault: bool): (Response<Prompt>, Tables) {
    if body.None? then (ServerError(CreateFailed), t)
    else if !HasRequiredFields(body.value) then (BadRequest(FieldsRequired), t)
    else
      match ProfileIdList(body.value.contextProfileIds)
      case None => (ServerError(CreateFailed), t)
      case Some(ids) =>
        if fault then (ServerError(CreateFailed), t)
        else
          match ExecAll(t, [InsertStmt(body.value, now)] + LinkStmts(PromptLinks, t.nextId, ids))
          case None => (ServerError(CreateFailed), t)
          case Some(u) => (Created(Inserted(t, body.value, now)), u)
  }

  /** The atomic create is all or nothing: it answers 201 exactly when the body is valid, the id
      list is not `null`, the transaction does not fail and every listed profile exists; any
      other answer leaves the store as it was, and a 201 leaves exactly what the two-step create
      leaves when it succeeds. */
  lemma AtomicCreateAllOrNothing(t: Tables, body: Option<CreateRequest>, now: int, fault: bool)
    requires Wellformed(t)
    ensures var (r, u) := AtomicCreateOutcome(t, body, now, fault);
      && (!r.Created? ==> u == t)
      && (r.Created? ==> CreateOutcome(t, body, now, false, false) == (r, u))
      && (r.BadRequest? <==> body.Some? && !HasRequiredFields(body.value))
      && (r.Created? <==>
            && body.Some? && HasRequiredFields(body.value) && !fault
            && ProfileIdList(body.value.contextProfileIds).Some?
            && forall c | c in ProfileIdList(body.value.contextProfileIds).value :: c in ProfileIds(t))
  {
    if body.Some? && HasRequiredFields(body.value) && ProfileIdList(body.value.contextProfileIds).Some? && !fault {
      var b := body.value;
      var ids := ProfileIdList(b.contextProfileIds).value;
      var u := ExecStmt(t, InsertStmt(b, now)).value;
      assert ProfileIds(u) == ProfileIds(t);
      assert t.nextId in PromptIds(u);
      LinkStmtsEffect(u, PromptLinks, t.nextId, ids);
      ExecAllAppend(t, [InsertStmt(b, now)], LinkStmts(PromptLinks, t.nextId, ids));
      ExecAllOne(t, InsertStmt(b, now));
      assert u.prompts[|u.prompts| - 1] == Inserted(t, b, now);
      if ids == [] {
        assert LinkStmts(PromptLinks, t.nextId, ids) == [];
      }
    }
  }
}
