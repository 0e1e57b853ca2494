/** `GET /api/knowledge-bases` (the filtered list) and `POST /api/knowledge-bases` (create a
    knowledge base and link it to context profiles). */
module KnowledgeBasesRoute {
  import opened Wrappers
  import opened SqlText
  import opened Ordering
  import opened Query
  import opened Store
  import opened Joins
  import opened Api

  // ---------------------------------------------------------------------------------------------
  // The list query

  datatype Column = Title | Description | Content | Category

  /** The list has one order, `ORDER BY kb.updated_at DESC`. */
  datatype SortKey = ByUpdatedAt

  /** The query-string parameters `category` and `search`. */
  datatype ListRequest = ListRequest(category: Option<string>, search: Option<string>)

  function Text(k: KnowledgeBase, c: Column): Option<string> {
    match c
    case Title => Some(k.title)
    case Description => k.description
    case Content => Some(k.content)
    case Category => k.category
  }

  /** The table has no boolean column the list filters on. */
  function Flag(k: KnowledgeBase, c: Column): bool {
    false
  }

  function UpdatedAt(k: KnowledgeBase): int {
    k.updatedAt
  }

  /** `category && category !== 'All'`. */
  predicate CategoryFilterOn(category: Option<string>) {
    category.Some? && category.value != "" && category.value != "All"
  }

  /** `if (search)`. */
  predicate SearchFilterOn(search: Option<string>) {
    search.Some? && search.value != ""
  }

  const SearchedColumns: seq<Column> := [Title, Description, Content]

  predicate SearchHitKnowledgeBase(k: KnowledgeBase, search: string) {
    || SearchHit(k.title, search)
    || (k.description.Some? && SearchHit(k.description.value, search))
    || SearchHit(k.content, search)
  }

  /** The knowledge bases the list promises for a request, stated on the request itself. */
  predicate Matches(k: KnowledgeBase, req: ListRequest) {
    && (CategoryFilterOn(req.category) ==> k.category == req.category)
    && (SearchFilterOn(req.search) ==> SearchHitKnowledgeBase(k, req.search.value))
  }

  /** The `AND` clauses of the query; they depend only on which filters are on. */
  function Clauses(categoryOn: bool, searchOn: bool): seq<Condition<Column>> {
    (if categoryOn then [Equals(Category, 1)] else [])
    + (if searchOn then [AnyLike(SearchedColumns, if categoryOn then 2 else 1)] else [])
  }

  /** The bound values, in the order the filters are applied. */
  function Params(req: ListRequest): (r: seq<string>)
    ensures |r| == (if CategoryFilterOn(req.category) then 1 else 0) + (if SearchFilterOn(req.search) then 1 else 0)
    ensures CategoryFilterOn(req.category) ==> r[0] == req.category.value
    ensures SearchFilterOn(req.search) ==> r[|r| - 1] == SearchPattern(req.search.value)
  {
    (if CategoryFilterOn(req.category) then [req.category.value] else [])
    + (if SearchFilterOn(req.search) then [SearchPattern(req.search.value)] else [])
  }

  /** The list query as the route builds it: clauses appended and values pushed one filter at a
      time, with `paramCount` numbering the placeholders `$1 … $n`. */
  method BuildListQuery(req: ListRequest) returns (q: Query<Column, SortKey>)
    ensures q.conditions == Clauses(CategoryFilterOn(req.category), SearchFilterOn(req.search))
    ensures q.params == Params(req)
    ensures PlaceholdersBound(q)
    ensures forall k :: HoldsAll(q, k, Text, Flag) <==> Matches(k, req)
    ensures q.orderBy == ByUpdatedAt && q.limit == None
  {
    ghost var categoryOn, searchOn := CategoryFilterOn(req.category), SearchFilterOn(req.search);
    var conditions: seq<Condition<Column>> := [];
    var params: seq<string> := [];
    var paramCount := 0;
    if req.category.Some? && req.category.value != "" && req.category.value != "All" {
      paramCount := paramCount + 1;
      conditions := conditions + [Equals(Category, paramCount)];
      params := params + [req.category.value];
    }
    assert paramCount == |params| == (if categoryOn then 1 else 0);
    assert conditions == Clauses(categoryOn, false);
    if req.search.Some? && req.search.value != "" {
      paramCount := paramCount + 1;
      conditions := conditions + [AnyLike(SearchedColumns, paramCount)];
      params := params + ["%" + req.search.value + "%"];
    }
    assert params == Params(req);
    q := Query(conditions, params, ByUpdatedAt, None);
    ClausesSound(req, q);
  }

  /** Every placeholder of a built query is bound, and its `WHERE` clause holds of exactly the
      knowledge bases the request asks for. */
  lemma ClausesSound(req: ListRequest, q: Query<Column, SortKey>)
    requires q.conditions == Clauses(CategoryFilterOn(req.category), SearchFilterOn(req.search))
    requires q.params == Params(req)
    ensures PlaceholdersBound(q)
    ensures forall k :: HoldsAll(q, k, Text, Flag) <==> Matches(k, req)
  {
    forall k
      ensures HoldsAll(q, k, Text, Flag) <==> Matches(k, req)
    {
      ClausesMeanMatches(req, q, k);
    }
  }

  lemma SearchClause(k: KnowledgeBase, params: seq<string>, n: nat, search: string)
    requires 1 <= n <= |params| && params[n - 1] == SearchPattern(search)
    ensures Holds(AnyLike(SearchedColumns, n), params, k, Text, Flag) <==> SearchHitKnowledgeBase(k, search)
  {
    assert SearchedColumns[0] == Title && SearchedColumns[1] == Description && SearchedColumns[2] == Content;
  }

  lemma ClausesMeanMatches(req: ListRequest, q: Query<Column, SortKey>, k: KnowledgeBase)
    requires q.conditions == Clauses(CategoryFilterOn(req.category), SearchFilterOn(req.search))
    requires q.params == Params(req)
    ensures HoldsAll(q, k, Text, Flag) <==> Matches(k, req)
  {
    var cat: seq<Condition<Column>> := if CategoryFilterOn(req.category) then [Equals(Category, 1)] else [];
    var srch: seq<Condition<Column>> :=
      if SearchFilterOn(req.search) then [AnyLike(SearchedColumns, if CategoryFilterOn(req.category) then 2 else 1)] else [];
    assert q.conditions == cat + srch;
    AllHoldAppend(cat, srch, q.params, k, Text, Flag);
    if CategoryFilterOn(req.category) {
      AllHoldOne(Equals(Category, 1), q.params, k, Text, Flag);
      assert q.params[0] == req.category.value;
    }
    if SearchFilterOn(req.search) {
      var n := if CategoryFilterOn(req.category) then 2 else 1;
      AllHoldOne(AnyLike(SearchedColumns, n), q.params, k, Text, Flag);
      SearchClause(k, q.params, n, req.search.value);
    }
  }

  /** What Postgres returns for a built query: the rows whose clauses hold, most recently
      updated first, each grouped with its linked contexts. */
  function RunListQuery(t: Tables, q: Query<Column, SortKey>): seq<KnowledgeBaseRow> {
    var hits := Filter(t.knowledgeBases, (k: KnowledgeBase) => HoldsAll(q, k, Text, Flag));
    var ordered := SortDesc(hits, UpdatedAt);
    KnowledgeBaseRows(t, if q.limit.Some? then Take(ordered, q.limit.value) else ordered)
  }

  function MatchingKnowledgeBases(t: Tables, req: ListRequest): seq<KnowledgeBase> {
    Filter(t.knowledgeBases, (k: KnowledgeBase) => Matches(k, req))
  }

  /** The knowledge bases the list shows, in the order shown: every matching one, the most
      recently updated first. */
  function Ranked(t: Tables, req: ListRequest): seq<KnowledgeBase> {
    SortDesc(MatchingKnowledgeBases(t, req), UpdatedAt)
  }

  /** The list the route promises: the ranked knowledge bases, each with its linked contexts. */
  function Listing(t: Tables, req: ListRequest): seq<KnowledgeBaseRow> {
    KnowledgeBaseRows(t, Ranked(t, req))
  }

  lemma ListQueryMeansListing(t: Tables, req: ListRequest, q: Query<Column, SortKey>)
    requires forall k :: HoldsAll(q, k, Text, Flag) <==> Matches(k, req)
    requires q.orderBy == ByUpdatedAt && q.limit == None
    ensures RunListQuery(t, q) == Listing(t, req)
  {
    FilterAgrees(t.knowledgeBases, (k: KnowledgeBase) => HoldsAll(q, k, Text, Flag), (k: KnowledgeBase) => Matches(k, req));
  }

  /** `GET /api/knowledge-bases`; `fault` is a failing database call. */
  method List(db: Database, req: ListRequest, fault: bool) returns (r: Response<seq<KnowledgeBaseRow>>)
    ensures r == if fault then ServerError("Failed to fetch knowledge bases") else Ok(Listing(db.Snapshot(), req))
  {
    var q := BuildListQuery(req);
    if fault {
      return ServerError("Failed to fetch knowledge bases");
    }
    ListQueryMeansListing(db.Snapshot(), req, q);
    r := Ok(RunListQuery(db.Snapshot(), q));
  }

  // ---------------------------------------------------------------------------------------------
  // What the list contains

  lemma MatchingKnowledgeBasesHas(t: Tables, req: ListRequest, k: KnowledgeBase)
    ensures multiset(MatchingKnowledgeBases(t, req))[k] == if Matches(k, req) then multiset(t.knowledgeBases)[k] else 0
  {
    var f := (x: KnowledgeBase) => Matches(x, req);
    assert multiset(MatchingKnowledgeBases(t, req))[k] == if f(k) then multiset(t.knowledgeBases)[k] else 0;
  }

  /** Every matching knowledge base exactly as often as it is stored (once, ids being unique),
      no other, the most recently updated first; there is no limit. */
  lemma ListingAll(t: Tables, req: ListRequest)
    ensures var ks := Ranked(t, req);
      && (forall k :: multiset(ks)[k] == if Matches(k, req) then multiset(t.knowledgeBases)[k] else 0)
      && (forall i, j | 0 <= i < j < |ks| :: ks[i].updatedAt >= ks[j].updatedAt)
  {
    var ks := Ranked(t, req);
    SortDescSpec(MatchingKnowledgeBases(t, req), UpdatedAt);
    forall k
      ensures multiset(ks)[k] == if Matches(k, req) then multiset(t.knowledgeBases)[k] else 0
    {
      MatchingKnowledgeBasesHas(t, req, k);
    }
    forall i, j | 0 <= i < j < |ks|
      ensures ks[i].updatedAt >= ks[j].updatedAt
    {
      assert UpdatedAt(ks[i]) >= UpdatedAt(ks[j]);
    }
  }

  /** Every row of the list is one ranked knowledge base with exactly the contexts linked to
      it. */
  lemma ListingRows(t: Tables, req: ListRequest)
    ensures var rows := Listing(t, req);
      && |rows| == |Ranked(t, req)|
      && forall i, ref | 0 <= i < |rows| ::
           && rows[i].knowledgeBase == Ranked(t, req)[i]
           && (ref in rows[i].linkedContexts <==>
                 exists c | c in t.contextProfiles :: (rows[i].knowledgeBase.id, c.id) in t.knowledgeLinks && ref == ContextRef(c.id, c.name))
  {
  }

  /** Without wildcard characters in the term, search is case-insensitive substring search over
      the title, the description (never when it is `NULL`) and the content. */
  lemma SearchIsSubstring(k: KnowledgeBase, search: string)
    requires NoPatternChars(search)
    ensures SearchHitKnowledgeBase(k, search) <==>
      || Contains(Lower(k.title), Lower(search))
      || (k.description.Some? && Contains(Lower(k.description.value), Lower(search)))
      || Contains(Lower(k.content), Lower(search))
  {
    SearchHitIsSubstring(k.title, search);
    SearchHitIsSubstring(k.content, search);
    if k.description.Some? {
      SearchHitIsSubstring(k.description.value, search);
    }
  }

  // ---------------------------------------------------------------------------------------------
  // Creating a knowledge base

  /** The request body of `POST /api/knowledge-bases`, as destructured. */
  datatype CreateRequest = CreateRequest(
    title: Field<string>,
    description: Field<string>,
    content: Field<string>,
    category: Field<string>,
    contextProfileIds: Field<seq<int>>)

  const CreateFailed := "Failed to create knowledge base"

  const FieldsRequired := "Title and content are required"

  /** `!title || !content` is false. */
  predicate HasRequiredFields(b: CreateRequest) {
    Truthy(b.title) && Truthy(b.content)
  }

  /** The `INSERT INTO knowledge_bases …` of a valid body; the category defaults to
      `'General'`. */
  function InsertStmt(b: CreateRequest, now: int): Stmt
    requires HasRequiredFields(b)
  {
    InsertKnowledgeBase(b.title.value, Bound(b.description), b.content.value, WithDefault(b.category, "General"), now)
  }

  /** The row that insert adds to a store `t`. */
  function Inserted(t: Tables, b: CreateRequest, now: int): KnowledgeBase
    requires HasRequiredFields(b)
  {
    KnowledgeBase(t.nextId, b.title.value, Bound(b.description), b.content.value, WithDefault(b.category, "General"), now, now)
  }

  /** The answer and the new store of `POST /api/knowledge-bases` on a store `t`. `body` is
      `None` when the request is not JSON; `insertFault` and `linkFault` say whether the first
      and the second transaction fail in the database. The knowledge base is committed by the
      first transaction, before the link inserts run in a second one. */
  function CreateOutcome(t: Tables, body: Option<CreateRequest>, now: int, insertFault: bool, linkFault: bool): (Response<KnowledgeBase>, Tables) {
    if body.None? then (ServerError(CreateFailed), t)
    else if !HasRequiredFields(body.value) then (BadRequest(FieldsRequired), t)
    else if insertFault then (ServerError(CreateFailed), t)
    else
      var u := ExecStmt(t, InsertStmt(body.value, now)).value;
      var row := u.knowledgeBases[|u.knowledgeBases| - 1];
      match ProfileIdList(body.value.contextProfileIds)
      case None => (ServerError(CreateFailed), u)
      case Some(ids) =>
        match AddLinks(u, KnowledgeLinks, row.id, ids, linkFault)
        case None => (ServerError(CreateFailed), u)
        case Some(v) => (Created(row), v)
  }

  /** `POST /api/knowledge-bases`. */
  method Create(db: Database, body: Option<CreateRequest>, now: int, insertFault: bool, linkFault: bool)
    returns (r: Response<KnowledgeBase>)
    modifies db
    ensures (r, db.Snapshot()) == CreateOutcome(old(db.Snapshot()), body, now, insertFault, linkFault)
    ensures old(db.Valid()) ==> db.Valid()
  {
    if body.None? {
      return ServerError(CreateFailed);
    }
    var b := body.value;
    if !Truthy(b.title) || !Truthy(b.content) {
      return BadRequest(FieldsRequired);
    }
    ExecAllOne(db.Snapshot(), InsertStmt(b, now));
    var ok := db.Transaction([InsertKnowledgeBase(b.title.value, Bound(b.description), b.content.value, WithDefault(b.category, "General"), now)], insertFault);
    if !ok {
      return ServerError(CreateFailed);
    }
    var knowledgeBase := db.knowledgeBases[|db.knowledgeBases| - 1];
    if b.contextProfileIds.Null? {
      return ServerError(CreateFailed);
    }
    var ids := if b.contextProfileIds.Given? then b.contextProfileIds.value else [];
    if |ids| > 0 {
      ok := db.Transaction(LinkStmts(KnowledgeLinks, knowledgeBase.id, ids), linkFault);
      if !ok {
        return ServerError(CreateFailed);
      }
    }
    r := Created(knowledgeBase);
  }

  /** A create answers 400 exactly when the title or the content is falsy, and then writes
      nothing. When it answers 201 it has added exactly one knowledge base, under a fresh id,
      with the category defaulting to `'General'`, and the knowledge link table has become its
      union with the listed pairs. It succeeds exactly when neither transaction fails and every
      listed profile exists. A 500 after the insert has committed leaves the new row stored without
      its links. Every outcome keeps the store's constraints. */
  lemma CreateEffect(t: Tables, body: Option<CreateRequest>, now: int, insertFault: bool, linkFault: bool)
    requires Wellformed(t)
    ensures var (r, u) := CreateOutcome(t, body, now, insertFault, linkFault);
      && Wellformed(u)
      && (r.BadRequest? <==> body.Some? && !HasRequiredFields(body.value))
      && (r.BadRequest? ==> u == t)
      && (r.ServerError? ==>
            u == if body.Some? && HasRequiredFields(body.value) && !insertFault
                 then t.(knowledgeBases := t.knowledgeBases + [Inserted(t, body.value, now)], nextId := t.nextId + 1)
                 else t)
      && (r.Created? <==>
            && body.Some? && HasRequiredFields(body.value) && !insertFault
            && ProfileIdList(body.value.contextProfileIds).Some?
            && var ids := ProfileIdList(body.value.contextProfileIds).value;
               ids == [] || (!linkFault && forall c | c in ids :: c in ProfileIds(t)))
      && (r.Created? ==>
            && r.body == Inserted(t, body.value, now)
            && r.body.id !in KnowledgeBaseIds(t)
            && u == t.(knowledgeBases := t.knowledgeBases + [r.body], nextId := t.nextId + 1,
                       knowledgeLinks := t.knowledgeLinks + LinkPairs(r.body.id, ProfileIdList(body.value.contextProfileIds).value)))
  {
    if body.Some? && HasRequiredFields(body.value) && !insertFault {
      var b := body.value;
      var row := Inserted(t, b, now);
      var u := ExecStmt(t, InsertStmt(b, now)).value;
      assert u == t.(knowledgeBases := t.knowledgeBases + [row], nextId := t.nextId + 1);
      ExecStmtKeepsWellformed(t, InsertStmt(b, now));
      assert ProfileIds(u) == ProfileIds(t);
      assert row.id in KnowledgeBaseIds(u);
      if ProfileIdList(b.contextProfileIds).Some? {
        AddLinksEffect(u, KnowledgeLinks, row.id, ProfileIdList(b.contextProfileIds).value, linkFault);
      }
    }
  }

  /** Listing a profile id more than once creates the same knowledge base and the same links. */
  lemma CreateIgnoresRepeatedIds(t: Tables, b: CreateRequest, ids: seq<int>, more: seq<int>, now: int, insertFault: bool, linkFault: bool)
    requires ids != [] && forall c | c in more :: c in ids
    ensures CreateOutcome(t, Some(b.(contextProfileIds := Given(ids + more))), now, insertFault, linkFault)
         == CreateOutcome(t, Some(b.(contextProfileIds := Given(ids))), now, insertFault, linkFault)
  {
    if HasRequiredFields(b) && !insertFault {
      var u := ExecStmt(t, InsertStmt(b, now)).value;
      AddLinksIgnoresRepeats(u, KnowledgeLinks, u.knowledgeBases[|u.knowledgeBases| - 1].id, ids, more, linkFault);
    }
  }

  // ---------------------------------------------------------------------------------------------
  // The knowledge base and its links are not created as one unit

  /** The knowledge base is committed even when the create then answers 500: with `null` as the
      id list and with the id of a profile that does not exist. */
  lemma CreateIsNotAtomic()
    ensures var t := Tables([], [], [], {}, {}, 1);
      && (var (r, u) := CreateOutcome(t, Some(CreateRequest(Given("t"), Undefined, Given("c"), Undefined, Null)), 0, false, false);
          r.ServerError? && |u.knowledgeBases| == 1)
      && (var (r, u) := CreateOutcome(t, Some(CreateRequest(Given("t"), Undefined, Given("c"), Undefined, Given([7]))), 0, false, false);
          r.ServerError? && |u.knowledgeBases| == 1)
  {
    var t := Tables([], [], [], {}, {}, 1);
    var u := ExecStmt(t, InsertKnowledgeBase("t", None, "c", Some("General"), 0)).value;
    AddLinksEffect(u, KnowledgeLinks, 1, [7], false);
    assert 7 !in ProfileIds(u);
  }

  /** The create as one transaction: the id list is read before anything is written, and the
      insert and its link inserts commit or roll back together. */
  function AtomicCreateOutcome(t: Tables, body: Option<CreateRequest>, now: int, fault: bool): (Response<KnowledgeBase>, Tables) {
    if body.None? then (ServerError(CreateFailed), t)
    else if !HasRequiredFields(body.value) then (BadRequest(FieldsRequired), t)
    else
      match ProfileIdList(body.value.contextProfileIds)
      case None => (ServerError(CreateFailed), t)
      case Some(ids) =>
        if fault then (ServerError(CreateFailed), t)
        else
          match ExecAll(t, [InsertStmt(body.value, now)] + LinkStmts(KnowledgeLinks, t.nextId, ids))
          case None => (ServerError(CreateFailed), t)
          case Some(u) => (Created(Inserted(t, body.value, now)), u)
  }

  /** The atomic create is all or nothing: it answers 201 exactly when the body is valid, the id
      list is not `null`, the transaction does not fail and every listed profile exists; any
      other answer leaves the store as it was, and a 201 leaves exactly what the two-step create
      leaves when it succeeds. */
  lemma AtomicCreateAllOrNothing(t: Tables, body: Option<CreateRequest>, now: int, fault: bool)
    requires Wellformed(t)
    ensures var (r, u) := AtomicCreateOutcome(t, body, now, fault);
      && (!r.Created? ==> u == t)
      && (r.Created? ==> CreateOutcome(t, body, now, false, false) == (r, u))
      && (r.BadRequest? <==> body.Some? && !HasRequiredFields(body.value))
      && (r.Created? <==>
            && body.Some? && HasRequiredFields(body.value) && !fault
            && ProfileIdList(body.value.contextProfileIds).Some?
            && forall c | c in ProfileIdList(body.value.contextProfileIds).value :: c in ProfileIds(t))
  {
    if body.Some? && HasRequiredFields(body.value) && ProfileIdList(body.value.contextProfileIds).Some? && !fault {
      var b := body.value;
      var ids := ProfileIdList(b.contextProfileIds).value;
      var u := ExecStmt(t, InsertStmt(b, now)).value;
      assert ProfileIds(u) == ProfileIds(t);
      assert t.nextId in KnowledgeBaseIds(u);
      LinkStmtsEffect(u, KnowledgeLinks, t.nextId, ids);
      ExecAllAppend(t, [InsertStmt(b, now)], LinkStmts(KnowledgeLinks, t.nextId, ids));
      ExecAllOne(t, InsertStmt(b, now));
      assert u.knowledgeBases[|u.knowledgeBases| - 1] == Inserted(t, b, now);
      if ids == [] {
        assert LinkStmts(KnowledgeLinks, t.nextId, ids) == [];
      }
    }
  }
}
