/** The database behind the routes, as an in-memory store: three entity tables, two link
    tables of unique (entity id, context profile id) pairs, and the counter that hands out
    fresh ids. Every SQL statement the routes send is a `Stmt`; `ExecStmt` and `ExecAll` give
    its meaning, and `Database` runs statements, and transactions of them, in place. */
module Store {
  import opened Wrappers

  datatype Prompt = Prompt(
    id: int,
    title: string,
    description: Option<string>,
    content: string,
    category: Option<string>,
    isFavorited: bool,
    createdAt: int,
    updatedAt: int,
    lastUsed: int)

  datatype KnowledgeBase = KnowledgeBase(
    id: int,
    title: string,
    description: Option<string>,
    content: string,
    category: Option<string>,
    createdAt: int,
    updatedAt: int)

  datatype ContextProfile = ContextProfile(
    id: int,
    name: string,
    description: Option<string>,
    jsonData: string,
    createdAt: int,
    updatedAt: int)

  /** A row of a link table: (entity id, context profile id). */
  type Link = (int, int)

  datatype LinkTable = PromptLinks | KnowledgeLinks

  datatype EntityTable = PromptsTable | KnowledgeBasesTable | ContextProfilesTable

  datatype Tables = Tables(
    prompts: seq<Prompt>,
    knowledgeBases: seq<KnowledgeBase>,
    contextProfiles: seq<ContextProfile>,
    promptLinks: set<Link>,
    knowledgeLinks: set<Link>,
    nextId: int)

  function PromptIds(t: Tables): set<int> {
    set p | p in t.prompts :: p.id
  }

  function KnowledgeBaseIds(t: Tables): set<int> {
    set k | k in t.knowledgeBases :: k.id
  }

  function ProfileIds(t: Tables): set<int> {
    set c | c in t.contextProfiles :: c.id
  }

  function Links(t: Tables, table: LinkTable): set<Link> {
    match table
    case PromptLinks => t.promptLinks
    case KnowledgeLinks => t.knowledgeLinks
  }

  /** The ids of the table whose rows the first column of a link table references. */
  function LinkedEntityIds(t: Tables, table: LinkTable): set<int> {
    match table
    case PromptLinks => PromptIds(t)
    case KnowledgeLinks => KnowledgeBaseIds(t)
  }

  function WithLinks(t: Tables, table: LinkTable, links: set<Link>): Tables {
    match table
    case PromptLinks => t.(promptLinks := links)
    case KnowledgeLinks => t.(knowledgeLinks := links)
  }

  /** Every link row references an existing entity and an existing context profile. */
  predicate LinksIntact(t: Tables) {
    && (forall l | l in t.promptLinks :: l.0 in PromptIds(t) && l.1 in ProfileIds(t))
    && (forall l | l in t.knowledgeLinks :: l.0 in KnowledgeBaseIds(t) && l.1 in ProfileIds(t))
  }

  /** The constraints the store keeps: primary keys unique, every id below the counter, and
      the foreign keys of both link tables. */
  predicate Wellformed(t: Tables) {
    && (forall i, j | 0 <= i < j < |t.prompts| :: t.prompts[i].id != t.prompts[j].id)
    && (forall i, j | 0 <= i < j < |t.knowledgeBases| :: t.knowledgeBases[i].id != t.knowledgeBases[j].id)
    && (forall i, j | 0 <= i < j < |t.contextProfiles| :: t.contextProfiles[i].id != t.contextProfiles[j].id)
    && (forall p | p in t.prompts :: p.id < t.nextId)
    && (forall k | k in t.knowledgeBases :: k.id < t.nextId)
    && (forall c | c in t.contextProfiles :: c.id < t.nextId)
    && LinksIntact(t)
  }

  /** The statements the routes send. An insert gets the next id, `is_favorited` false, and
      the statement's time as `created_at`, `updated_at` and `last_used`. */
  datatype Stmt =
    | InsertPrompt(title: string, description: Option<string>, content: string, category: Option<string>, now: int)
    | InsertKnowledgeBase(title: string, description: Option<string>, content: string, category: Option<string>, now: int)
    | InsertContextProfile(name: string, description: Option<string>, jsonData: string, now: int)
    /** `INSERT INTO <links> … ON CONFLICT DO NOTHING`. */
    | InsertLink(table: LinkTable, entityId: int, profileId: int)
    /** `DELETE FROM <links>`. */
    | DeleteLinks(table: LinkTable)
    /** `DELETE FROM <entities>`. */
    | DeleteEntities(entities: EntityTable)

  predicate AnyEntityIn(links: set<Link>, ids: set<int>) {
    exists l | l in links :: l.0 in ids
  }

  predicate AnyProfileIn(links: set<Link>, ids: set<int>) {
    exists l | l in links :: l.1 in ids
  }

  /** What one statement does, or `None` when a foreign key refuses it. */
  function ExecStmt(t: Tables, s: Stmt): Option<Tables> {
    match s
    case InsertPrompt(title, description, content, category, now) =>
      var row := Prompt(t.nextId, title, description, content, category, false, now, now, now);
      Some(t.(prompts := t.prompts + [row], nextId := t.nextId + 1))
    case InsertKnowledgeBase(title, description, content, category, now) =>
      var row := KnowledgeBase(t.nextId, title, description, content, category, now, now);
      Some(t.(knowledgeBases := t.knowledgeBases + [row], nextId := t.nextId + 1))
    case InsertContextProfile(name, description, jsonData, now) =>
      var row := ContextProfile(t.nextId, name, description, jsonData, now, now);
      Some(t.(contextProfiles := t.contextProfiles + [row], nextId := t.nextId + 1))
    case InsertLink(table, e, c) =>
      if e in LinkedEntityIds(t, table) && c in ProfileIds(t) then
        Some(WithLinks(t, table, Links(t, table) + {(e, c)}))
      else None
    case DeleteLinks(table) =>
      Some(WithLinks(t, table, {}))
    case DeleteEntities(PromptsTable) =>
      if AnyEntityIn(t.promptLinks, PromptIds(t)) then None else Some(t.(prompts := []))
    case DeleteEntities(KnowledgeBasesTable) =>
      if AnyEntityIn(t.knowledgeLinks, KnowledgeBaseIds(t)) then None else Some(t.(knowledgeBases := []))
    case DeleteEntities(ContextProfilesTable) =>
      if AnyProfileIn(t.promptLinks, ProfileIds(t)) || AnyProfileIn(t.knowledgeLinks, ProfileIds(t)) then None
      else Some(t.(contextProfiles := []))
  }

  /** The statements one after another; `None` as soon as one is refused. */
  function ExecAll(t: Tables, stmts: seq<Stmt>): Option<Tables>
    decreases |stmts|
  {
    if stmts == [] then Some(t)
    else match ExecStmt(t, stmts[0])
      case None => None
      case Some(u) => ExecAll(u, stmts[1..])
  }

  /** The link inserts built by `context_profile_ids.map(…)`. */
  function LinkStmts(table: LinkTable, entityId: int, profileIds: seq<int>): (r: seq<Stmt>)
    ensures |r| == |profileIds|
    ensures forall i | 0 <= i < |r| :: r[i] == InsertLink(table, entityId, profileIds[i])
  {
    if profileIds == [] then []
    else [InsertLink(table, entityId, profileIds[0])] + LinkStmts(table, entityId, profileIds[1..])
  }

  function LinkPairs(entityId: int, profileIds: seq<int>): set<Link> {
    set c | c in profileIds :: (entityId, c)
  }

  // ---------------------------------------------------------------------------------------------
  // Lemmas about statements

  lemma {:induction false} ExecAllAppend(t: Tables, a: seq<Stmt>, b: seq<Stmt>)
    ensures ExecAll(t, a + b) == match ExecAll(t, a) { case None => None case Some(u) => ExecAll(u, b) }
    decreases |a|
  {
    if a == [] {
      assert a + b == b;
    } else {
      assert (a + b)[0] == a[0] && (a + b)[1..] == a[1..] + b;
      match ExecStmt(t, a[0])
      case None =>
      case Some(u) => ExecAllAppend(u, a[1..], b);
    }
  }

  /** Running a prefix and then one more statement. */
  lemma ExecAllSnoc(t: Tables, a: seq<Stmt>, s: Stmt)
    ensures ExecAll(t, a + [s]) == match ExecAll(t, a) { case None => None case Some(u) => ExecStmt(u, s) }
  {
    ExecAllAppend(t, a, [s]);
    match ExecAll(t, a)
    case None =>
    case Some(u) =>
      assert [s][1..] == [];
  }

  /** Every statement keeps the store's constraints. */
  lemma ExecStmtKeepsWellformed(t: Tables, s: Stmt)
    requires Wellformed(t)
    ensures ExecStmt(t, s).Some? ==> Wellformed(ExecStmt(t, s).value)
  {
    if s.InsertPrompt? || s.InsertKnowledgeBase? || s.InsertContextProfile? {
      InsertKeepsWellformed(t, s);
    } else {
      LinkOrDeleteKeepsWellformed(t, s);
    }
  }

  lemma InsertKeepsWellformed(t: Tables, s: Stmt)
    requires Wellformed(t)
    requires s.InsertPrompt? || s.InsertKnowledgeBase? || s.InsertContextProfile?
    ensures ExecStmt(t, s).Some? && Wellformed(ExecStmt(t, s).value)
  {
    var u := ExecStmt(t, s).value;
    match s
    case InsertPrompt(_, _, _, _, _) =>
      assert PromptIds(t) <= PromptIds(u);
    case InsertKnowledgeBase(_, _, _, _, _) =>
      assert KnowledgeBaseIds(t) <= KnowledgeBaseIds(u);
    case InsertContextProfile(_, _, _, _) =>
      assert ProfileIds(t) <= ProfileIds(u);
  }

  lemma LinkOrDeleteKeepsWellformed(t: Tables, s: Stmt)
    requires Wellformed(t)
    requires s.InsertLink? || s.DeleteLinks? || s.DeleteEntities?
    ensures ExecStmt(t, s).Some? ==> Wellformed(ExecStmt(t, s).value)
  {
  }

  lemma {:induction false} ExecAllKeepsWellformed(t: Tables, stmts: seq<Stmt>)
    requires Wellformed(t)
    ensures ExecAll(t, stmts).Some? ==> Wellformed(ExecAll(t, stmts).value)
    decreases |stmts|
  {
    if stmts != [] {
      ExecStmtKeepsWellformed(t, stmts[0]);
      match ExecStmt(t, stmts[0])
      case None =>
      case Some(u) => ExecAllKeepsWellformed(u, stmts[1..]);
    }
  }

  /** Replacing one link table touches nothing else. */
  lemma WithLinksFacts(t: Tables, table: LinkTable, links: set<Link>)
    ensures Links(WithLinks(t, table, links), table) == links
    ensures LinkedEntityIds(WithLinks(t, table, links), table) == LinkedEntityIds(t, table)
    ensures ProfileIds(WithLinks(t, table, links)) == ProfileIds(t)
    ensures forall more :: WithLinks(WithLinks(t, table, links), table, more) == WithLinks(t, table, more)
    ensures WithLinks(t, table, Links(t, table)) == t
  {
    match table
    case PromptLinks =>
    case KnowledgeLinks =>
  }

  /** The link inserts of one create: all of them succeed exactly when the entity and every
      listed profile exist, and then the link table becomes its union with the new pairs, so a
      pair that is listed twice or already stored adds nothing. */
  lemma {:induction false} LinkStmtsEffect(t: Tables, table: LinkTable, e: int, ids: seq<int>)
    ensures ExecAll(t, LinkStmts(table, e, ids)) ==
      if ids == [] || (e in LinkedEntityIds(t, table) && forall c | c in ids :: c in ProfileIds(t))
      then Some(WithLinks(t, table, Links(t, table) + LinkPairs(e, ids)))
      else None
    decreases |ids|
  {
    WithLinksFacts(t, table, Links(t, table));
    if ids == [] {
      assert LinkStmts(table, e, ids) == [];
      assert LinkPairs(e, ids) == {};
      assert Links(t, table) + {} == Links(t, table);
    } else {
      var stmts := LinkStmts(table, e, ids);
      assert stmts[0] == InsertLink(table, e, ids[0]);
      assert stmts[1..] == LinkStmts(table, e, ids[1..]);
      assert LinkPairs(e, ids) == {(e, ids[0])} + LinkPairs(e, ids[1..]) by {
        assert ids == [ids[0]] + ids[1..];
      }
      if e in LinkedEntityIds(t, table) && ids[0] in ProfileIds(t) {
        var u := WithLinks(t, table, Links(t, table) + {(e, ids[0])});
        WithLinksFacts(t, table, Links(t, table) + {(e, ids[0])});
        LinkStmtsEffect(u, table, e, ids[1..]);
        assert Links(u, table) + LinkPairs(e, ids[1..]) == Links(t, table) + LinkPairs(e, ids);
      } else {
        assert ExecStmt(t, stmts[0]) == None;
      }
    }
  }

  /** The second transaction of a create: one link insert per listed id, sent together and
      skipped when the list is empty; `None` when a foreign key refuses one of them or the
      connection fails (`fault`). */
  function AddLinks(t: Tables, table: LinkTable, entityId: int, profileIds: seq<int>, fault: bool): Option<Tables> {
    if |profileIds| == 0 then Some(t)
    else if fault then None
    else ExecAll(t, LinkStmts(table, entityId, profileIds))
  }

  /** The link transaction succeeds exactly when there is nothing to insert, or when it does not
      fail and the entity and every listed profile exist; it then only adds the listed pairs to
      the link table, and keeps the store's constraints. */
  lemma AddLinksEffect(t: Tables, table: LinkTable, e: int, ids: seq<int>, fault: bool)
    ensures AddLinks(t, table, e, ids, fault) ==
      if ids == [] || (!fault && e in LinkedEntityIds(t, table) && forall c | c in ids :: c in ProfileIds(t))
      then Some(WithLinks(t, table, Links(t, table) + LinkPairs(e, ids)))
      else None
    ensures Wellformed(t) && AddLinks(t, table, e, ids, fault).Some? ==> Wellformed(AddLinks(t, table, e, ids, fault).value)
  {
    LinkStmtsEffect(t, table, e, ids);
    if Wellformed(t) {
      ExecAllKeepsWellformed(t, LinkStmts(table, e, ids));
    }
    if ids == [] {
      assert LinkPairs(e, ids) == {};
      WithLinksFacts(t, table, Links(t, table));
      assert Links(t, table) + {} == Links(t, table);
    }
  }

  /** Listing a profile id twice, or one already linked, adds nothing: the outcome depends only
      on the set of listed ids. */
  lemma AddLinksIgnoresRepeats(t: Tables, table: LinkTable, e: int, ids: seq<int>, more: seq<int>, fault: bool)
    requires ids != [] && forall c | c in more :: c in ids
    ensures AddLinks(t, table, e, ids + more, fault) == AddLinks(t, table, e, ids, fault)
  {
    AddLinksEffect(t, table, e, ids, fault);
    AddLinksEffect(t, table, e, ids + more, fault);
    assert LinkPairs(e, ids + more) == LinkPairs(e, ids);
    assert forall c | c in ids + more :: c in ids;
  }

  /** A single statement as a transaction. */
  lemma ExecAllOne(t: Tables, s: Stmt)
    ensures ExecAll(t, [s]) == ExecStmt(t, s)
  {
    assert [s][1..] == [];
    match ExecStmt(t, s)
    case None =>
    case Some(u) =>
  }

  // ---------------------------------------------------------------------------------------------
  // The store, updated in place

  class Database {
    var prompts: seq<Prompt>
    var knowledgeBases: seq<KnowledgeBase>
    var contextProfiles: seq<ContextProfile>
    var promptLinks: set<Link>
    var knowledgeLinks: set<Link>
    var nextId: int

    function Snapshot(): Tables
      reads this
    {
      Tables(prompts, knowledgeBases, contextProfiles, promptLinks, knowledgeLinks, nextId)
    }

    ghost predicate Valid()
      reads this
    {
      Wellformed(Snapshot())
    }

    /** An empty database whose first id is 1. */
    constructor ()
      ensures Snapshot() == Tables([], [], [], {}, {}, 1)
      ensures Valid()
    {
      prompts, knowledgeBases, contextProfiles := [], [], [];
      promptLinks, knowledgeLinks := {}, {};
      nextId := 1;
    }

    /** Puts back a snapshot: the rollback of a transaction. */
    method Restore(t: Tables)
      modifies this
      ensures Snapshot() == t
    {
      prompts, knowledgeBases, contextProfiles := t.prompts, t.knowledgeBases, t.contextProfiles;
      promptLinks, knowledgeLinks := t.promptLinks, t.knowledgeLinks;
      nextId := t.nextId;
    }

    /** One statement; a refused statement changes nothing. */
    method Execute(s: Stmt) returns (ok: bool)
      modifies this
      ensures ok == ExecStmt(old(Snapshot()), s).Some?
      ensures Snapshot() == if ok then ExecStmt(old(Snapshot()), s).value else old(Snapshot())
      ensures old(Valid()) ==> Valid()
    {
      var t := Snapshot();
      if Wellformed(t) {
        ExecStmtKeepsWellformed(t, s);
      }
      ok := true;
      match s
      case InsertPrompt(title, description, content, category, now) =>
        prompts := prompts + [Prompt(nextId, title, description, content, category, false, now, now, now)];
        nextId := nextId + 1;
      case InsertKnowledgeBase(title, description, content, category, now) =>
        knowledgeBases := knowledgeBases + [KnowledgeBase(nextId, title, description, content, category, now, now)];
        nextId := nextId + 1;
      case InsertContextProfile(name, description, jsonData, now) =>
        contextProfiles := contextProfiles + [ContextProfile(nextId, name, description, jsonData, now, now)];
        nextId := nextId + 1;
      case InsertLink(table, e, c) =>
        if e in LinkedEntityIds(t, table) && c in ProfileIds(t) {
          if table == PromptLinks {
            promptLinks := promptLinks + {(e, c)};
          } else {
            knowledgeLinks := knowledgeLinks + {(e, c)};
          }
        } else {
          ok := false;
        }
      case DeleteLinks(table) =>
        if table == PromptLinks {
          promptLinks := {};
        } else {
          knowledgeLinks := {};
        }
      case DeleteEntities(PromptsTable) =>
        if AnyEntityIn(promptLinks, PromptIds(t)) {
          ok := false;
        } else {
          prompts := [];
        }
      case DeleteEntities(KnowledgeBasesTable) =>
        if AnyEntityIn(knowledgeLinks, KnowledgeBaseIds(t)) {
          ok := false;
        } else {
          knowledgeBases := [];
        }
      case DeleteEntities(ContextProfilesTable) =>
        if AnyProfileIn(promptLinks, ProfileIds(t)) || AnyProfileIn(knowledgeLinks, ProfileIds(t)) {
          ok := false;
        } else {
          contextProfiles := [];
        }
    }

    /** `sql.transaction([...])`: the statements in order, rolled back as a whole when one is
        refused or when the connection fails (`fault`). A committed transaction keeps the
        store's constraints. */
    method Transaction(stmts: seq<Stmt>, fault: bool) returns (ok: bool)
      modifies this
      ensures ok <==> !fault && ExecAll(old(Snapshot()), stmts).Some?
      ensures Snapshot() == if ok then ExecAll(old(Snapshot()), stmts).value else old(Snapshot())
      ensures old(Valid()) ==> Valid()
    {
      var saved := Snapshot();
      if Wellformed(saved) {
        ExecAllKeepsWellformed(saved, stmts);
      }
      var i := 0;
      ok := true;
      while i < |stmts| && ok
        invariant 0 <= i <= |stmts|
        invariant ok ==> ExecAll(saved, stmts[..i]) == Some(Snapshot())
        invariant !ok ==> ExecAll(saved, stmts[..i]).None?
      {
        ExecAllSnoc(saved, stmts[..i], stmts[i]);
        assert stmts[..i + 1] == stmts[..i] + [stmts[i]];
        ok := Execute(stmts[i]);
        i := i + 1;
      }
      ExecAllAppend(saved, stmts[..i], stmts[i..]);
      assert stmts[..i] + stmts[i..] == stmts;
      if !ok || fault {
        Restore(saved);
        ok := false;
      }
    }
  }
}
