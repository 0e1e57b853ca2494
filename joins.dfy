/** What the routes join onto an entity row: the `linked_contexts` aggregate of the prompt and
    knowledge-base queries, and the per-profile link counts of the context-profile query. */
module Joins {
  import opened Store

  /** `JSON_BUILD_OBJECT('id', cp.id, 'name', cp.name)`. */
  datatype ContextRef = ContextRef(id: int, name: string)

  datatype PromptRow = PromptRow(prompt: Prompt, linkedContexts: seq<ContextRef>)

  datatype KnowledgeBaseRow = KnowledgeBaseRow(knowledgeBase: KnowledgeBase, linkedContexts: seq<ContextRef>)

  /** `COALESCE(JSON_AGG(…) FILTER (WHERE cp.id IS NOT NULL), '[]')` over the left joins of one
      entity: a reference to every profile the entity is linked to, in table order. */
  function LinkedContexts(profiles: seq<ContextProfile>, links: set<Link>, entityId: int): (r: seq<ContextRef>)
    ensures |r| <= |profiles|
    ensures forall ref :: ref in r <==>
      exists c | c in profiles :: (entityId, c.id) in links && ref == ContextRef(c.id, c.name)
  {
    if profiles == [] then []
    else
      var c := profiles[0];
      var rest := LinkedContexts(profiles[1..], links, entityId);
      assert forall d | d in profiles :: d == c || d in profiles[1..];
      (if (entityId, c.id) in links then [ContextRef(c.id, c.name)] else []) + rest
  }

  function PromptRowOf(t: Tables, p: Prompt): PromptRow {
    PromptRow(p, LinkedContexts(t.contextProfiles, t.promptLinks, p.id))
  }

  function KnowledgeBaseRowOf(t: Tables, k: KnowledgeBase): KnowledgeBaseRow {
    KnowledgeBaseRow(k, LinkedContexts(t.contextProfiles, t.knowledgeLinks, k.id))
  }

  function PromptRows(t: Tables, ps: seq<Prompt>): seq<PromptRow> {
    seq(|ps|, i requires 0 <= i < |ps| => PromptRowOf(t, ps[i]))
  }

  function KnowledgeBaseRows(t: Tables, ks: seq<KnowledgeBase>): seq<KnowledgeBaseRow> {
    seq(|ks|, i requires 0 <= i < |ks| => KnowledgeBaseRowOf(t, ks[i]))
  }

  function PromptsOf(rows: seq<PromptRow>): seq<Prompt> {
    seq(|rows|, i requires 0 <= i < |rows| => rows[i].prompt)
  }

  function KnowledgeBasesOf(rows: seq<KnowledgeBaseRow>): seq<KnowledgeBase> {
    seq(|rows|, i requires 0 <= i < |rows| => rows[i].knowledgeBase)
  }

  /** When every link points at a stored profile, `linked_contexts` is `[]` exactly when the
      entity has no link at all. */
  lemma LinkedContextsEmpty(profiles: seq<ContextProfile>, links: set<Link>, entityId: int)
    requires forall l | l in links :: exists c | c in profiles :: c.id == l.1
    ensures LinkedContexts(profiles, links, entityId) == [] <==> forall l | l in links :: l.0 != entityId
  {
    var r := LinkedContexts(profiles, links, entityId);
    if l :| l in links && l.0 == entityId {
      var c :| c in profiles && c.id == l.1;
      assert ContextRef(c.id, c.name) in r;
    }
    if r != [] {
      assert r[0] in r;
    }
  }

  predicate DistinctRefs(r: seq<ContextRef>) {
    forall i, j | 0 <= i < j < |r| :: r[i].id != r[j].id
  }

  /** A profile appears at most once, so no `{id, name}` pair is listed twice. */
  lemma {:induction false} LinkedContextsDistinct(profiles: seq<ContextProfile>, links: set<Link>, entityId: int)
    requires forall i, j | 0 <= i < j < |profiles| :: profiles[i].id != profiles[j].id
    ensures DistinctRefs(LinkedContexts(profiles, links, entityId))
    decreases |profiles|
  {
    if profiles != [] {
      var c := profiles[0];
      var tail := profiles[1..];
      assert forall i, j | 0 <= i < j < |tail| :: tail[i].id != tail[j].id by {
        forall i, j | 0 <= i < j < |tail|
          ensures tail[i].id != tail[j].id
        {
          assert tail[i] == profiles[i + 1] && tail[j] == profiles[j + 1];
        }
      }
      assert forall d | d in tail :: d.id != c.id by {
        forall d | d in tail
          ensures d.id != c.id
        {
          var k :| 0 <= k < |tail| && tail[k] == d;
          assert profiles[k + 1] == d;
        }
      }
      var rest := LinkedContexts(tail, links, entityId);
      LinkedContextsDistinct(tail, links, entityId);
      assert LinkedContexts(profiles, links, entityId)
          == (if (entityId, c.id) in links then [ContextRef(c.id, c.name)] else []) + rest;
      if (entityId, c.id) in links {
        var r := [ContextRef(c.id, c.name)] + rest;
        forall j | 0 <= j < |rest|
          ensures rest[j].id != c.id
        {
          assert rest[j] in rest;
        }
        assert DistinctRefs(r) by {
          forall i, j | 0 <= i < j < |r|
            ensures r[i].id != r[j].id
          {
            assert r[j] == rest[j - 1];
            if i > 0 {
              assert r[i] == rest[i - 1];
            }
          }
        }
      }
    }
  }

  /** `COUNT(*)` of one profile's rows in a link table. */
  function LinkCount(links: set<Link>, profileId: int): nat {
    |set l | l in links && l.1 == profileId|
  }

  lemma LinkCountZero(links: set<Link>, profileId: int)
    ensures LinkCount(links, profileId) == 0 <==> forall l | l in links :: l.1 != profileId
  {
    var s := set l | l in links && l.1 == profileId;
    if l :| l in links && l.1 == profileId {
      assert l in s;
    }
  }

  /** Adding a link row raises the count of its profile by one unless the pair was already
      stored, and leaves every other profile's count alone. */
  lemma LinkCountAfterInsert(links: set<Link>, e: int, c: int, profileId: int)
    ensures LinkCount(links + {(e, c)}, profileId) ==
      LinkCount(links, profileId) + (if c == profileId && (e, c) !in links then 1 else 0)
  {
    var before := set l | l in links && l.1 == profileId;
    var after := set l | l in links + {(e, c)} && l.1 == profileId;
    if c == profileId && (e, c) !in links {
      assert after == before + {(e, c)};
    } else {
      assert after == before;
    }
  }

  /** A row of the context-profile list: the profile with `COALESCE(count, 0)` of its rows in
      each link table. */
  datatype ProfileRow = ProfileRow(profile: ContextProfile, linkedPrompts: nat, linkedKnowledge: nat)

  function ProfileRowOf(t: Tables, c: ContextProfile): ProfileRow {
    ProfileRow(c, LinkCount(t.promptLinks, c.id), LinkCount(t.knowledgeLinks, c.id))
  }

  function ProfileRows(t: Tables, cs: seq<ContextProfile>): seq<ProfileRow> {
    seq(|cs|, i requires 0 <= i < |cs| => ProfileRowOf(t, cs[i]))
  }
}
