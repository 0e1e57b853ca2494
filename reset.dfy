/** `DELETE /api/data/reset`: five deletes, link tables first, in one transaction. */
module ResetRoute {
  import opened Wrappers
  import opened Store
  import opened Api

  /** The deletes in the order the route sends them. */
  const ResetStmts: seq<Stmt> := [
    DeleteLinks(PromptLinks),
    DeleteLinks(KnowledgeLinks),
    DeleteEntities(PromptsTable),
    DeleteEntities(KnowledgeBasesTable),
    DeleteEntities(ContextProfilesTable)]

  const ResetDone := "All data has been successfully reset"

  const ResetFailed := "Failed to reset data"

  /** The success body: the confirmation message and the time of the reset. */
  datatype Confirmation = Confirmation(message: string, resetAt: string)

  /** The store with all five tables empty. `DELETE` does not rewind the id counter. */
  function Emptied(t: Tables): (u: Tables)
    ensures u.prompts == [] && u.knowledgeBases == [] && u.contextProfiles == []
    ensures u.promptLinks == {} && u.knowledgeLinks == {}
    ensures u.nextId == t.nextId
  {
    t.(prompts := [], knowledgeBases := [], contextProfiles := [], promptLinks := {}, knowledgeLinks := {})
  }

  /** The store after each prefix of the deletes: before any, after the first, … after all five. */
  function ResetStates(t: Tables): (s: seq<Tables>)
    ensures |s| == 6
  {
    var t1 := t.(promptLinks := {});
    var t2 := t1.(knowledgeLinks := {});
    var t3 := t2.(prompts := []);
    var t4 := t3.(knowledgeBases := []);
    [t, t1, t2, t3, t4, t4.(contextProfiles := [])]
  }

  /** Every prefix of the deletes succeeds and leaves the corresponding state; in particular
      the whole sequence empties every table, whatever the store holds. */
  lemma ResetPrefixes(t: Tables)
    ensures forall k | 0 <= k <= 5 :: ExecAll(t, ResetStmts[..k]) == Some(ResetStates(t)[k])
    ensures ExecAll(t, ResetStmts) == Some(Emptied(t))
  {
    var states := ResetStates(t);
    assert ResetStmts[..0] == [];
    forall k | 0 <= k < 5
      ensures ExecStmt(states[k], ResetStmts[k]) == Some(states[k + 1])
    {
      assert !AnyEntityIn(states[2].promptLinks, PromptIds(states[2]));
      assert !AnyEntityIn(states[3].knowledgeLinks, KnowledgeBaseIds(states[3]));
      assert !AnyProfileIn(states[4].promptLinks, ProfileIds(states[4]));
      assert !AnyProfileIn(states[4].knowledgeLinks, ProfileIds(states[4]));
    }
    ResetStep(t, 0);
    ResetStep(t, 1);
    ResetStep(t, 2);
    ResetStep(t, 3);
    ResetStep(t, 4);
    assert ResetStmts[..5] == ResetStmts;
  }

  lemma ResetStep(t: Tables, k: nat)
    requires k < 5
    requires ExecAll(t, ResetStmts[..k]) == Some(ResetStates(t)[k])
    requires ExecStmt(ResetStates(t)[k], ResetStmts[k]) == Some(ResetStates(t)[k + 1])
    ensures ExecAll(t, ResetStmts[..k + 1]) == Some(ResetStates(t)[k + 1])
  {
    ExecAllSnoc(t, ResetStmts[..k], ResetStmts[k]);
    assert ResetStmts[..k + 1] == ResetStmts[..k] + [ResetStmts[k]];
  }

  /** Because the link tables are emptied first, no intermediate state of a reset has a link
      row that refers to a missing entity or profile. */
  lemma ResetKeepsLinksIntact(t: Tables)
    requires Wellformed(t)
    ensures forall k | 0 <= k <= 5 :: Wellformed(ResetStates(t)[k])
  {
    ResetPrefixes(t);
    forall k | 0 <= k <= 5
      ensures Wellformed(ResetStates(t)[k])
    {
      ExecAllKeepsWellformed(t, ResetStmts[..k]);
    }
  }

  /** The order matters: while a prompt has a link, deleting the prompts first is refused by the
      foreign key. */
  lemma EntitiesFirstIsRefused(t: Tables, l: Link)
    requires Wellformed(t) && l in t.promptLinks
    ensures ExecStmt(t, DeleteEntities(PromptsTable)) == None
  {
    assert l.0 in PromptIds(t);
  }

  /** Resetting an empty store leaves it empty and unchanged. */
  lemma ResetIdempotent(t: Tables)
    ensures ExecAll(Emptied(t), ResetStmts) == Some(Emptied(t))
    ensures ExecAll(t, ResetStmts + ResetStmts) == Some(Emptied(t))
  {
    ResetPrefixes(t);
    ResetPrefixes(Emptied(t));
    assert Emptied(Emptied(t)) == Emptied(t);
    ExecAllAppend(t, ResetStmts, ResetStmts);
  }

  /** `DELETE /api/data/reset`; `fault` is a failure of the transaction. On success every table
      is empty; on failure the transaction is rolled back and the store is as it was. */
  method Reset(db: Database, resetAt: string, fault: bool) returns (r: Response<Confirmation>)
    modifies db
    ensures r == if fault then ServerError(ResetFailed) else Ok(Confirmation(ResetDone, resetAt))
    ensures db.Snapshot() == if fault then old(db.Snapshot()) else Emptied(old(db.Snapshot()))
    ensures old(db.Valid()) ==> db.Valid()
  {
    ResetPrefixes(db.Snapshot());
    var ok := db.Transaction(ResetStmts, fault);
    if !ok {
      return ServerError(ResetFailed);
    }
    r := Ok(Confirmation(ResetDone, resetAt));
  }
}
