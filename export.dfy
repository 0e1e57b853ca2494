/** `GET /api/data/export`: a read-only snapshot of the store whose sections the `type`
    parameter selects, offered for download under a dated file name. */
module ExportRoute {
  import opened Wrappers
  import opened Ordering
  import opened Store
  import opened Joins
  import opened Api

  const Version := "1.0.0"

  const ExportFailed := "Failed to export data"

  /** The snapshot document: the metadata, and one section per selected entity kind (`None`
      for a section that is left out of the document). */
  datatype ExportDocument = ExportDocument(
    exportedAt: string,
    version: string,
    exportType: string,
    prompts: Option<seq<PromptRow>>,
    knowledgeBases: Option<seq<KnowledgeBaseRow>>,
    contextProfiles: Option<seq<ContextProfile>>)

  /** The response: the document and the file name of its `Content-Disposition` header. */
  datatype Download = Download(document: ExportDocument, filename: string)

  /** `searchParams.get('type') || 'all'`: a missing or empty parameter means `all`. */
  function ExportType(typeParam: Option<string>): string {
    if typeParam.Some? && typeParam.value != "" then typeParam.value else "all"
  }

  /** `ORDER BY created_at` is ascending: a descending sort on the negated time. */
  function PromptCreatedAtDesc(p: Prompt): int {
    -p.createdAt
  }

  function KnowledgeBaseCreatedAtDesc(k: KnowledgeBase): int {
    -k.createdAt
  }

  function ProfileCreatedAtDesc(c: ContextProfile): int {
    -c.createdAt
  }

  /** The prompts query of the export: every prompt with its linked contexts, oldest first. */
  function PromptSection(t: Tables): seq<PromptRow> {
    PromptRows(t, SortDesc(t.prompts, PromptCreatedAtDesc))
  }

  /** The knowledge-base query of the export: every knowledge base with its linked contexts,
      oldest first. */
  function KnowledgeBaseSection(t: Tables): seq<KnowledgeBaseRow> {
    KnowledgeBaseRows(t, SortDesc(t.knowledgeBases, KnowledgeBaseCreatedAtDesc))
  }

  /** The context-profile query of the export: every profile, oldest first. */
  function ProfileSection(t: Tables): seq<ContextProfile> {
    SortDesc(t.contextProfiles, ProfileCreatedAtDesc)
  }

  /** The export of a store: `exportedAt` is the export time and `datePart` its calendar date,
      both as the route formats them. */
  function Exported(t: Tables, typeParam: Option<string>, exportedAt: string, datePart: string): Download {
    var kind := ExportType(typeParam);
    var document := ExportDocument(
      exportedAt, Version, kind,
      if kind == "all" || kind == "prompts" then Some(PromptSection(t)) else None,
      if kind == "all" || kind == "knowledge" then Some(KnowledgeBaseSection(t)) else None,
      if kind == "all" || kind == "contexts" then Some(ProfileSection(t)) else None);
    Download(document, "ai-prompt-manager-export-" + kind + "-" + datePart + ".json")
  }

  /** `GET /api/data/export`; `fault` is a failing database call. The document starts with the
      metadata and gains one section per selected query. */
  method Export(db: Database, typeParam: Option<string>, exportedAt: string, datePart: string, fault: bool)
    returns (r: Response<Download>)
    ensures r == if fault then ServerError(ExportFailed) else Ok(Exported(db.Snapshot(), typeParam, exportedAt, datePart))
  {
    var kind := if typeParam.Some? && typeParam.value != "" then typeParam.value else "all";
    var document := ExportDocument(exportedAt, Version, kind, None, None, None);
    if kind == "all" || kind == "prompts" {
      document := document.(prompts := Some(PromptSection(db.Snapshot())));
    }
    if kind == "all" || kind == "knowledge" {
      document := document.(knowledgeBases := Some(KnowledgeBaseSection(db.Snapshot())));
    }
    if kind == "all" || kind == "contexts" {
      document := document.(contextProfiles := Some(ProfileSection(db.Snapshot())));
    }
    if fault {
      return ServerError(ExportFailed);
    }
    r := Ok(Download(document, "ai-prompt-manager-export-" + kind + "-" + datePart + ".json"));
  }

  /** Which sections the document holds: the type defaults to `all`; prompts are exported for
      `all` and `prompts`, knowledge bases for `all` and `knowledge`, profiles for `all` and
      `contexts`, and any other type gives the metadata alone. The metadata always carries the
      version `1.0.0`, the export time and the type, and the file name is built from the type
      and the date. */
  lemma ExportedSections(t: Tables, typeParam: Option<string>, exportedAt: string, datePart: string)
    ensures var d := Exported(t, typeParam, exportedAt, datePart);
      && (typeParam.None? || typeParam == Some("") ==> d.document.exportType == "all")
      && (typeParam.Some? && typeParam.value != "" ==> d.document.exportType == typeParam.value)
      && (d.document.prompts.Some? <==> d.document.exportType in {"all", "prompts"})
      && (d.document.knowledgeBases.Some? <==> d.document.exportType in {"all", "knowledge"})
      && (d.document.contextProfiles.Some? <==> d.document.exportType in {"all", "contexts"})
      && d.document.version == "1.0.0"
      && d.document.exportedAt == exportedAt
      && d.filename == "ai-prompt-manager-export-" + d.document.exportType + "-" + datePart + ".json"
  {
  }

  /** Each section holds its whole table, each row exactly as often as it is stored, in
      non-decreasing `created_at` order; a prompt or knowledge base carries exactly the
      contexts linked to it. */
  lemma SectionsAreWholeTables(t: Tables)
    ensures var ps := PromptSection(t);
      && |ps| == |t.prompts|
      && multiset(PromptsOf(ps)) == multiset(t.prompts)
      && (forall i, j | 0 <= i < j < |ps| :: ps[i].prompt.createdAt <= ps[j].prompt.createdAt)
      && (forall i | 0 <= i < |ps| :: ps[i].linkedContexts == LinkedContexts(t.contextProfiles, t.promptLinks, ps[i].prompt.id))
    ensures var ks := KnowledgeBaseSection(t);
      && |ks| == |t.knowledgeBases|
      && multiset(KnowledgeBasesOf(ks)) == multiset(t.knowledgeBases)
      && (forall i, j | 0 <= i < j < |ks| :: ks[i].knowledgeBase.createdAt <= ks[j].knowledgeBase.createdAt)
      && (forall i | 0 <= i < |ks| :: ks[i].linkedContexts == LinkedContexts(t.contextProfiles, t.knowledgeLinks, ks[i].knowledgeBase.id))
    ensures var cs := ProfileSection(t);
      && multiset(cs) == multiset(t.contextProfiles)
      && (forall i, j | 0 <= i < j < |cs| :: cs[i].createdAt <= cs[j].createdAt)
  {
    PromptSectionOrdered(t);
    KnowledgeBaseSectionOrdered(t);
    SortDescSpec(t.contextProfiles, ProfileCreatedAtDesc);
    var cs := ProfileSection(t);
    forall i, j | 0 <= i < j < |cs|
      ensures cs[i].createdAt <= cs[j].createdAt
    {
      assert ProfileCreatedAtDesc(cs[i]) >= ProfileCreatedAtDesc(cs[j]);
    }
  }

  lemma PromptSectionOrdered(t: Tables)
    ensures var ps := PromptSection(t);
      && multiset(PromptsOf(ps)) == multiset(t.prompts)
      && (forall i, j | 0 <= i < j < |ps| :: ps[i].prompt.createdAt <= ps[j].prompt.createdAt)
  {
    var sorted := SortDesc(t.prompts, PromptCreatedAtDesc);
    SortDescSpec(t.prompts, PromptCreatedAtDesc);
    var ps := PromptSection(t);
    assert PromptsOf(ps) == sorted;
    forall i, j | 0 <= i < j < |ps|
      ensures ps[i].prompt.createdAt <= ps[j].prompt.createdAt
    {
      assert PromptCreatedAtDesc(sorted[i]) >= PromptCreatedAtDesc(sorted[j]);
    }
  }

  lemma KnowledgeBaseSectionOrdered(t: Tables)
    ensures var ks := KnowledgeBaseSection(t);
      && multiset(KnowledgeBasesOf(ks)) == multiset(t.knowledgeBases)
      && (forall i, j | 0 <= i < j < |ks| :: ks[i].knowledgeBase.createdAt <= ks[j].knowledgeBase.createdAt)
  {
    var sorted := SortDesc(t.knowledgeBases, KnowledgeBaseCreatedAtDesc);
    SortDescSpec(t.knowledgeBases, KnowledgeBaseCreatedAtDesc);
    var ks := KnowledgeBaseSection(t);
    assert KnowledgeBasesOf(ks) == sorted;
    forall i, j | 0 <= i < j < |ks|
      ensures ks[i].knowledgeBase.createdAt <= ks[j].knowledgeBase.createdAt
    {
      assert KnowledgeBaseCreatedAtDesc(sorted[i]) >= KnowledgeBaseCreatedAtDesc(sorted[j]);
    }
  }
}
