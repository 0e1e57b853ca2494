# AI Prompt Manager API: a verified model of its routes

The AI Prompt Manager keeps three kinds of records in a Postgres database:

- prompts;
- knowledge bases;
- context profiles, which are named JSON documents.

Two link tables attach context profiles to prompts and to knowledge bases. This project models the web API's collection routes:

- `GET` and `POST /api/prompts`;
- `GET` and `POST /api/knowledge-bases`;
- `GET` and `POST /api/context-profiles`;
- `GET /api/data/export`;
- `DELETE /api/data/reset`.

The database is an in-memory store (`Store.Tables`). It holds the three entity tables, the two link tables (sets of `(entity id, profile id)` pairs) and the counter that issues ids. Each SQL statement a route sends is a `Store.Stmt` value, and `Store.ExecStmt` gives its meaning:

- an insert takes the next id;
- a link insert is refused when a foreign key fails, and is otherwise a set union, which is what `ON CONFLICT DO NOTHING` gives;
- a `DELETE` that would orphan a link row is refused.

`Store.Database` is the store as a mutable object. `Database.Transaction` runs a `sql.transaction([...])`: the statements in order, rolled back as a whole when one is refused or the connection fails.

Each route is a method over a `Database`. Its contract ties the answer and the new store to a pure function of the request and the old store, and the lemmas state what the route promises about that function.

The list routes work as follows:

- The query builder appends `AND` clauses and pushes parameters as the source does.
- The clauses are `Query.Condition` values. Request text only ever reaches the parameters, never the query text.
- The builder is proved to select exactly the rows a declarative `Matches` predicate describes.
- The listing is then that selection, sorted by a stable insertion sort (`Ordering.SortDesc`), cut to three rows for `recent`, and joined with the linked contexts (`Joins`) or the link counts.

Searching uses `LOWER(column) LIKE LOWER('%' || term || '%')`. `SqlText.Like` models it in full, including the `%`, `_` and `\` metacharacters.

`JsonText` is a JSON value type with a serializer and a parser. It is used for the context-profile `json_data` check and re-serialization (`JSON.parse` followed by `JSON.stringify`).

## Model

| member | source | states |
|---|---|---|
| Api.WithDefault | apps/web/src/app/api/prompts/route.js:74 | `category = 'General'` replaces only a missing property; an explicit `null` stays `NULL` and a given value is kept |
| Api.ProfileIdList | apps/web/src/app/api/prompts/route.js:74 | a missing `context_profile_ids` means `[]`; only `null` fails (its `.length` throws); a given list is used as is |
| Store.LinkStmts | apps/web/src/app/api/prompts/route.js:91-97 | one link insert per listed id, in list order, for the new entity |
| Store.ExecStmtKeepsWellformed | apps/web/src/app/api/data/reset/route.js:6 | every statement that the database accepts keeps unique ids and intact foreign keys |
| Store.ExecAllKeepsWellformed | apps/web/src/app/api/data/reset/route.js:7-13 | a sequence of accepted statements keeps the store's constraints |
| Store.LinkStmtsEffect | apps/web/src/app/api/prompts/route.js:90-98 | the link inserts all succeed exactly when the entity and every listed profile exist; the link table then becomes its union with the listed pairs |
| Store.AddLinksEffect | apps/web/src/app/api/prompts/route.js:90-98 | the second transaction succeeds exactly when the list is empty, or when it does not fail and every listed profile exists; it adds only the listed pairs and keeps the constraints |
| Store.AddLinksIgnoresRepeats | apps/web/src/app/api/prompts/route.js:95 | because of `ON CONFLICT DO NOTHING`, listing an id again does not change the outcome |
| Store.Database.Execute | apps/web/src/app/api/prompts/route.js:82-86 | one statement changes the store as `ExecStmt` says; a refused one changes nothing; an accepted one keeps the store's constraints |
| Store.Database.Restore | apps/web/src/app/api/data/reset/route.js:7-13 | a rollback puts back the saved tables exactly |
| Store.Database.Transaction | apps/web/src/app/api/data/reset/route.js:7-13 | `sql.transaction` commits all its statements exactly when none is refused and the connection holds; otherwise the store is as before; a commit keeps the store's constraints |
| SqlText.LikeEscapedContains | apps/web/src/app/api/prompts/route.js:42-46 | a `%…%` pattern around an escaped term matches exactly the texts that contain the term |
| SqlText.SearchHitIsSubstring | apps/web/src/app/api/prompts/route.js:39-46 | for a term without `%`, `_` or `\`, the route's search is case-insensitive substring containment |
| SqlText.WildcardSearchOvermatches | apps/web/src/app/api/prompts/route.js:46 | the term `_` matches `abc` and `%` matches the empty text, though neither text contains the term |
| SqlText.EscapedSearchIsSubstring | apps/web/src/app/api/prompts/route.js:39-46 | with the term's metacharacters escaped, search is substring containment for every term |
| Ordering.Filter | apps/web/src/app/api/prompts/route.js:27 | the rows a `WHERE` keeps: each row that satisfies it, as often as it is stored, and no other |
| Ordering.SortDescSpec | apps/web/src/app/api/prompts/route.js:58 | `ORDER BY … DESC` returns a permutation of its input, in non-increasing key order |
| Ordering.Take | apps/web/src/app/api/prompts/route.js:56 | `LIMIT n` returns the first `min(n, count)` rows |
| Ordering.TopRows | apps/web/src/app/api/prompts/route.js:56 | `ORDER BY … DESC LIMIT n` leaves out no row whose key is larger than that of a listed row, and leaves out nothing when fewer than `n` are listed |
| Joins.LinkedContexts | apps/web/src/app/api/prompts/route.js:15-26 | `linked_contexts` holds exactly the `{id, name}` of the profiles linked to the row, and never more entries than there are profiles |
| Joins.LinkedContextsEmpty | apps/web/src/app/api/prompts/route.js:21-22 | when the links are intact, `linked_contexts` is `[]` exactly when the row has no links |
| Joins.LinkedContextsDistinct | apps/web/src/app/api/prompts/route.js:15-26 | with unique profile ids, no profile appears twice in `linked_contexts` |
| Joins.LinkCountZero | apps/web/src/app/api/context-profiles/route.js:12-13 | `COALESCE(count, 0)` is 0 exactly when no link row names the profile |
| Joins.LinkCountAfterInsert | apps/web/src/app/api/context-profiles/route.js:15-24 | one more link raises a profile's count by one when it is new and names that profile, and leaves the count unchanged otherwise |
| JsonText.SurrogatePairParses | apps/web/src/app/api/context-profiles/route.js:65 | an escaped surrogate pair such as `\uD83D\uDE00` reads as one character, and a lone high surrogate is refused |
| JsonText.SerializeThenParse | apps/web/src/app/api/context-profiles/route.js:65-75 | parsing the serialized text of any JSON value gives back that value |
| PromptsRoute.Params | apps/web/src/app/api/prompts/route.js:30-47 | the bound values are the category first, then `%term%`; `favorites` and `recent` bind nothing |
| PromptsRoute.BuildListQuery | apps/web/src/app/api/prompts/route.js:12-59 | the built query's clauses hold of exactly the prompts that match the category (unless empty or `All`), the search term and `favorites=true`; every placeholder is bound; `recent=true` orders by `last_used` with `LIMIT 3`, and otherwise the order is by `updated_at` |
| PromptsRoute.ClausesSound | apps/web/src/app/api/prompts/route.js:33-51 | the clauses and parameters bind every `$n` and select exactly the matching prompts |
| PromptsRoute.ListQueryMeansListing | apps/web/src/app/api/prompts/route.js:53-61 | running the built query gives exactly the declarative listing |
| PromptsRoute.List | apps/web/src/app/api/prompts/route.js:4-68 | the answer is 200 with the listing, or 500 `Failed to fetch prompts` when the database fails |
| PromptsRoute.MatchingPromptsHas | apps/web/src/app/api/prompts/route.js:33-51 | a prompt is selected exactly when it is stored and matches, as often as it is stored |
| PromptsRoute.ListingAll | apps/web/src/app/api/prompts/route.js:53-58 | without `recent`: every matching prompt, no other, most recently updated first |
| PromptsRoute.ListingRecent | apps/web/src/app/api/prompts/route.js:55-56 | with `recent`: at most three prompts, all stored and matching the other filters, most recently used first |
| PromptsRoute.ListingRecentIsTop | apps/web/src/app/api/prompts/route.js:55-56 | with `recent`: no matching prompt that is left out was used later than a listed one; when fewer than three are listed, none is left out |
| PromptsRoute.ListingRows | apps/web/src/app/api/prompts/route.js:12-28 | each row is one ranked prompt together with exactly the contexts linked to it |
| PromptsRoute.SearchIsSubstring | apps/web/src/app/api/prompts/route.js:39-46 | for a plain term, search is case-insensitive containment in the title, the non-`NULL` description or the content |
| PromptsRoute.Create | apps/web/src/app/api/prompts/route.js:71-106 | the answer and the new store are those of the two-transaction create; a store that satisfies its constraints still does afterwards |
| PromptsRoute.CreateEffect | apps/web/src/app/api/prompts/route.js:74-101 | 400 exactly when the title or the content is falsy, and then nothing is written; 201 exactly when neither transaction fails, the id list is not `null` and every listed profile exists; a 201 adds exactly the inserted prompt under a fresh id (category defaulting to `General`) and the listed links; a 500 after the insert leaves the prompt stored without links and the id counter advanced; the constraints always hold |
| PromptsRoute.CreateIgnoresRepeatedIds | apps/web/src/app/api/prompts/route.js:90-98 | repeating ids in `context_profile_ids` changes neither the answer nor the store |
| PromptsRoute.CreateIsNotAtomic | apps/web/src/app/api/prompts/route.js:81-99 | with ids `null`, or `[7]` where profile 7 does not exist, the create answers 500 yet has stored the prompt (`CreateEffect` states the store after every such 500) |
| PromptsRoute.AtomicCreateAllOrNothing | apps/web/src/app/api/prompts/route.js:81-99 | a single-transaction create answers 201 exactly when the body is valid, the id list is not `null`, the transaction holds and every listed profile exists; any other answer leaves the store unchanged, and a 201 agrees with the two-step create's |
| KnowledgeBasesRoute.Params | apps/web/src/app/api/knowledge-bases/route.js:28-45 | the bound values are the category first, then `%term%` |
| KnowledgeBasesRoute.BuildListQuery | apps/web/src/app/api/knowledge-bases/route.js:10-47 | the clauses select exactly the knowledge bases that match the category (unless empty or `All`) and the search term; every placeholder is bound; the order is by `updated_at` with no limit |
| KnowledgeBasesRoute.ClausesSound | apps/web/src/app/api/knowledge-bases/route.js:31-45 | the clauses and parameters bind every `$n` and select exactly the matching knowledge bases |
| KnowledgeBasesRoute.ListQueryMeansListing | apps/web/src/app/api/knowledge-bases/route.js:47-49 | running the built query gives exactly the declarative listing |
| KnowledgeBasesRoute.List | apps/web/src/app/api/knowledge-bases/route.js:4-56 | 200 with the listing, or 500 `Failed to fetch knowledge bases` |
| KnowledgeBasesRoute.MatchingKnowledgeBasesHas | apps/web/src/app/api/knowledge-bases/route.js:31-45 | a knowledge base is selected exactly when it is stored and matches |
| KnowledgeBasesRoute.ListingAll | apps/web/src/app/api/knowledge-bases/route.js:47 | every matching knowledge base, no other, most recently updated first |
| KnowledgeBasesRoute.ListingRows | apps/web/src/app/api/knowledge-bases/route.js:10-26 | each row is one ranked knowledge base together with exactly its linked contexts |
| KnowledgeBasesRoute.SearchIsSubstring | apps/web/src/app/api/knowledge-bases/route.js:37-45 | for a plain term, search is case-insensitive containment in the title, the non-`NULL` description or the content |
| KnowledgeBasesRoute.Create | apps/web/src/app/api/knowledge-bases/route.js:59-94 | the answer and the new store are those of the two-transaction create; a store that satisfies its constraints still does afterwards |
| KnowledgeBasesRoute.CreateEffect | apps/web/src/app/api/knowledge-bases/route.js:62-89 | 400 exactly when the title or the content is falsy, with nothing written; 201 exactly when neither transaction fails, the id list is not `null` and every listed profile exists; a 201 adds exactly the inserted knowledge base and the listed links; a 500 after the insert leaves the knowledge base stored without links and the id counter advanced; the constraints always hold |
| KnowledgeBasesRoute.CreateIgnoresRepeatedIds | apps/web/src/app/api/knowledge-bases/route.js:78-86 | repeated ids change neither the answer nor the store |
| KnowledgeBasesRoute.CreateIsNotAtomic | apps/web/src/app/api/knowledge-bases/route.js:69-87 | with ids `null`, or naming a missing profile, the create answers 500 yet has stored the knowledge base |
| KnowledgeBasesRoute.AtomicCreateAllOrNothing | apps/web/src/app/api/knowledge-bases/route.js:69-87 | a single-transaction create answers 201 exactly when the body is valid, the id list is not `null`, the transaction holds and every listed profile exists; any other answer leaves the store unchanged, and a 201 agrees with the two-step create's |
| ContextProfilesRoute.BuildListQuery | apps/web/src/app/api/context-profiles/route.js:9-40 | at most one clause, on `$1`, selecting exactly the profiles whose name or description matches the term; the order is by `updated_at` |
| ContextProfilesRoute.ListQueryMeansListing | apps/web/src/app/api/context-profiles/route.js:40-42 | running the built query gives exactly the declarative listing |
| ContextProfilesRoute.List | apps/web/src/app/api/context-profiles/route.js:4-49 | 200 with the listing, or 500 `Failed to fetch context profiles` |
| ContextProfilesRoute.MatchingProfilesHas | apps/web/src/app/api/context-profiles/route.js:31-38 | a profile is selected exactly when it is stored and matches |
| ContextProfilesRoute.ListingAll | apps/web/src/app/api/context-profiles/route.js:40 | every matching profile, no other, most recently updated first |
| ContextProfilesRoute.ListingCounts | apps/web/src/app/api/context-profiles/route.js:12-24 | `linked_prompts` and `linked_knowledge` are the numbers of link rows naming the profile, and 0 exactly when there are none |
| ContextProfilesRoute.SearchIsSubstring | apps/web/src/app/api/context-profiles/route.js:31-38 | for a plain term, search is containment in the name or the non-`NULL` description; `json_data` is never searched |
| ContextProfilesRoute.Create | apps/web/src/app/api/context-profiles/route.js:52-84 | the answer and the new store are those of `CreateOutcome`; a store that satisfies its constraints still does afterwards |
| ContextProfilesRoute.CreateEffect | apps/web/src/app/api/context-profiles/route.js:55-79 | 400 exactly when the name or `json_data` is falsy or a string `json_data` does not parse; only a 201 writes; the stored text is the serialization of the parsed value, which parses back to it; a non-string value is serialized without parsing; links are untouched |
| ContextProfilesRoute.CreateRejectsNonJsonText | apps/web/src/app/api/context-profiles/route.js:63-71 | the text `not json` is answered with 400 `Invalid JSON data` and nothing is stored |
| ExportRoute.Export | apps/web/src/app/api/data/export/route.js:4-83 | 200 with the export document and its file name, or 500 `Failed to export data`; the store is only read |
| ExportRoute.ExportedSections | apps/web/src/app/api/data/export/route.js:7-73 | a missing or empty `type` means `all`; each section is present exactly for `all` or its own type (an unknown type exports none); version `1.0.0`; the file name is `ai-prompt-manager-export-<type>-<date>.json` |
| ExportRoute.SectionsAreWholeTables | apps/web/src/app/api/data/export/route.js:15-67 | each section is a permutation of its whole table, oldest first, and prompts and knowledge bases carry their linked contexts |
| ExportRoute.PromptSectionOrdered | apps/web/src/app/api/data/export/route.js:17-34 | the prompts section holds every prompt exactly once, ordered by `created_at` ascending |
| ExportRoute.KnowledgeBaseSectionOrdered | apps/web/src/app/api/data/export/route.js:40-57 | the knowledge-base section holds every knowledge base exactly once, ordered by `created_at` ascending |
| ResetRoute.Emptied | apps/web/src/app/api/data/reset/route.js:7-13 | after a reset all five tables are empty and the id counter is kept |
| ResetRoute.ResetPrefixes | apps/web/src/app/api/data/reset/route.js:7-13 | every prefix of the five deletes is accepted, whatever the store holds, and the whole sequence empties every table |
| ResetRoute.ResetKeepsLinksIntact | apps/web/src/app/api/data/reset/route.js:6-13 | because the link tables are deleted first, no intermediate state breaks a foreign key |
| ResetRoute.EntitiesFirstIsRefused | apps/web/src/app/api/data/reset/route.js:6 | deleting the prompts while a prompt link exists is refused, so the order is needed |
| ResetRoute.ResetIdempotent | apps/web/src/app/api/data/reset/route.js:7-13 | resetting an emptied store changes nothing; two resets equal one |
| ResetRoute.Reset | apps/web/src/app/api/data/reset/route.js:4-23 | 200 with the confirmation and an emptied store, or 500 `Failed to reset data` with the store rolled back; a store that satisfies its constraints still does afterwards |

## Left out

- HTTP plumbing is not modelled: URL parsing, headers, `Response` objects and the pretty-printed JSON text of the export. Requests are given as parsed values and answers as `Api.Response` values.
- The clock is a parameter: `now`, `exportedAt`, `datePart` and `resetAt` are passed in, not read.
- Database and connection failures are boolean `fault` parameters. The logging in each `catch` is left out.
- The database schema is not part of this model. The store assumes:
  - ids come from one counter;
  - `is_favorited` defaults to false;
  - the three timestamps default to the insert time;
  - the foreign keys of both link tables refuse deletes (no `ON DELETE CASCADE`);
  - `(entity, profile)` is the key of each link table.
- Store.Tables: `DELETE` does not reset the id counter, as with a Postgres sequence.
- SqlText.Lower: folds ASCII letters only; Postgres `LOWER` also folds other scripts.
- Ordering.SortDesc: rows with equal sort keys keep table order. Postgres leaves their order unspecified.
- Joins.LinkedContexts: lists contexts in profile-table order. `JSON_AGG`'s order is unspecified.
- JsonText.Parse: reads integer numbers only, so text with a fraction or an exponent counts as invalid JSON. It refuses a lone surrogate escape, which `JSON.parse` accepts, because model strings hold Unicode scalar values; an escaped surrogate pair is joined into one character. It keeps duplicate object keys, where `JSON.parse` keeps the last one.
- JsonText.Serialize: writes object members in the order given, where `JSON.stringify` puts integer-like keys first (`{"b":1,"1":2}` is stored as `{"1":2,"b":1}`). It writes every integer exactly, where JavaScript numbers round integers above 2^53 and write 1e21 and above in exponent form.
- Text body fields are modelled as strings, missing or `null`. A number or boolean sent as `title`, `name`, `content` or `category`, and non-integer `context_profile_ids` entries, are left out.
- Api.ProfileIdList: a `context_profile_ids` that is neither an array, `null` nor missing is left out, because the model types the property as a list of integers. In the route, a value without `.length` (a number, `true`, `{}`) fails the `length > 0` test and the create answers 201 with no links. A string of non-zero length reaches `.map`, which throws after the entity is committed, so the create answers 500.
- The per-record routes are not part of this model: update, delete, marking a prompt used, and import. Neither are the mobile app screens or the shared package.
- Concurrent requests are not modelled. Each route runs alone against the store.

## Findings

| source | as written | input that shows it | evidently intended | confidence | as-written member | corrected member |
|---|---|---|---|---|---|---|
| apps/web/src/app/api/prompts/route.js:39-46 (also knowledge-bases/route.js:37-44, context-profiles/route.js:31-37) | the search term goes unescaped into a `LIKE` pattern, so `%`, `_` and `\` in it act as wildcards | search `_` matches every non-empty title, and `%` matches every row | a search for the literal text, case-insensitively | not executed | SqlText.WildcardSearchOvermatches | SqlText.EscapedSearchIsSubstring |
| apps/web/src/app/api/prompts/route.js:81-99 | the prompt is committed in one transaction and its links in a second, so a failed link step answers 500 but leaves the prompt stored | body `{title:"t", content:"c", context_profile_ids:[7]}` with no profile 7, or with `context_profile_ids: null` | the prompt and its links created together or not at all | not executed | PromptsRoute.CreateIsNotAtomic | PromptsRoute.AtomicCreateAllOrNothing |
| apps/web/src/app/api/knowledge-bases/route.js:69-87 | the same two-transaction create for knowledge bases | body `{title:"t", content:"c", context_profile_ids:[7]}` with no profile 7 | the knowledge base and its links created together or not at all | not executed | KnowledgeBasesRoute.CreateIsNotAtomic | KnowledgeBasesRoute.AtomicCreateAllOrNothing |

The route methods (`List`, `Create`) keep the behaviour as written:

- the search uses `SqlText.SearchHit`;
- a create runs two transactions.

The corrected definitions sit beside them:

- `SqlText.EscapedSearchHit`;
- `PromptsRoute.AtomicCreateOutcome` and `KnowledgeBasesRoute.AtomicCreateOutcome`.

Each has the intended property proved.

When the term has no metacharacters, the as-written search and the corrected search agree. `PromptsRoute.SearchIsSubstring` and its counterparts prove this.

Two behaviours of the code are worth noting; the model follows them:

- `recent=true` still applies the category, search and favorites filters before it takes the three most recently used prompts.
- An empty `category` parameter counts as no filter, like `All`.
