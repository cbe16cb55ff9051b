# press-kits-service: a verified model of the media-kit lifecycle

This project models the core of a press-kit service. The service keeps
organizations and their media kits: versioned generated documents with five
statuses (drafted, generating, validated, denied, archived). It also keeps an
append-only log of the instructions that drove each generation.

The model covers:

- **copy-on-edit.** Editing a validated or drafted kit spawns a new generating
  copy whose parent is the source.
- **the generation callback.** It turns the organization's generating kit into
  a draft.
- **the validate/archive swap.**
- **draft cancellation.**
- **the read-side selection rules.** These are the priority-ordered listing,
  the public page's validated-then-drafted precedence, the e-mail data, the
  stale-kit scan with one entry per organization, the setup and health
  summaries, and the organization and admin routes.

The database is one object, `Storage.Store`. Its three tables are sequences
of rows (`orgs`, `kits`, `instructions`). `Valid()` says that every declared
constraint holds:

- unique ids, external ids and share tokens;
- the kit → organization foreign key;
- the instruction → kit foreign key.

A route that writes is a method that `modifies` the store. Its postcondition
gives the whole new state, per branch, in terms of the old one, and it keeps
`Valid()`. A read-only route is a function over the row sequences, except
the stale-kit scan. `Internal.StaleOrganizations` is a method because the
source removes duplicate organizations with a loop. The model keeps that loop
(`Internal.Dedupe`) and proves it equal to the function
`Internal.FirstPerOrg`.

Modelling choices:

- Nothing in the model has an ambient clock or random source:
  - the current time `now` and the staleness threshold are integer parameters;
  - every freshly generated uuid is a parameter, required to be absent from its table.
- The fire-and-forget background calls are appended to `Store.outbox` as `Job`
  values instead of being sent. Edit starts the generation workflow and
  validate sends the "press kit ready" e-mail. Each job is recorded only when
  the kit has an external organization id.
- The external organization identifier is a single field: `externalId` on an
  organization and `externalOrgId` on a kit. The source calls it
  `clerkOrganizationId` in some files and `orgId` in others.
- Module layout follows the source: `Schema` (the tables), `Storage` (the
  store), and one module per route file (`MediaKits`, `Internal`, `Public`,
  `Organizations`, `Admin`). Shared sequence and string operations sit in
  `Seqs` and `Text`. `Scenarios` steps through the lifecycle twice and
  proves the resulting states, and does the same for one stale-scan example.

Guards the handlers do not have:

- The handlers do not check that a kit being validated was drafted, or that
  an organization has at most one generating kit. The database functions
  they call are not part of this model.
  - `MediaKits.ValidateMediaKit` therefore accepts any existing kit.
  - `MediaKits.EditMediaKit` and `Internal.UpsertGenerationResult` do not
    assume a single generating kit; the callback takes the first one stored.
- `Storage.SingleValidated` (at most one validated kit per organization) is
  proved to be kept by the following routes:
  - edit;
  - update-mdx;
  - validate;
  - cancel-draft;
  - the generation callback;
  - the generic status update, whenever it sets a status other than validated.

  The generic status update can break it by setting a second kit to validated.

## Model

| member | source | states |
|---|---|---|
| Schema.ParseStatus | src/db/schema.ts:13-19 | the status cast accepts exactly the five enum labels |
| Schema.StatusRoundTrip | src/db/schema.ts:13-19 | a status and its text form convert into each other both ways |
| Schema.KitById | src/routes/media-kits.ts:69-71 | a kit is found exactly when one is stored under the id, and it is that kit |
| Schema.KitIndex | src/routes/media-kits.ts:90-93 | the position of the row an update by id targets; absent exactly when no kit has the id |
| Schema.Latest | src/routes/internal.ts:12-15 | `findFirst` ordered by `updatedAt` descending: none iff no row matches; otherwise a matching row no older than any other match |
| Schema.OrgByShareToken | src/routes/public.ts:11-13 | the organization holding the token; none iff no organization holds it |
| Schema.OrgById | src/routes/admin.ts:50-52 | the organization stored under the id; none iff the id is unknown |
| Schema.OrgIndexByExternalId | src/routes/organizations.ts:20-21 | the position of the organization the upsert conflicts with; none iff the external id is new |
| Schema.OrgByExternalId | src/routes/organizations.ts:39-41 | the organization with the external id; none iff no organization has it |
| Schema.KitCount | src/routes/admin.ts:25-28 | counts the kits referencing an organization; zero iff there are none |
| Schema.KitCountByStatus | src/routes/internal.ts:187-196 | an organization's kit count is the sum of its counts for all five statuses, archived and denied included |
| Schema.KitCountIsFilterLength | src/routes/internal.ts:187-190 | the count equals the number of rows a `WHERE organization_id = id` query returns |
| Schema.DeleteKits | src/db/schema.ts:64-66 | deleting kits keeps exactly the others, and exactly the instructions whose kit survives (the cascade) |
| Schema.DeleteKitsConsistent | src/db/schema.ts:64-66 | the cascade leaves every schema constraint intact |
| Storage.Store.constructor | src/db/schema.ts:21-73 | an empty database satisfies every constraint |
| Storage.KitsRewriteConsistent | src/db/schema.ts:37-40 | rewriting kit rows in place without changing ids or organization keeps the ids and every constraint |
| Storage.KitAppendConsistent | src/db/schema.ts:37-40 | inserting a kit under a fresh id whose organization exists keeps every constraint |
| Storage.InstructionAppendConsistent | src/db/schema.ts:63-66 | inserting an instruction under a fresh id for an existing kit keeps every constraint |
| Storage.OrgAppendConsistent | src/db/schema.ts:24-27 | inserting an organization with new id, external id and share token keeps every constraint |
| Storage.OrgRewriteConsistent | src/db/schema.ts:24-27 | changing an organization's name or timestamps keeps its ids and every constraint |
| Storage.OrgRemoveConsistent | src/db/schema.ts:40 | removing an organization no kit references keeps every constraint |
| Seqs.Filter | src/routes/media-kits.ts:46-49 | a `WHERE`: at most as long, keeps exactly the matching elements with their multiplicity |
| Seqs.FilterAll | src/routes/organizations.ts:64 | a filter every element passes changes nothing |
| Seqs.FilterAppend | src/routes/organizations.ts:64 | filtering a concatenation filters each part, keeping the order |
| Seqs.First | src/routes/internal.ts:34-39 | an unordered `findFirst`: the first matching position; none iff nothing matches |
| Seqs.SortBy | src/routes/media-kits.ts:50-57 | an `ORDER BY`: a sorted permutation of its input |
| Text.ContainsIsContainsIgnoreCase | src/routes/media-kits.ts:42-44 | a title containing the filter text verbatim passes the case-insensitive filter |
| Text.Split | src/routes/organizations.ts:64 | `split` never yields an empty list |
| Text.SplitHasNoSeparator | src/routes/organizations.ts:64 | no piece of a split contains the separator |
| Text.JoinSplit | src/routes/organizations.ts:64 | joining the pieces of a split restores the string |
| Text.SplitJoin | src/routes/organizations.ts:64 | splitting a join of separator-free pieces restores the pieces |
| Text.SplitNoSeparator | src/routes/organizations.ts:64 | a string without the separator splits into itself alone |
| Text.SplitAppend | src/routes/organizations.ts:64 | splitting at a separator splits each side on its own |
| Text.TrimSlice | src/routes/organizations.ts:64 | `trim` cuts only white space off either end and leaves no white space at either end |
| Text.TrimIdempotent | src/routes/organizations.ts:64 | trimming twice is trimming once |
| Text.TrimKeepsOut | src/routes/organizations.ts:64 | trimming introduces no character |
| MediaKits.ListMediaKits | src/routes/media-kits.ts:21-57 | rejected iff no org filter is supplied; otherwise exactly the active kits matching every supplied filter, with multiplicity, validated before drafted before generating, newest first within a status |
| MediaKits.ListingIsActive | src/routes/media-kits.ts:32-34 | a listing never contains a denied or archived kit |
| MediaKits.GetMediaKit | src/routes/media-kits.ts:67-83 | the kit stored under the id, or not-found iff there is none |
| MediaKits.UpdateMdx | src/routes/media-kits.ts:86-101 | only the named kit's mdx content and `updatedAt` change, whatever its status; not-found and no change when it is absent |
| MediaKits.UpdateStatus | src/routes/media-kits.ts:109-126 | sets the named kit's status, and its denial reason only when one is given; nothing else changes; not-found when absent |
| MediaKits.EditMediaKit | src/routes/media-kits.ts:134-208 | validated/drafted: one new generating copy with parent = source, content and org refs copied, source untouched, an `initial` instruction; generating: only `updatedAt` bumped and an `edit` instruction; missing or other status: not-found or "Cannot edit kit with status: X" and nothing changes; a workflow job iff the kit has an external org id |
| MediaKits.ValidateLeavesOneValidated | src/routes/media-kits.ts:220-227 | after the swap the target is validated and is its organization's only validated kit |
| MediaKits.ValidateKeepsSingleValidated | src/routes/media-kits.ts:220-222 | the swap keeps "at most one validated kit per organization" |
| MediaKits.ValidateMediaKit | src/routes/media-kits.ts:216-243 | applies the swap to the stored rows and records the ready e-mail (title or "Press Kit") iff the kit has an external org id; not-found and no change when absent |
| MediaKits.ParentIndex | src/routes/media-kits.ts:255-257 | the position of the kit's parent; none iff the kit, its parent reference or the parent row is missing |
| MediaKits.CancelDraft | src/routes/media-kits.ts:251-259 | always reports success; restores the parent to drafted when there is one, and changes nothing else |
| Internal.KitByOrg | src/routes/internal.ts:10-17 | the organization's kit with the greatest `updatedAt`, whatever its status; none iff it has no kit |
| Internal.CurrentKit | src/routes/internal.ts:34-39 | a generating kit of the organization; none iff it has none |
| Internal.OrgInstructions | src/routes/internal.ts:42-48 | exactly the instructions on the organization's kits (with multiplicity), in creation order |
| Internal.FeedbackKits | src/routes/internal.ts:51-57 | exactly the organization's kits with a denial reason (with multiplicity), ordered by `updatedAt` |
| Internal.GenerationDataFor | src/routes/internal.ts:25-71 | rejected iff `orgId` is missing or empty; otherwise the current kit, the instruction views and the feedbacks as above |
| Internal.GenerationInstructionsBelongToOrg | src/routes/internal.ts:42-48 | every reported instruction is one of the organization's |
| Internal.GeneratingIndex | src/routes/internal.ts:83-92 | the organization's first generating kit; none iff it has none |
| Internal.UpsertGenerationResult | src/routes/internal.ts:79-99 | that kit becomes drafted with the new mdx content, and takes the title and icon only when they are supplied; nothing else changes; with no generating kit, not-found and nothing changes |
| Internal.OrgRows | src/routes/internal.ts:118-124 | one organization's rows of the inner join with the stale filter |
| Internal.JoinRows | src/routes/internal.ts:112-124 | exactly the (organization, stale kit) rows of the join |
| Internal.SortedRows | src/routes/internal.ts:112-126 | the join's rows oldest first, containing every joined row and nothing else |
| Internal.FirstPerOrg | src/routes/internal.ts:128-134 | keeps a subset of the rows with the same set of organizations, none twice |
| Internal.FirstPerOrgOldest | src/routes/internal.ts:126-134 | on rows sorted oldest first, the kept row of each organization is its oldest, and the result stays sorted |
| Internal.Dedupe | src/routes/internal.ts:128-134 | the loop with a `seen` set computes exactly the first row of each organization |
| Internal.StaleSound | src/routes/internal.ts:120-134 | every entry is a joined stale row, and the entries ascend in time |
| Internal.StaleComplete | src/routes/internal.ts:120-134 | every organization with a stale kit has an entry |
| Internal.StaleOldest | src/routes/internal.ts:126-134 | an entry is no newer than any stale kit of its organization |
| Internal.StaleOrganizations | src/routes/internal.ts:107-142 | oldest first, one entry per organization, each a real stale row carrying its organization's oldest stale timestamp, and no organization with a stale kit missing |
| Internal.OrgSetup | src/routes/internal.ts:156-169 | `hasKit` iff an active kit exists; `status` is that of a latest active kit; `isSetup` iff it is validated or drafted |
| Internal.MediaKitSetup | src/routes/internal.ts:152-171 | one entry per organization, in table order, each being that organization's setup summary as `Internal.OrgSetup` characterizes it |
| Internal.SetupNeedsKit | src/routes/internal.ts:164-169 | an organization set up has a kit, and one with a kit that is not set up is generating |
| Internal.OrgHealth | src/routes/internal.ts:187-198 | `hasValidated`/`hasDrafted` are existence tests; `totalKits` counts all of the organization's kits |
| Internal.BulkHealth | src/routes/internal.ts:183-199 | one entry per organization, in table order, each being that organization's health entry as `Internal.OrgHealth` characterizes it |
| Internal.HealthTotalCountsEveryStatus | src/routes/internal.ts:187-198 | the total is the sum over all five statuses; an organization with no kit has neither a validated nor a drafted one |
| Public.LatestWithStatus | src/routes/public.ts:21-27 | the organization's latest kit with the given status; none iff there is none |
| Public.PublicKit | src/routes/public.ts:21-37 | the latest validated kit if one exists, else the latest drafted kit, else none; never generating, denied or archived |
| Public.PublicMediaKit | src/routes/public.ts:9-46 | not-found iff no organization holds the token; otherwise that organization's summary and public kit |
| Public.PublicPageIsTokenOwners | src/routes/public.ts:11-13 | with unique share tokens, a token opens exactly its owner's page |
| Public.LegacyPublicMediaKit | src/routes/public.ts:54-100 | the token is tried as a share token and then as an organization id; not-found iff both fail |
| Public.LegacyAgreesWithPublic | src/routes/public.ts:59-73 | the legacy route answers as the public route wherever that succeeds, and also succeeds for an organization id |
| Public.EmailKit | src/routes/public.ts:126-132 | the latest validated-or-drafted kit, with no preference between the two |
| Public.PressKitUrl | src/routes/public.ts:134 | "/public/" followed by the token iff the organization has a non-empty token |
| Public.Content | src/routes/public.ts:141 | the mdx page if not null, else the jsx page |
| Public.ContentTypeAsWritten | src/routes/public.ts:142 | "mdx" iff the mdx page is non-empty; "jsx" iff it is not and the jsx page is non-empty |
| Public.ContentType | src/routes/public.ts:141-142 | "mdx" iff the mdx page is not null; "jsx" iff it is null and the jsx page is not |
| Public.ContentTypeDescribesContent | src/routes/public.ts:141-142 | the corrected type names the page the content came from, and is null iff the content is |
| Public.ContentTypeAgreesOnNonEmptyPages | src/routes/public.ts:141-142 | for pages that are null or non-empty, the route's type equals the corrected one |
| Public.ContentTypeMismatch | src/routes/public.ts:141-142 | an empty mdx page beside a jsx page: content "" but type "jsx" |
| Public.EmailDataAsWritten | src/routes/public.ts:108-143 | all null for an unknown organization; otherwise the route's fields, with the route's content type |
| Public.EmailDataFor | src/routes/public.ts:108-143 | all null for an unknown organization; otherwise the name, the share link, and the status, title and content of the e-mail kit, with a type that is null iff the content is; it differs from the route's answer in the content type alone |
| Organizations.OrgByExternalIdFindsStored | src/db/schema.ts:25 | with unique external ids, the lookup finds the stored organization |
| Organizations.UpsertOrganization | src/routes/organizations.ts:10-29 | new external id: one organization with that id and name and fresh id and token; existing: only the name (when given) and `updatedAt` change, never the id or token; the lookup then finds it |
| Organizations.ShareToken | src/routes/organizations.ts:37-48 | the organization's share token, or not-found iff the external id is unknown |
| Organizations.ShareTokenOfStored | src/routes/organizations.ts:39-48 | a stored organization's lookup returns its own token |
| Organizations.ParseIds | src/routes/organizations.ts:64 | the ids are exactly the non-empty trimmed pieces of the comma split, each comma-free and trimmed |
| Organizations.ParsePiece | src/routes/organizations.ts:64 | a comma-free parameter parses to its trimmed text, or to nothing when that is blank |
| Organizations.ParseAppend | src/routes/organizations.ts:64 | parsing `a,b` parses `a` then `b`, so ids keep the input's order and repetitions |
| Organizations.ParseJoinedIds | src/routes/organizations.ts:64 | a comma-joined list of clean ids parses back to itself |
| Organizations.CheckExists | src/routes/organizations.ts:56-78 | rejected iff the parameter is missing or empty; otherwise one answer per parsed id in order, `exists` iff an organization has that id |
| Admin.MatchingOrgs | src/routes/admin.ts:13-32 | exactly the organizations matching the search, each as often as it is stored, ordered by `createdAt` |
| Admin.ListOrganizations | src/routes/admin.ts:9-34 | one listing per matching organization, in `createdAt` order, each with its kit count; every matching organization is listed and nothing else |
| Admin.ListWithoutSearchListsAll | src/routes/admin.ts:13-15 | without search text every organization is listed |
| Admin.VerbatimNameIsFound | src/routes/admin.ts:13-15 | a name containing the search text verbatim is found |
| Admin.DeleteOrganization | src/routes/admin.ts:42-68 | missing confirmation, unknown id or a different name: the matching error and no change; otherwise the organization, its kits and their instructions are removed and nothing else |
| Scenarios.RoundTrip | src/routes/media-kits.ts:150-227 | seed → edit (A) → result → validate A → edit A (B) → validate B ends with B the only validated kit, A archived, and two `initial` instructions |
| Scenarios.StaleExample | src/routes/internal.ts:120-134 | a validated kit at 20 and a drafted kit at 10, threshold 30: exactly one entry, carrying 10 |

## Left out

- The bodies of the database functions `update_media_kit_status`,
  `validate_media_kit_with_archive`, `cancel_draft_media_kit` and
  `upsert_generating_media_kit_by_org` are not part of this model. Their
  routes are modelled by the row changes their callers rely on.
- MediaKits.ValidateMediaKit: has no status guard, does not touch timestamps,
  and archives other validated kits only when they share a non-null
  `organizationId` with the target.
- MediaKits.CancelDraft: leaves the cancelled kit as it is and does not touch
  timestamps. Whether the database function does more is unknown.
- MediaKits.UpdateStatus: does not bump `updatedAt`, and keeps the stored
  denial reason when none is supplied. The route passes null in that case, and
  whether the database function keeps the stored reason is unknown.
- Internal.UpsertGenerationResult: takes the first stored generating kit of the
  organization and does not bump `updatedAt`. It keeps the stored title and
  icon when none is supplied. The route passes null in that case, and whether
  the database function keeps the stored values is unknown.
- The background calls (run registry, workflow engine, e-mail service) are not
  sent. Only their requests are recorded in the outbox, and their failures,
  which the source logs and swallows, are not modelled.
- Request parsing and validation by the schema library is left out, as are
  its error replies (HTTP 400 with the parser's message) and the catch-all
  HTTP 500 replies. Requests are taken as already well-typed.
- Authentication middleware, server wiring, logging and error reporting are
  left out, as is the OpenAPI registry.
- Concurrency is left out. Each operation is atomic and operations run one at
  a time, so the fan-out over organizations in the setup and health routes is
  an ordinary sequence.
- Timestamps are integers, so the month arithmetic that computes the staleness
  threshold is left out. The threshold is a parameter, and the ISO-8601 and
  `String(...)` renderings of timestamps are dropped.
- `ILIKE` patterns are matched as plain substrings, with `%` and `_` in the
  search text taken literally. Case folding is ASCII only.
- SQL leaves ties in an `ORDER BY` key in an unspecified order. The model fixes
  one order (that of the insertion sort) and states only the key order.
- Queries without an `ORDER BY` return rows in an order SQL leaves open. The
  model uses stored order for them. This affects the setup and health listings
  (src/routes/internal.ts:152 and :183), which follow the organizations' table
  order, and the generating-kit lookups (src/routes/internal.ts:34-39 and
  :83-92), which take the first generating kit stored.
- Random uuid and share-token generation is left out. Fresh values are
  parameters that must not already occur.
- `jsonPageContent` is a JSON column, and it is modelled as optional text.

## Findings

| source | as written | input that shows it | evidently intended | confidence | as-written member | corrected member |
|---|---|---|---|---|---|---|
| src/routes/public.ts:141-142 | `content` is chosen by null tests (`??`) but `contentType` by truthiness, so an empty mdx page yields content `""` labelled `"jsx"` (or `null` when there is no jsx page) | a kit with `mdxPageContent = ""` and `jsxPageContent = "<Page/>"` | `contentType` names the page `content` was taken from, and is null exactly when `content` is | medium; not executed | Public.ContentTypeAsWritten, Public.ContentTypeMismatch, Public.EmailDataAsWritten | Public.ContentType, Public.ContentTypeDescribesContent, Public.EmailDataFor |
