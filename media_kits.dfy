/** The media-kit routes: the filtered, priority-ordered listing of active
    kits, lookup by id, the in-place content and status updates, copy-on-edit
    versioning, the validate/archive swap and draft cancellation.

    Validate, cancel-draft and update-status run stored SQL functions whose
    bodies are not part of this model; they are modelled by the row changes
    the integration tests observe and nothing more (no timestamp changes, no
    status guards). */
module MediaKits {
  import opened Base
  import opened Seqs
  import opened Text
  import opened Schema
  import opened Storage

  const KIT_NOT_FOUND: string := "Media kit not found"
  const ORG_FILTER_REQUIRED: string := "clerk_organization_id or organization_id required"
  /** The notification title used when the kit has no title. */
  const DEFAULT_TITLE: string := "Press Kit"

  /** `ACTIVE_STATUSES`: the statuses a listing shows. */
  predicate Active(s: Status)
  {
    s == Validated || s == Drafted || s == Generating
  }

  /** The listing's `CASE status` priority; other statuses give NULL, which sorts last. */
  function Rank(s: Status): int
  {
    match s
    case Validated => 1
    case Drafted => 2
    case Generating => 3
    case _ => 4
  }

  // ---------------------------------------------------------------------
  // GET /media-kit

  /** The query parameters `clerk_organization_id`, `organization_id` and `title`. */
  datatype ListQuery = ListQuery(externalOrgId: Option<string>, organizationId: Option<Uuid>, title: Option<string>)

  /** A kit is listed when it is active and matches every filter that is supplied
      (an empty parameter counts as not supplied). */
  predicate Listed(q: ListQuery, k: MediaKit)
  {
    && Active(k.status)
    && (Truthy(q.externalOrgId) ==> k.externalOrgId == q.externalOrgId)
    && (Truthy(q.organizationId) ==> k.organizationId == q.organizationId)
    && (Truthy(q.title) ==> k.title.Some? && ContainsIgnoreCase(k.title.value, q.title.value))
  }

  /** Priority ascending, then `updatedAt` descending. */
  function ListKey(k: MediaKit): Key
  {
    Key(Rank(k.status), -k.updatedAt)
  }

  /** The listing: rejected without an organization filter; otherwise exactly the
      listed kits, validated before drafted before generating, newest first within
      a status. */
  function ListMediaKits(kits: seq<MediaKit>, q: ListQuery): (r: Result<seq<MediaKit>>)
    ensures r.Err? <==> !Truthy(q.externalOrgId) && !Truthy(q.organizationId)
    ensures r.Err? ==> r.error == BadRequest(ORG_FILTER_REQUIRED)
    ensures r.Ok? ==> forall k :: k in r.value <==> k in kits && Listed(q, k)
    ensures r.Ok? ==> forall k :: multiset(r.value)[k] == if Listed(q, k) then multiset(kits)[k] else 0
    ensures r.Ok? ==> forall i, j :: 0 <= i < j < |r.value| ==>
              Rank(r.value[i].status) < Rank(r.value[j].status)
              || (Rank(r.value[i].status) == Rank(r.value[j].status) && r.value[i].updatedAt >= r.value[j].updatedAt)
  {
    if !Truthy(q.externalOrgId) && !Truthy(q.organizationId) then
      Err(BadRequest(ORG_FILTER_REQUIRED))
    else
      var matching := Filter(kits, (k: MediaKit) => Listed(q, k));
      var sorted := SortBy(matching, ListKey);
      assert forall k :: k in sorted <==> k in multiset(matching);
      Ok(sorted)
  }

  /** Every kit of a listing is validated, drafted or generating. */
  lemma ListingIsActive(kits: seq<MediaKit>, q: ListQuery)
    requires ListMediaKits(kits, q).Ok?
    ensures forall k :: k in ListMediaKits(kits, q).value ==> k.status != Denied && k.status != Archived
  {
  }

  // ---------------------------------------------------------------------
  // GET /media-kit/:id

  function GetMediaKit(kits: seq<MediaKit>, id: Uuid): (r: Result<MediaKit>)
    ensures r.Ok? <==> id in KitIds(kits)
    ensures r.Ok? ==> r.value in kits && r.value.id == id
    ensures r.Err? ==> r.error == NotFound(KIT_NOT_FOUND)
  {
    match KitById(kits, id)
    case None => Err(NotFound(KIT_NOT_FOUND))
    case Some(k) => Ok(k)
  }

  // ---------------------------------------------------------------------
  // POST /update-mdx

  /** Sets the kit's mdx content and bumps its `updatedAt`, whatever its status. */
  method UpdateMdx(store: Store, kitId: Uuid, mdxContent: string, now: int) returns (r: Result<MediaKit>)
    requires store.Valid()
    modifies store
    ensures store.Valid()
    ensures store.orgs == old(store.orgs) && store.instructions == old(store.instructions)
    ensures store.outbox == old(store.outbox)
    ensures SingleValidated(old(store.kits)) ==> SingleValidated(store.kits)
    ensures match old(KitIndex(store.kits, kitId))
      case None => r == Err(NotFound(KIT_NOT_FOUND)) && store.kits == old(store.kits)
      case Some(i) =>
        && r == Ok(old(store.kits[i]).(mdxPageContent := Some(mdxContent), updatedAt := now))
        && store.kits == old(store.kits)[i := r.value]
  {
    var idx := KitIndex(store.kits, kitId);
    if idx.None? {
      return Err(NotFound(KIT_NOT_FOUND));
    }
    var i := idx.value;
    var updated := store.kits[i].(mdxPageContent := Some(mdxContent), updatedAt := now);
    KitsRewriteConsistent(store.orgs, store.kits, store.kits[i := updated], store.instructions);
    store.kits := store.kits[i := updated];
    r := Ok(updated);
  }

  // ---------------------------------------------------------------------
  // POST /update-status

  /** The generic status update: sets the status, and the denial reason when one
      is supplied. It performs no other transition. */
  method UpdateStatus(store: Store, kitId: Uuid, status: Status, denialReason: Option<string>)
    returns (r: Result<MediaKit>)
    requires store.Valid()
    modifies store
    ensures store.Valid()
    ensures store.orgs == old(store.orgs) && store.instructions == old(store.instructions)
    ensures store.outbox == old(store.outbox)
    ensures status != Validated && SingleValidated(old(store.kits)) ==> SingleValidated(store.kits)
    ensures match old(KitIndex(store.kits, kitId))
      case None => r == Err(NotFound(KIT_NOT_FOUND)) && store.kits == old(store.kits)
      case Some(i) =>
        && r.Ok? && r.value.status == status
        && r.value.denialReason == (if denialReason.Some? then denialReason else old(store.kits[i].denialReason))
        && r.value == old(store.kits[i]).(status := r.value.status, denialReason := r.value.denialReason)
        && store.kits == old(store.kits)[i := r.value]
  {
    var idx := KitIndex(store.kits, kitId);
    if idx.None? {
      return Err(NotFound(KIT_NOT_FOUND));
    }
    var i := idx.value;
    var k := store.kits[i];
    var updated := k.(status := status, denialReason := if denialReason.Some? then denialReason else k.denialReason);
    KitsRewriteConsistent(store.orgs, store.kits, store.kits[i := updated], store.instructions);
    store.kits := store.kits[i := updated];
    r := Ok(updated);
  }

  // ---------------------------------------------------------------------
  // POST /edit-media-kit

  /** `b` carries `a`'s organization references, title, icon and all four contents. */
  predicate SameContent(a: MediaKit, b: MediaKit)
  {
    && a.clientOrganizationId == b.clientOrganizationId
    && a.externalOrgId == b.externalOrgId
    && a.organizationId == b.organizationId
    && a.title == b.title
    && a.iconUrl == b.iconUrl
    && a.mdxPageContent == b.mdxPageContent
    && a.jsxPageContent == b.jsxPageContent
    && a.jsonPageContent == b.jsonPageContent
    && a.notionPageContent == b.notionPageContent
  }

  /** The workflow trigger, started only for a kit with an external organization id. */
  function GenerationJobs(kit: MediaKit, organizationUrl: Option<string>): seq<Job>
  {
    if Truthy(kit.externalOrgId) then [GenerateKit(kit.externalOrgId.value, kit.id, organizationUrl)] else []
  }

  /** Copy-on-edit. A validated or drafted kit is copied into a new generating kit
      whose parent is the source, and the source is left as it was; a generating
      kit only has its `updatedAt` bumped; every other status is rejected. Each
      successful edit appends one instruction on the generating kit, `initial`
      on a new copy and `edit` otherwise. */
  method EditMediaKit(store: Store, kitId: Uuid, instruction: string, organizationUrl: Option<string>,
                      now: int, newKitId: Uuid, newInstructionId: Uuid) returns (r: Result<MediaKit>)
    requires store.Valid()
    requires newKitId !in KitIds(store.kits)
    requires newInstructionId !in InstructionIds(store.instructions)
    modifies store
    ensures store.Valid()
    ensures store.orgs == old(store.orgs)
    ensures SingleValidated(old(store.kits)) ==> SingleValidated(store.kits)
    ensures match old(KitIndex(store.kits, kitId))
      case None =>
        r == Err(NotFound(KIT_NOT_FOUND)) && unchanged(store)
      case Some(i) =>
        var src := old(store.kits[i]);
        if src.status == Validated || src.status == Drafted then
          && r.Ok? && r.value.id == newKitId
          && r.value.status == Generating && r.value.parentMediaKitId == Some(src.id)
          && SameContent(r.value, src)
          && r.value.denialReason.None? && r.value.createdAt == now && r.value.updatedAt == now
          && store.kits == old(store.kits) + [r.value]
          && store.instructions == old(store.instructions) + [Instruction(newInstructionId, newKitId, instruction, INITIAL, now, now)]
          && store.outbox == old(store.outbox) + GenerationJobs(r.value, organizationUrl)
        else if src.status == Generating then
          && r == Ok(src.(updatedAt := now))
          && store.kits == old(store.kits)[i := r.value]
          && store.instructions == old(store.instructions) + [Instruction(newInstructionId, src.id, instruction, EDIT, now, now)]
          && store.outbox == old(store.outbox) + GenerationJobs(r.value, organizationUrl)
        else
          r == Err(BadRequest("Cannot edit kit with status: " + StatusName(src.status))) && unchanged(store)
  {
    var idx := KitIndex(store.kits, kitId);
    if idx.None? {
      return Err(NotFound(KIT_NOT_FOUND));
    }
    var i := idx.value;
    var current := store.kits[i];
    var generating: MediaKit;
    if current.status == Validated || current.status == Drafted {
      generating := MediaKit(newKitId, current.clientOrganizationId, current.externalOrgId, current.organizationId,
                             current.title, current.iconUrl, current.mdxPageContent, current.jsxPageContent,
                             current.jsonPageContent, current.notionPageContent,
                             Some(current.id), Generating, None, now, now);
      assert current in store.kits;
      KitAppendConsistent(store.orgs, store.kits, store.instructions, generating);
      KitIdsAppend(store.kits, generating);
      store.kits := store.kits + [generating];
    } else if current.status == Generating {
      generating := current.(updatedAt := now);
      KitsRewriteConsistent(store.orgs, store.kits, store.kits[i := generating], store.instructions);
      store.kits := store.kits[i := generating];
    } else {
      return Err(BadRequest("Cannot edit kit with status: " + StatusName(current.status)));
    }
    var note := Instruction(newInstructionId, generating.id, instruction,
                            if current.status == Generating then EDIT else INITIAL, now, now);
    InstructionAppendConsistent(store.orgs, store.kits, store.instructions, note);
    store.instructions := store.instructions + [note];
    store.outbox := store.outbox + GenerationJobs(generating, organizationUrl);
    r := Ok(generating);
  }

  // ---------------------------------------------------------------------
  // POST /validate

  /** Both kits belong to the same (non-null) organization. */
  predicate SameOrg(a: MediaKit, b: MediaKit)
  {
    a.organizationId.Some? && a.organizationId == b.organizationId
  }

  /** The validate/archive swap on the rows: the target becomes validated and
      every other validated kit of its organization becomes archived. */
  function ValidateSwap(kits: seq<MediaKit>, target: MediaKit): (r: seq<MediaKit>)
    ensures |r| == |kits|
  {
    seq(|kits|, j requires 0 <= j < |kits| =>
      if kits[j].id == target.id then kits[j].(status := Validated)
      else if kits[j].status == Validated && SameOrg(kits[j], target) then kits[j].(status := Archived)
      else kits[j])
  }

  /** After the swap the target's organization has exactly one validated kit: the target. */
  lemma ValidateLeavesOneValidated(kits: seq<MediaKit>, target: MediaKit)
    requires target in kits
    ensures exists j :: 0 <= j < |kits| && ValidateSwap(kits, target)[j].id == target.id
                        && ValidateSwap(kits, target)[j].status == Validated
    ensures forall j :: 0 <= j < |kits| && SameOrg(ValidateSwap(kits, target)[j], target)
                        && ValidateSwap(kits, target)[j].status == Validated
                        ==> ValidateSwap(kits, target)[j].id == target.id
  {
    var j :| 0 <= j < |kits| && kits[j] == target;
    assert ValidateSwap(kits, target)[j].id == target.id;
  }

  /** The swap keeps "at most one validated kit per organization". */
  lemma ValidateKeepsSingleValidated(kits: seq<MediaKit>, target: MediaKit)
    requires UniqueKitIds(kits)
    requires target in kits
    requires SingleValidated(kits)
    ensures SingleValidated(ValidateSwap(kits, target))
  {
    var r := ValidateSwap(kits, target);
    forall i, j | 0 <= i < j < |r| && r[i].status == Validated && r[j].status == Validated
      ensures r[i].organizationId.None? || r[i].organizationId != r[j].organizationId
    {
      var t :| 0 <= t < |kits| && kits[t] == target;
      assert kits[i].id == target.id ==> i == t;
      assert kits[j].id == target.id ==> j == t;
    }
  }

  /** The "ready" e-mail, sent only for a kit with an external organization id. */
  function ReadyJobs(kit: MediaKit): seq<Job>
  {
    if Truthy(kit.externalOrgId) then
      [NotifyReady(kit.externalOrgId.value, if Truthy(kit.title) then kit.title.value else DEFAULT_TITLE)]
    else []
  }

  /** Validates the kit, archiving its organization's previously validated kit. */
  method ValidateMediaKit(store: Store, kitId: Uuid) returns (r: Result<MediaKit>)
    requires store.Valid()
    modifies store
    ensures store.Valid()
    ensures store.orgs == old(store.orgs) && store.instructions == old(store.instructions)
    ensures SingleValidated(old(store.kits)) ==> SingleValidated(store.kits)
    ensures match old(KitById(store.kits, kitId))
      case None => r == Err(NotFound(KIT_NOT_FOUND)) && unchanged(store)
      case Some(target) =>
        && r == Ok(target.(status := Validated))
        && store.kits == ValidateSwap(old(store.kits), target)
        && store.outbox == old(store.outbox) + ReadyJobs(r.value)
  {
    var found := KitById(store.kits, kitId);
    if found.None? {
      return Err(NotFound(KIT_NOT_FOUND));
    }
    var target := found.value;
    var swapped := ValidateSwap(store.kits, target);
    KitsRewriteConsistent(store.orgs, store.kits, swapped, store.instructions);
    if SingleValidated(store.kits) {
      ValidateKeepsSingleValidated(store.kits, target);
    }
    store.kits := swapped;
    r := Ok(target.(status := Validated));
    store.outbox := store.outbox + ReadyJobs(r.value);
  }

  // ---------------------------------------------------------------------
  // POST /cancel-draft

  /** The position of the parent of the kit saved under `id`, when that kit and
      its parent both exist. */
  function ParentIndex(kits: seq<MediaKit>, id: Uuid): (r: Option<nat>)
    ensures r.Some? ==> r.value < |kits| && KitById(kits, id).Some?
                        && KitById(kits, id).value.parentMediaKitId == Some(kits[r.value].id)
    ensures r.None? <==> KitById(kits, id).None? || KitById(kits, id).value.parentMediaKitId.None?
                         || KitById(kits, id).value.parentMediaKitId.value !in KitIds(kits)
  {
    match KitById(kits, id)
    case None => None
    case Some(child) =>
      match child.parentMediaKitId
      case None => None
      case Some(parent) => KitIndex(kits, parent)
  }

  /** Restores the draft's parent to drafted and always reports success; the
      cancelled kit itself is left as it is. */
  method CancelDraft(store: Store, kitId: Uuid) returns (success: bool, restored: Option<MediaKit>)
    requires store.Valid()
    modifies store
    ensures store.Valid()
    ensures success
    ensures store.orgs == old(store.orgs) && store.instructions == old(store.instructions)
    ensures store.outbox == old(store.outbox)
    ensures SingleValidated(old(store.kits)) ==> SingleValidated(store.kits)
    ensures match old(ParentIndex(store.kits, kitId))
      case None => restored.None? && store.kits == old(store.kits)
      case Some(p) =>
        && restored == Some(old(store.kits[p]).(status := Drafted))
        && store.kits == old(store.kits)[p := restored.value]
  {
    success := true;
    var idx := ParentIndex(store.kits, kitId);
    if idx.None? {
      return true, None;
    }
    var p := idx.value;
    var parent := store.kits[p].(status := Drafted);
    KitsRewriteConsistent(store.orgs, store.kits, store.kits[p := parent], store.instructions);
    store.kits := store.kits[p := parent];
    restored := Some(parent);
  }
}
