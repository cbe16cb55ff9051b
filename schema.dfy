/** The three tables of the database schema (organizations, media kits and
    media-kit instructions), the constraints the schema declares on them, and
    the row lookups the routes share.

    Identifiers (`uuid` columns) are strings. The external organization
    identifier is one field, `externalId` on an organization and
    `externalOrgId` on a kit, whichever column name a route uses for it. */
module Schema {
  import opened Base
  import opened Seqs

  type Uuid = string

  /** `media_kit_status`: a kit's status is one of these five and never null. */
  datatype Status = Drafted | Generating | Validated | Denied | Archived

  /** The enum's text form. */
  function StatusName(s: Status): string
  {
    match s
    case Drafted => "drafted"
    case Generating => "generating"
    case Validated => "validated"
    case Denied => "denied"
    case Archived => "archived"
  }

  /** The cast `text::media_kit_status`: only the five labels are accepted. */
  function ParseStatus(t: string): (r: Option<Status>)
    ensures r.Some? <==> t in {"drafted", "generating", "validated", "denied", "archived"}
  {
    if t == "drafted" then Some(Drafted)
    else if t == "generating" then Some(Generating)
    else if t == "validated" then Some(Validated)
    else if t == "denied" then Some(Denied)
    else if t == "archived" then Some(Archived)
    else None
  }

  /** The enum's text form and its cast are inverse to each other. */
  lemma StatusRoundTrip(s: Status, t: string)
    ensures ParseStatus(StatusName(s)) == Some(s)
    ensures ParseStatus(t) == Some(s) ==> StatusName(s) == t
  {
  }

  datatype Organization = Organization(
    id: Uuid,
    externalId: string,           // required and unique
    name: Option<string>,
    shareToken: Option<Uuid>,     // unique when present; generated at creation
    createdAt: int,
    updatedAt: int)

  datatype MediaKit = MediaKit(
    id: Uuid,
    clientOrganizationId: Option<Uuid>,
    externalOrgId: Option<string>,
    organizationId: Option<Uuid>, // references an organization when present
    title: Option<string>,
    iconUrl: Option<string>,
    mdxPageContent: Option<string>,
    jsxPageContent: Option<string>,
    jsonPageContent: Option<string>,
    notionPageContent: Option<string>,
    parentMediaKitId: Option<Uuid>, // unconstrained: no reference is checked
    status: Status,
    denialReason: Option<string>,
    createdAt: int,
    updatedAt: int)

  /** An instruction row; its text and type are never null. */
  datatype Instruction = Instruction(
    id: Uuid,
    mediaKitId: Uuid,             // references a kit; deleted with it
    instruction: string,
    instructionType: string,
    createdAt: int,
    updatedAt: int)

  /** The instruction that starts a generation on a new copy. */
  const INITIAL: string := "initial"
  /** A further instruction on a kit that is already generating. */
  const EDIT: string := "edit"

  function OrgIds(orgs: seq<Organization>): set<Uuid>
  {
    set o | o in orgs :: o.id
  }

  function KitIds(kits: seq<MediaKit>): set<Uuid>
  {
    set k | k in kits :: k.id
  }

  function InstructionIds(instructions: seq<Instruction>): set<Uuid>
  {
    set n | n in instructions :: n.id
  }

  predicate UniqueOrgIds(orgs: seq<Organization>)
  {
    forall i, j :: 0 <= i < j < |orgs| ==> orgs[i].id != orgs[j].id
  }

  predicate UniqueExternalIds(orgs: seq<Organization>)
  {
    forall i, j :: 0 <= i < j < |orgs| ==> orgs[i].externalId != orgs[j].externalId
  }

  predicate UniqueShareTokens(orgs: seq<Organization>)
  {
    forall i, j :: 0 <= i < j < |orgs| && orgs[i].shareToken.Some? ==> orgs[i].shareToken != orgs[j].shareToken
  }

  predicate UniqueKitIds(kits: seq<MediaKit>)
  {
    forall i, j :: 0 <= i < j < |kits| ==> kits[i].id != kits[j].id
  }

  predicate UniqueInstructionIds(instructions: seq<Instruction>)
  {
    forall i, j :: 0 <= i < j < |instructions| ==> instructions[i].id != instructions[j].id
  }

  /** The foreign key `media_kits.organization_id -> organizations.id`. */
  predicate KitOrgsExist(orgs: seq<Organization>, kits: seq<MediaKit>)
  {
    forall k :: k in kits && k.organizationId.Some? ==> k.organizationId.value in OrgIds(orgs)
  }

  /** The foreign key `media_kit_instructions.media_kit_id -> media_kits.id`. */
  predicate InstructionKitsExist(kits: seq<MediaKit>, instructions: seq<Instruction>)
  {
    forall n :: n in instructions ==> n.mediaKitId in KitIds(kits)
  }

  /** Every constraint the schema declares. */
  predicate Consistent(orgs: seq<Organization>, kits: seq<MediaKit>, instructions: seq<Instruction>)
  {
    && UniqueOrgIds(orgs)
    && UniqueExternalIds(orgs)
    && UniqueShareTokens(orgs)
    && UniqueKitIds(kits)
    && UniqueInstructionIds(instructions)
    && KitOrgsExist(orgs, kits)
    && InstructionKitsExist(kits, instructions)
  }

  /** The kit saved under `id`, if any. */
  function KitById(kits: seq<MediaKit>, id: Uuid): (r: Option<MediaKit>)
    ensures r.Some? ==> r.value in kits && r.value.id == id
    ensures r.None? <==> id !in KitIds(kits)
  {
    match First(kits, (k: MediaKit) => k.id == id)
    case None => None
    case Some(i) => Some(kits[i])
  }

  /** The position of the kit saved under `id`, if any. */
  function KitIndex(kits: seq<MediaKit>, id: Uuid): (r: Option<nat>)
    ensures r.Some? ==> r.value < |kits| && kits[r.value].id == id
    ensures r.None? <==> id !in KitIds(kits)
  {
    First(kits, (k: MediaKit) => k.id == id)
  }

  const ORG_NOT_FOUND: string := "Organization not found"

  /** The organization whose share token is `token`, if any. */
  function OrgByShareToken(orgs: seq<Organization>, token: Uuid): (r: Option<Organization>)
    ensures r.None? <==> forall o :: o in orgs ==> o.shareToken != Some(token)
    ensures r.Some? ==> r.value in orgs && r.value.shareToken == Some(token)
  {
    match First(orgs, (o: Organization) => o.shareToken == Some(token))
    case None => None
    case Some(i) => Some(orgs[i])
  }

  /** The organization saved under `id`, if any. */
  function OrgById(orgs: seq<Organization>, id: Uuid): (r: Option<Organization>)
    ensures r.None? <==> id !in OrgIds(orgs)
    ensures r.Some? ==> r.value in orgs && r.value.id == id
  {
    match First(orgs, (o: Organization) => o.id == id)
    case None => None
    case Some(i) => Some(orgs[i])
  }

  /** The position of the organization with external id `externalId`, if any. */
  function OrgIndexByExternalId(orgs: seq<Organization>, externalId: string): (r: Option<nat>)
    ensures r.Some? ==> r.value < |orgs| && orgs[r.value].externalId == externalId
    ensures r.None? <==> forall o :: o in orgs ==> o.externalId != externalId
  {
    var r := First(orgs, (o: Organization) => o.externalId == externalId);
    assert r.None? ==> forall o :: o in orgs ==> o.externalId != externalId;
    r
  }

  /** The organization with external id `externalId`, if any. */
  function OrgByExternalId(orgs: seq<Organization>, externalId: string): (r: Option<Organization>)
    ensures r.None? <==> forall o :: o in orgs ==> o.externalId != externalId
    ensures r.Some? ==> r.value in orgs && r.value.externalId == externalId
  {
    match OrgIndexByExternalId(orgs, externalId)
    case None => None
    case Some(i) => Some(orgs[i])
  }

  /** `findFirst(where p, orderBy desc(updatedAt))`: a kit satisfying `p` that is
      updated no earlier than any other such kit; the earliest stored on a tie. */
  function Latest(kits: seq<MediaKit>, p: MediaKit -> bool): (r: Option<MediaKit>)
    ensures r.None? <==> forall k :: k in kits ==> !p(k)
    ensures r.Some? ==> r.value in kits && p(r.value)
    ensures r.Some? ==> forall k :: k in kits && p(k) ==> k.updatedAt <= r.value.updatedAt
  {
    if kits == [] then None
    else
      assert kits == [kits[0]] + kits[1..];
      var rest := Latest(kits[1..], p);
      if !p(kits[0]) then rest
      else if rest.Some? && rest.value.updatedAt > kits[0].updatedAt then rest
      else Some(kits[0])
  }

  /** The number of kits that reference organization `orgId`. */
  function KitCount(kits: seq<MediaKit>, orgId: Uuid): (n: nat)
    ensures n <= |kits|
    ensures n == 0 <==> forall k :: k in kits ==> k.organizationId != Some(orgId)
  {
    if kits == [] then 0
    else
      assert kits == [kits[0]] + kits[1..];
      (if kits[0].organizationId == Some(orgId) then 1 else 0) + KitCount(kits[1..], orgId)
  }

  /** The number of kits of organization `orgId` with status `s`. */
  function KitCountWithStatus(kits: seq<MediaKit>, orgId: Uuid, s: Status): nat
  {
    if kits == [] then 0
    else (if kits[0].organizationId == Some(orgId) && kits[0].status == s then 1 else 0)
         + KitCountWithStatus(kits[1..], orgId, s)
  }

  /** An organization's kit count is the sum over all five statuses. */
  lemma {:induction false} KitCountByStatus(kits: seq<MediaKit>, orgId: Uuid)
    ensures KitCount(kits, orgId)
            == KitCountWithStatus(kits, orgId, Drafted) + KitCountWithStatus(kits, orgId, Generating)
               + KitCountWithStatus(kits, orgId, Validated) + KitCountWithStatus(kits, orgId, Denied)
               + KitCountWithStatus(kits, orgId, Archived)
  {
    if kits != [] {
      KitCountByStatus(kits[1..], orgId);
    }
  }

  /** Counting the kits of an organization is counting the rows a `WHERE` keeps. */
  lemma {:induction false} KitCountIsFilterLength(kits: seq<MediaKit>, orgId: Uuid)
    ensures KitCount(kits, orgId) == |Filter(kits, (k: MediaKit) => k.organizationId == Some(orgId))|
  {
    if kits != [] {
      KitCountIsFilterLength(kits[1..], orgId);
    }
  }

  /** Deleting the kits that satisfy `doomed`, with the instructions that
      reference them removed by the cascade. */
  function DeleteKits(kits: seq<MediaKit>, instructions: seq<Instruction>, doomed: MediaKit -> bool)
    : (r: (seq<MediaKit>, seq<Instruction>))
    ensures forall k :: k in r.0 <==> k in kits && !doomed(k)
    ensures forall n :: n in r.1 <==> n in instructions && n.mediaKitId in KitIds(r.0)
  {
    var kept := Filter(kits, (k: MediaKit) => !doomed(k));
    var ids := KitIds(kept);
    (kept, Filter(instructions, (n: Instruction) => n.mediaKitId in ids))
  }

  lemma FilterKeepsUniqueKitIds(kits: seq<MediaKit>, p: MediaKit -> bool)
    requires UniqueKitIds(kits)
    ensures UniqueKitIds(Filter(kits, p))
  {
    if kits != [] {
      FilterKeepsUniqueKitIds(kits[1..], p);
      assert forall k :: k in kits[1..] ==> k.id != kits[0].id;
    }
  }

  lemma FilterKeepsUniqueInstructionIds(instructions: seq<Instruction>, p: Instruction -> bool)
    requires UniqueInstructionIds(instructions)
    ensures UniqueInstructionIds(Filter(instructions, p))
  {
    if instructions != [] {
      FilterKeepsUniqueInstructionIds(instructions[1..], p);
      assert forall n :: n in instructions[1..] ==> n.id != instructions[0].id;
    }
  }

  /** The cascade keeps the instruction foreign key: what is left of the
      schema's constraints still holds after deleting kits. */
  lemma {:induction false} DeleteKitsConsistent(orgs: seq<Organization>, kits: seq<MediaKit>,
                                                instructions: seq<Instruction>, doomed: MediaKit -> bool)
    requires Consistent(orgs, kits, instructions)
    ensures Consistent(orgs, DeleteKits(kits, instructions, doomed).0, DeleteKits(kits, instructions, doomed).1)
  {
    FilterKeepsUniqueKitIds(kits, (k: MediaKit) => !doomed(k));
    var kept := DeleteKits(kits, instructions, doomed).0;
    FilterKeepsUniqueInstructionIds(instructions, (n: Instruction) => n.mediaKitId in KitIds(kept));
  }
}
