/** The internal routes the generation workflow and the dashboard call: the
    latest kit of an organization, the inputs of a generation, the workflow's
    result callback, the scan for organizations whose kits are out of date,
    and the per-organization setup and health summaries.

    Here the organization is named by its external identifier, which the kits
    carry in `externalOrgId`; the scans over all organizations join on the
    internal `organizationId` instead, as the queries do. */
module Internal {
  import opened Base
  import opened Seqs
  import opened Schema
  import opened Storage
  import opened MediaKits

  const NO_GENERATING_KIT: string := "No generating kit found for org"
  const ORG_ID_REQUIRED: string := "orgId query parameter required"

  /** The kit carries external organization id `orgId`. */
  predicate OfOrg(k: MediaKit, orgId: string)
  {
    k.externalOrgId == Some(orgId)
  }

  // ---------------------------------------------------------------------
  // GET /internal/media-kit/by-org/:orgId

  /** The organization's most recently updated kit, whatever its status, or none. */
  function KitByOrg(kits: seq<MediaKit>, orgId: string): (r: Option<MediaKit>)
    ensures r.None? <==> forall k :: k in kits ==> !OfOrg(k, orgId)
    ensures r.Some? ==> r.value in kits && OfOrg(r.value, orgId)
    ensures r.Some? ==> forall k :: k in kits && OfOrg(k, orgId) ==> k.updatedAt <= r.value.updatedAt
  {
    Latest(kits, (k: MediaKit) => OfOrg(k, orgId))
  }

  // ---------------------------------------------------------------------
  // GET /internal/generation-data

  /** An instruction as the generation data reports it. */
  datatype InstructionView = InstructionView(id: Uuid, instruction: string, instructionType: string, createdAt: int)

  /** A denial reason with the kit it was given to. */
  datatype Feedback = Feedback(id: Uuid, denialReason: string)

  datatype GenerationData = GenerationData(
    currentKit: Option<MediaKit>,
    instructions: seq<InstructionView>,
    feedbacks: seq<Feedback>)

  function View(n: Instruction): InstructionView
  {
    InstructionView(n.id, n.instruction, n.instructionType, n.createdAt)
  }

  /** The ids of the organization's kits. */
  function OrgKitIds(kits: seq<MediaKit>, orgId: string): set<Uuid>
  {
    set k | k in kits && OfOrg(k, orgId) :: k.id
  }

  function CreatedKey(n: Instruction): Key
  {
    Key(n.createdAt, 0)
  }

  function UpdatedKey(k: MediaKit): Key
  {
    Key(k.updatedAt, 0)
  }

  /** The instructions on any kit of the organization, oldest first. */
  function OrgInstructions(kits: seq<MediaKit>, instructions: seq<Instruction>, orgId: string)
    : (r: seq<Instruction>)
    ensures forall n :: n in r <==> n in instructions && n.mediaKitId in OrgKitIds(kits, orgId)
    ensures forall n :: multiset(r)[n] == if n.mediaKitId in OrgKitIds(kits, orgId) then multiset(instructions)[n] else 0
    ensures forall i, j :: 0 <= i < j < |r| ==> r[i].createdAt <= r[j].createdAt
  {
    var ids := OrgKitIds(kits, orgId);
    var joined := Filter(instructions, (n: Instruction) => n.mediaKitId in ids);
    var r := SortBy(joined, CreatedKey);
    assert forall n :: n in r <==> n in multiset(joined);
    r
  }

  /** The organization's kits that were given a denial reason, least recently updated first. */
  function FeedbackKits(kits: seq<MediaKit>, orgId: string): (r: seq<MediaKit>)
    ensures forall k :: k in r <==> k in kits && OfOrg(k, orgId) && k.denialReason.Some?
    ensures forall k :: multiset(r)[k] == if OfOrg(k, orgId) && k.denialReason.Some? then multiset(kits)[k] else 0
    ensures forall i, j :: 0 <= i < j < |r| ==> r[i].updatedAt <= r[j].updatedAt
  {
    var denied := Filter(kits, (k: MediaKit) => OfOrg(k, orgId) && k.denialReason.Some?);
    var r := SortBy(denied, UpdatedKey);
    assert forall k :: k in r <==> k in multiset(denied);
    r
  }

  /** A generating kit of the organization, if it has one. */
  function CurrentKit(kits: seq<MediaKit>, orgId: string): (r: Option<MediaKit>)
    ensures r.None? <==> forall k :: k in kits && OfOrg(k, orgId) ==> k.status != Generating
    ensures r.Some? ==> r.value in kits && OfOrg(r.value, orgId) && r.value.status == Generating
  {
    match GeneratingIndex(kits, orgId)
    case None => None
    case Some(i) => Some(kits[i])
  }

  function Views(ns: seq<Instruction>): (r: seq<InstructionView>)
    ensures |r| == |ns| && forall i :: 0 <= i < |ns| ==> r[i] == View(ns[i])
  {
    seq(|ns|, i requires 0 <= i < |ns| => View(ns[i]))
  }

  function Feedbacks(fs: seq<MediaKit>): (r: seq<Feedback>)
    requires forall k :: k in fs ==> k.denialReason.Some?
    ensures |r| == |fs| && forall i :: 0 <= i < |fs| ==> r[i] == Feedback(fs[i].id, fs[i].denialReason.value)
  {
    seq(|fs|, i requires 0 <= i < |fs| => Feedback(fs[i].id, fs[i].denialReason.value))
  }

  /** Rejected without an organization; otherwise a generating kit of the
      organization if there is one, the organization's instructions oldest
      first, and its denial reasons in the order of the kits' last update. */
  function GenerationDataFor(kits: seq<MediaKit>, instructions: seq<Instruction>, orgId: Option<string>)
    : (r: Result<GenerationData>)
    ensures r.Err? <==> !Truthy(orgId)
    ensures r.Err? ==> r.error == BadRequest(ORG_ID_REQUIRED)
    ensures r.Ok? ==> r.value.currentKit == CurrentKit(kits, orgId.value)
    ensures r.Ok? ==> r.value.instructions == Views(OrgInstructions(kits, instructions, orgId.value))
    ensures r.Ok? ==> r.value.feedbacks == Feedbacks(FeedbackKits(kits, orgId.value))
  {
    if !Truthy(orgId) then Err(BadRequest(ORG_ID_REQUIRED))
    else
      var org := orgId.value;
      Ok(GenerationData(CurrentKit(kits, org), Views(OrgInstructions(kits, instructions, org)),
                        Feedbacks(FeedbackKits(kits, org))))
  }

  /** Every reported instruction belongs to a kit of the organization. */
  lemma GenerationInstructionsBelongToOrg(kits: seq<MediaKit>, instructions: seq<Instruction>, orgId: string)
    requires orgId != ""
    ensures forall v :: v in GenerationDataFor(kits, instructions, Some(orgId)).value.instructions ==>
              exists n :: n in instructions && n.mediaKitId in OrgKitIds(kits, orgId) && v == View(n)
  {
    var r := GenerationDataFor(kits, instructions, Some(orgId));
    var ns := OrgInstructions(kits, instructions, orgId);
    forall v | v in r.value.instructions
      ensures exists n :: n in instructions && n.mediaKitId in OrgKitIds(kits, orgId) && v == View(n)
    {
      var i :| 0 <= i < |r.value.instructions| && r.value.instructions[i] == v;
      assert ns[i] in ns;
    }
  }

  // ---------------------------------------------------------------------
  // POST /internal/upsert-generation-result

  /** The position of the organization's first generating kit, if any. */
  function GeneratingIndex(kits: seq<MediaKit>, orgId: string): (r: Option<nat>)
    ensures r.Some? ==> r.value < |kits| && OfOrg(kits[r.value], orgId) && kits[r.value].status == Generating
    ensures r.None? <==> forall k :: k in kits && OfOrg(k, orgId) ==> k.status != Generating
  {
    var r := First(kits, (k: MediaKit) => OfOrg(k, orgId) && k.status == Generating);
    assert r.None? ==> forall k :: k in kits ==> !(OfOrg(k, orgId) && k.status == Generating);
    r
  }

  /** The workflow's result: the organization's generating kit receives the
      generated content and becomes a draft; the title and icon are replaced
      only when the workflow supplies them. */
  method UpsertGenerationResult(store: Store, orgId: string, mdxContent: string,
                                title: Option<string>, iconUrl: Option<string>) returns (r: Result<MediaKit>)
    requires store.Valid()
    modifies store
    ensures store.Valid()
    ensures store.orgs == old(store.orgs) && store.instructions == old(store.instructions)
    ensures store.outbox == old(store.outbox)
    ensures SingleValidated(old(store.kits)) ==> SingleValidated(store.kits)
    ensures match old(GeneratingIndex(store.kits, orgId))
      case None => r == Err(NotFound(NO_GENERATING_KIT)) && store.kits == old(store.kits)
      case Some(i) =>
        var k := old(store.kits[i]);
        && r == Ok(k.(status := Drafted, mdxPageContent := Some(mdxContent),
                      title := if title.Some? then title else k.title,
                      iconUrl := if iconUrl.Some? then iconUrl else k.iconUrl))
        && store.kits == old(store.kits)[i := r.value]
  {
    var idx := GeneratingIndex(store.kits, orgId);
    if idx.None? {
      return Err(NotFound(NO_GENERATING_KIT));
    }
    var i := idx.value;
    var k := store.kits[i];
    var updated := k.(status := Drafted, mdxPageContent := Some(mdxContent),
                      title := if title.Some? then title else k.title,
                      iconUrl := if iconUrl.Some? then iconUrl else k.iconUrl);
    KitsRewriteConsistent(store.orgs, store.kits, store.kits[i := updated], store.instructions);
    store.kits := store.kits[i := updated];
    r := Ok(updated);
  }

  // ---------------------------------------------------------------------
  // GET /clients-media-kits-need-update

  /** One row of the join: an organization and the update time of one of its kits. */
  datatype StaleRow = StaleRow(orgId: string, name: Option<string>, lastUpdated: int)

  /** A validated or drafted kit not updated since `threshold` (one month before now). */
  predicate Stale(k: MediaKit, threshold: int)
  {
    (k.status == Validated || k.status == Drafted) && k.updatedAt < threshold
  }

  /** The inner join's condition and the `WHERE` clause. */
  predicate Joined(o: Organization, k: MediaKit, threshold: int)
  {
    k.organizationId == Some(o.id) && Stale(k, threshold)
  }

  function RowFor(o: Organization, k: MediaKit): StaleRow
  {
    StaleRow(o.externalId, o.name, k.updatedAt)
  }

  function RowKey(r: StaleRow): Key
  {
    Key(r.lastUpdated, 0)
  }

  function OrgRows(o: Organization, kits: seq<MediaKit>, threshold: int): (r: seq<StaleRow>)
    ensures forall x :: x in r <==> exists k :: k in kits && Joined(o, k, threshold) && x == RowFor(o, k)
  {
    if kits == [] then []
    else
      assert kits == [kits[0]] + kits[1..];
      (if Joined(o, kits[0], threshold) then [RowFor(o, kits[0])] else []) + OrgRows(o, kits[1..], threshold)
  }

  /** `x` is the row of the join for some organization and one of its stale kits. */
  predicate IsStaleRow(orgs: seq<Organization>, kits: seq<MediaKit>, threshold: int, x: StaleRow)
  {
    exists o, k :: o in orgs && k in kits && Joined(o, k, threshold) && x == RowFor(o, k)
  }

  /** The rows of the join, organization by organization. */
  function JoinRows(orgs: seq<Organization>, kits: seq<MediaKit>, threshold: int): (r: seq<StaleRow>)
    ensures forall x :: x in r <==> IsStaleRow(orgs, kits, threshold, x)
  {
    if orgs == [] then []
    else
      assert orgs == [orgs[0]] + orgs[1..];
      OrgRows(orgs[0], kits, threshold) + JoinRows(orgs[1..], kits, threshold)
  }

  function OrgIdsOf(rows: seq<StaleRow>): set<string>
  {
    set x | x in rows :: x.orgId
  }

  /** The rows whose organization does not occur earlier: the reference the
      de-duplicating loop is proved against. */
  function FirstPerOrg(rows: seq<StaleRow>): (r: seq<StaleRow>)
    ensures forall x :: x in r ==> x in rows
    ensures OrgIdsOf(r) == OrgIdsOf(rows)
    ensures forall i, j :: 0 <= i < j < |r| ==> r[i].orgId != r[j].orgId
  {
    if rows == [] then []
    else
      var init := rows[..|rows| - 1];
      var last := rows[|rows| - 1];
      var prefix := FirstPerOrg(init);
      assert rows == init + [last];
      OrgIdsAppendRow(init, last);
      if last.orgId in OrgIdsOf(init) then prefix
      else
        OrgIdsAppendRow(prefix, last);
        assert forall i :: 0 <= i < |prefix| ==> prefix[i] in prefix;
        prefix + [last]
  }

  lemma OrgIdsAppendRow(rows: seq<StaleRow>, x: StaleRow)
    ensures OrgIdsOf(rows + [x]) == OrgIdsOf(rows) + {x.orgId}
  {
    assert forall y :: y in rows + [x] <==> y in rows || y == x;
  }

  /** In rows sorted oldest first, nothing before the last row is newer than it. */
  lemma SortedBeforeLast(rows: seq<StaleRow>)
    requires rows != [] && SortedBy(rows, RowKey)
    ensures forall x :: x in rows[..|rows| - 1] ==> x.lastUpdated <= rows[|rows| - 1].lastUpdated
  {
    forall x | x in rows[..|rows| - 1] ensures x.lastUpdated <= rows[|rows| - 1].lastUpdated {
      var i :| 0 <= i < |rows| - 1 && rows[i] == x;
      assert KeyLe(RowKey(rows[i]), RowKey(rows[|rows| - 1]));
    }
  }

  /** On rows sorted oldest first, the first row of each organization is its
      oldest, and the rows kept stay sorted. */
  lemma {:induction false} FirstPerOrgOldest(rows: seq<StaleRow>)
    requires SortedBy(rows, RowKey)
    ensures SortedBy(FirstPerOrg(rows), RowKey)
    ensures forall x, y :: x in FirstPerOrg(rows) && y in rows && y.orgId == x.orgId ==> x.lastUpdated <= y.lastUpdated
  {
    if rows != [] {
      var init := rows[..|rows| - 1];
      var last := rows[|rows| - 1];
      assert rows == init + [last];
      assert SortedBy(init, RowKey);
      FirstPerOrgOldest(init);
      SortedBeforeLast(rows);
      if last.orgId !in OrgIdsOf(init) {
        AppendOldest(FirstPerOrg(init), init, last);
      }
    }
  }

  /** The step of `FirstPerOrgOldest` where the last row starts a new organization. */
  lemma AppendOldest(prefix: seq<StaleRow>, init: seq<StaleRow>, last: StaleRow)
    requires forall x :: x in prefix ==> x in init
    requires last.orgId !in OrgIdsOf(init)
    requires SortedBy(prefix, RowKey)
    requires forall x, y :: x in prefix && y in init && y.orgId == x.orgId ==> x.lastUpdated <= y.lastUpdated
    requires forall x :: x in init ==> x.lastUpdated <= last.lastUpdated
    ensures SortedBy(prefix + [last], RowKey)
    ensures forall x, y :: x in prefix + [last] && y in init + [last] && y.orgId == x.orgId
                           ==> x.lastUpdated <= y.lastUpdated
  {
    assert forall i :: 0 <= i < |prefix| ==> prefix[i] in init;
    forall x, y | x in prefix + [last] && y in init + [last] && y.orgId == x.orgId
      ensures x.lastUpdated <= y.lastUpdated
    {
      if x == last {
        assert y !in init;
      }
    }
  }

  /** A row is kept exactly when no earlier row has its organization. */
  method Dedupe(rows: seq<StaleRow>) returns (out: seq<StaleRow>)
    ensures out == FirstPerOrg(rows)
  {
    var seen: set<string> := {};
    out := [];
    var i := 0;
    while i < |rows|
      invariant 0 <= i <= |rows|
      invariant out == FirstPerOrg(rows[..i])
      invariant seen == OrgIdsOf(rows[..i])
    {
      assert rows[..i + 1][..i] == rows[..i];
      OrgIdsAppendRow(rows[..i], rows[i]);
      assert rows[..i + 1] == rows[..i] + [rows[i]];
      if rows[i].orgId !in seen {
        out := out + [rows[i]];
      }
      seen := seen + {rows[i].orgId};
      i := i + 1;
    }
    assert rows[..|rows|] == rows;
  }

  /** The joined rows sorted oldest first. */
  function SortedRows(orgs: seq<Organization>, kits: seq<MediaKit>, threshold: int): (r: seq<StaleRow>)
    ensures SortedBy(r, RowKey)
    ensures forall o, k :: o in orgs && k in kits && Joined(o, k, threshold) ==> RowFor(o, k) in r
    ensures forall x :: x in r ==> IsStaleRow(orgs, kits, threshold, x)
  {
    var rows := JoinRows(orgs, kits, threshold);
    var sorted := SortBy(rows, RowKey);
    assert forall x :: x in sorted <==> x in multiset(rows);
    forall o, k | o in orgs && k in kits && Joined(o, k, threshold) ensures RowFor(o, k) in sorted {
      assert RowFor(o, k) in rows;
    }
    sorted
  }

  /** Every organization with a stale kit has an entry. */
  lemma StaleComplete(orgs: seq<Organization>, kits: seq<MediaKit>, threshold: int)
    ensures forall o, k :: o in orgs && k in kits && Joined(o, k, threshold) ==>
              o.externalId in OrgIdsOf(FirstPerOrg(SortedRows(orgs, kits, threshold)))
  {
    var sorted := SortedRows(orgs, kits, threshold);
    forall o, k | o in orgs && k in kits && Joined(o, k, threshold)
      ensures o.externalId in OrgIdsOf(FirstPerOrg(sorted))
    {
      assert RowFor(o, k) in sorted;
      assert o.externalId in OrgIdsOf(sorted);
    }
  }

  /** An entry carries the time of its organization's oldest stale kit. */
  lemma StaleOldest(orgs: seq<Organization>, kits: seq<MediaKit>, threshold: int)
    ensures forall e, o, k :: (e in FirstPerOrg(SortedRows(orgs, kits, threshold)) && o in orgs && k in kits
                               && Joined(o, k, threshold) && o.externalId == e.orgId) ==> e.lastUpdated <= k.updatedAt
  {
    var sorted := SortedRows(orgs, kits, threshold);
    FirstPerOrgOldest(sorted);
    forall e, o, k | e in FirstPerOrg(sorted) && o in orgs && k in kits && Joined(o, k, threshold) && o.externalId == e.orgId
      ensures e.lastUpdated <= k.updatedAt
    {
      assert RowFor(o, k) in sorted;
    }
  }

  /** Each entry is a row of the join, and the entries are sorted oldest first
      with one per organization. */
  lemma StaleSound(orgs: seq<Organization>, kits: seq<MediaKit>, threshold: int)
    ensures var entries := FirstPerOrg(SortedRows(orgs, kits, threshold));
      && (forall i, j :: 0 <= i < j < |entries| ==> entries[i].lastUpdated <= entries[j].lastUpdated)
      && (forall e :: e in entries ==> IsStaleRow(orgs, kits, threshold, e))
  {
    var sorted := SortedRows(orgs, kits, threshold);
    FirstPerOrgOldest(sorted);
    var entries := FirstPerOrg(sorted);
    forall i, j | 0 <= i < j < |entries| ensures entries[i].lastUpdated <= entries[j].lastUpdated {
      assert KeyLe(RowKey(entries[i]), RowKey(entries[j]));
    }
  }

  /** The organizations with a validated or drafted kit older than `threshold`,
      one entry each, carrying the update time of its oldest such kit, oldest first. */
  method StaleOrganizations(orgs: seq<Organization>, kits: seq<MediaKit>, threshold: int)
    returns (entries: seq<StaleRow>)
    ensures forall i, j :: 0 <= i < j < |entries| ==> entries[i].lastUpdated <= entries[j].lastUpdated
    ensures forall i, j :: 0 <= i < j < |entries| ==> entries[i].orgId != entries[j].orgId
    ensures forall e :: e in entries ==> IsStaleRow(orgs, kits, threshold, e)
    ensures forall e, o, k :: (e in entries && o in orgs && k in kits && Joined(o, k, threshold)
                               && o.externalId == e.orgId) ==> e.lastUpdated <= k.updatedAt
    ensures forall o, k :: o in orgs && k in kits && Joined(o, k, threshold) ==>
              o.externalId in OrgIdsOf(entries)
  {
    entries := Dedupe(SortedRows(orgs, kits, threshold));
    StaleSound(orgs, kits, threshold);
    StaleComplete(orgs, kits, threshold);
    StaleOldest(orgs, kits, threshold);
  }

  // ---------------------------------------------------------------------
  // GET /media-kit-setup

  datatype SetupEntry = SetupEntry(orgId: string, hasKit: bool, status: Option<Status>, isSetup: bool)

  /** The organization's most recently updated active kit, and whether it is
      validated or drafted. */
  function OrgSetup(org: Organization, kits: seq<MediaKit>): (e: SetupEntry)
    ensures e.orgId == org.externalId
    ensures e.hasKit <==> exists k :: k in kits && k.organizationId == Some(org.id) && Active(k.status)
    ensures e.status.Some? <==> e.hasKit
    ensures e.status.Some? ==>
              exists k :: k in kits && k.organizationId == Some(org.id) && Active(k.status) && k.status == e.status.value
                          && forall k' :: k' in kits && k'.organizationId == Some(org.id) && Active(k'.status)
                                          ==> k'.updatedAt <= k.updatedAt
    ensures e.isSetup <==> e.status == Some(Validated) || e.status == Some(Drafted)
  {
    var kit := Latest(kits, (k: MediaKit) => k.organizationId == Some(org.id) && Active(k.status));
    SetupEntry(org.externalId, kit.Some?, if kit.Some? then Some(kit.value.status) else None,
               kit.Some? && (kit.value.status == Validated || kit.value.status == Drafted))
  }

  /** One setup entry per organization, in table order. */
  function MediaKitSetup(orgs: seq<Organization>, kits: seq<MediaKit>): (r: seq<SetupEntry>)
    ensures |r| == |orgs|
    ensures forall i :: 0 <= i < |orgs| ==> r[i].orgId == orgs[i].externalId
    ensures forall i :: 0 <= i < |orgs| ==> r[i] == OrgSetup(orgs[i], kits)
  {
    seq(|orgs|, i requires 0 <= i < |orgs| => OrgSetup(orgs[i], kits))
  }

  /** An organization is set up only if it has a kit. */
  lemma SetupNeedsKit(orgs: seq<Organization>, kits: seq<MediaKit>, i: nat)
    requires i < |orgs|
    ensures MediaKitSetup(orgs, kits)[i].isSetup ==> MediaKitSetup(orgs, kits)[i].hasKit
    ensures MediaKitSetup(orgs, kits)[i].hasKit && !MediaKitSetup(orgs, kits)[i].isSetup
            ==> MediaKitSetup(orgs, kits)[i].status == Some(Generating)
  {
    var e := OrgSetup(orgs[i], kits);
    assert MediaKitSetup(orgs, kits)[i] == e;
    if e.hasKit && !e.isSetup {
      var k :| k in kits && k.organizationId == Some(orgs[i].id) && Active(k.status) && k.status == e.status.value;
    }
  }

  // ---------------------------------------------------------------------
  // GET /health/bulk

  datatype HealthEntry = HealthEntry(orgId: string, hasValidated: bool, hasDrafted: bool, totalKits: nat)

  /** Whether the organization has a validated and a drafted kit, and how many
      kits it has in all, archived and denied ones included. */
  function OrgHealth(org: Organization, kits: seq<MediaKit>): (e: HealthEntry)
    ensures e.orgId == org.externalId
    ensures e.hasValidated <==> exists k :: k in kits && k.organizationId == Some(org.id) && k.status == Validated
    ensures e.hasDrafted <==> exists k :: k in kits && k.organizationId == Some(org.id) && k.status == Drafted
    ensures e.totalKits == KitCount(kits, org.id)
  {
    var own := Filter(kits, (k: MediaKit) => k.organizationId == Some(org.id));
    KitCountIsFilterLength(kits, org.id);
    HealthEntry(org.externalId,
                exists k :: k in own && k.status == Validated,
                exists k :: k in own && k.status == Drafted,
                |own|)
  }

  function BulkHealth(orgs: seq<Organization>, kits: seq<MediaKit>): (r: seq<HealthEntry>)
    ensures |r| == |orgs|
    ensures forall i :: 0 <= i < |orgs| ==> r[i].orgId == orgs[i].externalId
    ensures forall i :: 0 <= i < |orgs| ==> r[i] == OrgHealth(orgs[i], kits)
  {
    seq(|orgs|, i requires 0 <= i < |orgs| => OrgHealth(orgs[i], kits))
  }

  /** The total counts every status, and it is zero exactly when the
      organization has no kit. */
  lemma HealthTotalCountsEveryStatus(org: Organization, kits: seq<MediaKit>)
    ensures OrgHealth(org, kits).totalKits
            == KitCountWithStatus(kits, org.id, Drafted) + KitCountWithStatus(kits, org.id, Generating)
               + KitCountWithStatus(kits, org.id, Validated) + KitCountWithStatus(kits, org.id, Denied)
               + KitCountWithStatus(kits, org.id, Archived)
    ensures OrgHealth(org, kits).totalKits == 0 ==> !OrgHealth(org, kits).hasValidated && !OrgHealth(org, kits).hasDrafted
  {
    KitCountByStatus(kits, org.id);
  }
}
