/** Two concrete scenarios whose resulting states are proved from the routes'
    contracts alone: the edit / generate / validate cycle stepped through twice
    on one organization, and the stale scan over an organization with both a
    validated and a drafted out-of-date kit. */
module Scenarios {
  import opened Base
  import opened Schema
  import opened Storage
  import opened MediaKits
  import opened Internal
  import opened Organizations

  /** A drafted kit of organization `orgId` (external id `ext`), as seeded before the cycle. */
  function SeedKit(id: Uuid, orgId: Uuid, ext: string): MediaKit
  {
    MediaKit(id, None, Some(ext), Some(orgId), Some("Acme kit"), None, Some("# Acme"), None, None, None,
             None, Drafted, None, 0, 0)
  }

  /** Kit `id`, a copy of the seed with parent `parent`, status `s` and mdx content `mdx`. */
  function Copy(id: Uuid, parent: Uuid, s: Status, mdx: string, at: int): MediaKit
  {
    SeedKit(id, "org", "ext").(parentMediaKitId := Some(parent), status := s, mdxPageContent := Some(mdx),
                               createdAt := at, updatedAt := at)
  }

  const ORG: Organization := Organization("org", "ext", Some("Acme"), Some("token"), 1, 1)

  /** The organization and its seeded drafted kit. */
  method Seeded() returns (store: Store)
    ensures fresh(store) && store.Valid()
    ensures store.orgs == [ORG] && store.kits == [SeedKit("seed", "org", "ext")] && store.instructions == []
  {
    store := new Store();
    var org := UpsertOrganization(store, "ext", Some("Acme"), 1, "org", "token");
    var seed := SeedKit("seed", "org", "ext");
    assert OrgIds(store.orgs) == {"org"};
    KitAppendConsistent(store.orgs, store.kits, store.instructions, seed);
    store.kits := [seed];
  }

  /** Editing the seed copies it into generating kit A. */
  method EditSeed(store: Store)
    requires store.Valid() && store.kits == [SeedKit("seed", "org", "ext")]
    requires store.instructions == []
    modifies store
    ensures store.Valid() && store.orgs == old(store.orgs)
    ensures store.kits == [SeedKit("seed", "org", "ext"), Copy("a", "seed", Generating, "# Acme", 2)]
    ensures store.instructions == old(store.instructions) + [Instruction("n1", "a", "make it shine", INITIAL, 2, 2)]
  {
    assert KitIds(store.kits) == {"seed"};
    var a := EditMediaKit(store, "seed", "make it shine", None, 2, "a", "n1");
  }

  /** The generation result turns A into a draft with the new content. */
  method DeliverA(store: Store)
    requires store.Valid()
    requires store.kits == [SeedKit("seed", "org", "ext"), Copy("a", "seed", Generating, "# Acme", 2)]
    modifies store
    ensures store.Valid() && store.orgs == old(store.orgs) && store.instructions == old(store.instructions)
    ensures store.kits == [SeedKit("seed", "org", "ext"), Copy("a", "seed", Drafted, "# Acme v1", 2)]
  {
    assert GeneratingIndex(store.kits, "ext") == Some(1);
    var r := UpsertGenerationResult(store, "ext", "# Acme v1", None, None);
  }

  /** Validating A. */
  method ValidateA(store: Store)
    requires store.Valid()
    requires store.kits == [SeedKit("seed", "org", "ext"), Copy("a", "seed", Drafted, "# Acme v1", 2)]
    modifies store
    ensures store.Valid() && store.orgs == old(store.orgs) && store.instructions == old(store.instructions)
    ensures store.kits == [SeedKit("seed", "org", "ext"), Copy("a", "seed", Validated, "# Acme v1", 2)]
  {
    assert KitById(store.kits, "a") == Some(store.kits[1]);
    var r := ValidateMediaKit(store, "a");
    assert store.kits == ValidateSwap(old(store.kits), old(store.kits[1]));
  }

  /** Editing A copies it into generating kit B, whose parent is A. */
  method EditA(store: Store)
    requires store.Valid()
    requires store.kits == [SeedKit("seed", "org", "ext"), Copy("a", "seed", Validated, "# Acme v1", 2)]
    requires store.instructions == [Instruction("n1", "a", "make it shine", INITIAL, 2, 2)]
    modifies store
    ensures store.Valid() && store.orgs == old(store.orgs)
    ensures store.kits == [SeedKit("seed", "org", "ext"), Copy("a", "seed", Validated, "# Acme v1", 2),
                           Copy("b", "a", Generating, "# Acme v1", 3)]
    ensures store.instructions == old(store.instructions) + [Instruction("n2", "b", "add a logo", INITIAL, 3, 3)]
  {
    assert InstructionIds(store.instructions) == {"n1"};
    assert KitIds(store.kits) == {"seed", "a"};
    assert KitIndex(store.kits, "a") == Some(1);
    var b := EditMediaKit(store, "a", "add a logo", None, 3, "b", "n2");
  }

  /** Validating B archives A. */
  method ValidateB(store: Store)
    requires store.Valid()
    requires store.kits == [SeedKit("seed", "org", "ext"), Copy("a", "seed", Validated, "# Acme v1", 2),
                            Copy("b", "a", Generating, "# Acme v1", 3)]
    modifies store
    ensures store.Valid() && store.instructions == old(store.instructions)
    ensures store.kits == [SeedKit("seed", "org", "ext"), Copy("a", "seed", Archived, "# Acme v1", 2),
                           Copy("b", "a", Validated, "# Acme v1", 3)]
  {
    assert KitById(store.kits, "b") == Some(store.kits[2]);
    var r := ValidateMediaKit(store, "b");
    assert store.kits == ValidateSwap(old(store.kits), old(store.kits[2]));
  }

  /** Edit the seed (new kit A), deliver A's content, validate A; edit A (new kit
      B, whose parent is A) and validate B. Afterwards B is the one validated kit
      and A is archived. */
  method RoundTrip() returns (kits: seq<MediaKit>, instructions: seq<Instruction>)
    ensures |kits| == 3
    ensures kits[0].id == "seed" && kits[0].status == Drafted
    ensures kits[1].id == "a" && kits[1].status == Archived && kits[1].parentMediaKitId == Some("seed")
    ensures kits[2].id == "b" && kits[2].status == Validated && kits[2].parentMediaKitId == Some("a")
    ensures kits[2].mdxPageContent == Some("# Acme v1")
    ensures forall k :: k in kits && k.status == Validated ==> k.id == "b"
    ensures SingleValidated(kits)
    ensures instructions == [Instruction("n1", "a", "make it shine", INITIAL, 2, 2),
                             Instruction("n2", "b", "add a logo", INITIAL, 3, 3)]
  {
    var store := Seeded();
    EditSeed(store);
    DeliverA(store);
    ValidateA(store);
    EditA(store);
    ValidateB(store);
    kits, instructions := store.kits, store.instructions;
  }

  lemma FirstTwoOfOrg(entries: seq<StaleRow>, orgId: string)
    requires |entries| > 1
    requires forall x :: x in entries ==> x.orgId == orgId
    ensures entries[0].orgId == orgId && entries[1].orgId == orgId
  {
    assert entries[0] in entries && entries[1] in entries;
  }

  /** Entries with distinct organizations, all of one organization, are at most one. */
  lemma AtMostOnePerOrg(entries: seq<StaleRow>, orgId: string)
    requires forall i, j :: 0 <= i < j < |entries| ==> entries[i].orgId != entries[j].orgId
    requires forall x :: x in entries ==> x.orgId == orgId
    ensures |entries| <= 1
  {
    if |entries| > 1 {
      FirstTwoOfOrg(entries, orgId);
      assert false;
    }
  }

  /** One organization with a validated kit updated at 20 and a drafted kit
      updated at 10, scanned with threshold 30: one entry, carrying 10. */
  method StaleExample() returns (entries: seq<StaleRow>)
    ensures entries == [StaleRow("ext", Some("Acme"), 10)]
  {
    var org := Organization("org", "ext", Some("Acme"), Some("token"), 0, 0);
    var validated := SeedKit("v", "org", "ext").(status := Validated, updatedAt := 20);
    var drafted := SeedKit("d", "org", "ext").(updatedAt := 10);
    entries := StaleOrganizations([org], [validated, drafted], 30);
    assert Joined(org, drafted, 30);
    assert "ext" in OrgIdsOf(entries);
    var e :| e in entries && e.orgId == "ext";
    forall x | x in entries ensures x == StaleRow("ext", Some("Acme"), 10) {
      assert IsStaleRow([org], [validated, drafted], 30, x);
      assert x.lastUpdated <= drafted.updatedAt;
    }
    AtMostOnePerOrg(entries, "ext");
  }
}
