/** The database as one mutable store: the three tables as sequences of rows
    in insertion order, and an outbox of the background jobs the routes start
    (the workflow trigger and the "press kit ready" e-mail), which are
    recorded here instead of being sent. */
module Storage {
  import opened Base
  import opened Seqs
  import opened Schema

  /** A detached background call a route starts and does not wait for. */
  datatype Job =
    | GenerateKit(orgId: string, mediaKitId: Uuid, organizationUrl: Option<string>)
    | NotifyReady(orgId: string, title: string)

  class Store {
    var orgs: seq<Organization>
    var kits: seq<MediaKit>
    var instructions: seq<Instruction>
    var outbox: seq<Job>

    /** The schema's constraints hold. */
    predicate Valid()
      reads this
    {
      Consistent(orgs, kits, instructions)
    }

    /** An empty database. */
    constructor ()
      ensures Valid()
      ensures orgs == [] && kits == [] && instructions == [] && outbox == []
    {
      orgs, kits, instructions, outbox := [], [], [], [];
    }
  }

  /** Within each organization, at most one kit is validated. The routes that
      change statuses keep this; the generic status update may break it. */
  predicate SingleValidated(kits: seq<MediaKit>)
  {
    forall i, j :: 0 <= i < j < |kits| && kits[i].status == Validated && kits[j].status == Validated
      ==> kits[i].organizationId.None? || kits[i].organizationId != kits[j].organizationId
  }

  // ---------------------------------------------------------------------
  // How the constraints behave under the row changes the routes make.

  lemma KitIdsAppend(kits: seq<MediaKit>, k: MediaKit)
    ensures KitIds(kits + [k]) == KitIds(kits) + {k.id}
  {
    assert forall x :: x in kits + [k] <==> x in kits || x == k;
  }

  lemma OrgIdsAppend(orgs: seq<Organization>, o: Organization)
    ensures OrgIds(orgs + [o]) == OrgIds(orgs) + {o.id}
  {
    assert forall x :: x in orgs + [o] <==> x in orgs || x == o;
  }

  lemma InstructionIdsAppend(instructions: seq<Instruction>, n: Instruction)
    ensures InstructionIds(instructions + [n]) == InstructionIds(instructions) + {n.id}
  {
    assert forall x :: x in instructions + [n] <==> x in instructions || x == n;
  }

  /** Rewriting rows in place without changing their ids or organization keeps
      every constraint. */
  lemma KitsRewriteConsistent(orgs: seq<Organization>, kits: seq<MediaKit>, kits': seq<MediaKit>,
                              instructions: seq<Instruction>)
    requires Consistent(orgs, kits, instructions)
    requires |kits'| == |kits|
    requires forall j :: 0 <= j < |kits| ==> kits'[j].id == kits[j].id && kits'[j].organizationId == kits[j].organizationId
    ensures KitIds(kits') == KitIds(kits)
    ensures Consistent(orgs, kits', instructions)
  {
    forall x | x in KitIds(kits) ensures x in KitIds(kits') {
      var k :| k in kits && k.id == x;
      var j :| 0 <= j < |kits| && kits[j] == k;
      assert kits'[j] in kits';
    }
    forall x | x in KitIds(kits') ensures x in KitIds(kits) {
      var k :| k in kits' && k.id == x;
      var j :| 0 <= j < |kits'| && kits'[j] == k;
      assert kits[j] in kits;
    }
    forall k | k in kits' && k.organizationId.Some? ensures k.organizationId.value in OrgIds(orgs) {
      var j :| 0 <= j < |kits'| && kits'[j] == k;
      assert kits[j] in kits;
    }
  }

  /** Adding a kit under a fresh id whose organization exists keeps every constraint. */
  lemma KitAppendConsistent(orgs: seq<Organization>, kits: seq<MediaKit>, instructions: seq<Instruction>, k: MediaKit)
    requires Consistent(orgs, kits, instructions)
    requires k.id !in KitIds(kits)
    requires k.organizationId.Some? ==> k.organizationId.value in OrgIds(orgs)
    ensures Consistent(orgs, kits + [k], instructions)
  {
    KitIdsAppend(kits, k);
    forall i | 0 <= i < |kits| ensures kits[i].id != k.id {
      assert kits[i] in kits;
    }
  }

  /** Adding an instruction under a fresh id for an existing kit keeps every constraint. */
  lemma InstructionAppendConsistent(orgs: seq<Organization>, kits: seq<MediaKit>,
                                    instructions: seq<Instruction>, n: Instruction)
    requires Consistent(orgs, kits, instructions)
    requires n.id !in InstructionIds(instructions)
    requires n.mediaKitId in KitIds(kits)
    ensures Consistent(orgs, kits, instructions + [n])
  {
    InstructionIdsAppend(instructions, n);
    forall i | 0 <= i < |instructions| ensures instructions[i].id != n.id {
      assert instructions[i] in instructions;
    }
  }

  /** Adding an organization whose id, external id and share token are all new
      keeps every constraint. */
  lemma OrgAppendConsistent(orgs: seq<Organization>, kits: seq<MediaKit>, instructions: seq<Instruction>,
                            o: Organization)
    requires Consistent(orgs, kits, instructions)
    requires o.id !in OrgIds(orgs)
    requires forall x :: x in orgs ==> x.externalId != o.externalId
    requires o.shareToken.Some? ==> forall x :: x in orgs ==> x.shareToken != o.shareToken
    ensures Consistent(orgs + [o], kits, instructions)
  {
    OrgIdsAppend(orgs, o);
    var orgs' := orgs + [o];
    forall i | 0 <= i < |orgs| ensures orgs[i].id != o.id && orgs[i].externalId != o.externalId {
      assert orgs[i] in orgs;
    }
    forall i, j | 0 <= i < j < |orgs'| && orgs'[i].shareToken.Some? ensures orgs'[i].shareToken != orgs'[j].shareToken {
      if j == |orgs| {
        assert orgs[i] in orgs;
      }
    }
  }

  /** Rewriting one organization without changing its id, external id or share
      token keeps every constraint. */
  lemma OrgRewriteConsistent(orgs: seq<Organization>, kits: seq<MediaKit>, instructions: seq<Instruction>,
                             i: nat, o: Organization)
    requires Consistent(orgs, kits, instructions)
    requires i < |orgs|
    requires o.id == orgs[i].id && o.externalId == orgs[i].externalId && o.shareToken == orgs[i].shareToken
    ensures OrgIds(orgs[i := o]) == OrgIds(orgs)
    ensures Consistent(orgs[i := o], kits, instructions)
  {
    var orgs' := orgs[i := o];
    forall x | x in OrgIds(orgs) ensures x in OrgIds(orgs') {
      var y :| y in orgs && y.id == x;
      var j :| 0 <= j < |orgs| && orgs[j] == y;
      assert orgs'[j] in orgs';
    }
    forall x | x in OrgIds(orgs') ensures x in OrgIds(orgs) {
      var y :| y in orgs' && y.id == x;
      var j :| 0 <= j < |orgs'| && orgs'[j] == y;
      assert orgs[j] in orgs;
    }
  }

  lemma FilterKeepsUniqueOrgIds(orgs: seq<Organization>, p: Organization -> bool)
    requires UniqueOrgIds(orgs)
    ensures UniqueOrgIds(Filter(orgs, p))
  {
    if orgs != [] {
      FilterKeepsUniqueOrgIds(orgs[1..], p);
      assert forall x :: x in orgs[1..] ==> x.id != orgs[0].id;
    }
  }

  lemma FilterKeepsUniqueExternalIds(orgs: seq<Organization>, p: Organization -> bool)
    requires UniqueExternalIds(orgs)
    ensures UniqueExternalIds(Filter(orgs, p))
  {
    if orgs != [] {
      FilterKeepsUniqueExternalIds(orgs[1..], p);
      assert forall x :: x in orgs[1..] ==> x.externalId != orgs[0].externalId;
    }
  }

  lemma FilterKeepsUniqueShareTokens(orgs: seq<Organization>, p: Organization -> bool)
    requires UniqueShareTokens(orgs)
    ensures UniqueShareTokens(Filter(orgs, p))
  {
    if orgs != [] {
      FilterKeepsUniqueShareTokens(orgs[1..], p);
      assert orgs[0].shareToken.Some? ==> forall x :: x in orgs[1..] ==> x.shareToken != orgs[0].shareToken;
    }
  }

  /** Removing an organization that no kit references keeps every constraint. */
  lemma OrgRemoveConsistent(orgs: seq<Organization>, kits: seq<MediaKit>, instructions: seq<Instruction>, id: Uuid)
    requires Consistent(orgs, kits, instructions)
    requires forall k :: k in kits ==> k.organizationId != Some(id)
    ensures Consistent(Filter(orgs, (o: Organization) => o.id != id), kits, instructions)
  {
    var orgs' := Filter(orgs, (o: Organization) => o.id != id);
    FilterKeepsUniqueOrgIds(orgs, (o: Organization) => o.id != id);
    FilterKeepsUniqueExternalIds(orgs, (o: Organization) => o.id != id);
    FilterKeepsUniqueShareTokens(orgs, (o: Organization) => o.id != id);
    forall k | k in kits && k.organizationId.Some? ensures k.organizationId.value in OrgIds(orgs') {
      var o :| o in orgs && o.id == k.organizationId.value;
      assert o in orgs';
    }
  }
}
