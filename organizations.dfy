/** The organization routes: the upsert keyed by the external organization id,
    the share-token lookup, and the batch existence check over a
    comma-separated list of external ids. */
module Organizations {
  import opened Base
  import opened Seqs
  import opened Text
  import opened Schema
  import opened Storage

  const IDS_REQUIRED: string := "clerkOrgIds query parameter is required"

  // ---------------------------------------------------------------------
  // POST /organizations

  /** An organization is found by its external id once it is stored under it. */
  lemma OrgByExternalIdFindsStored(orgs: seq<Organization>, o: Organization)
    requires UniqueExternalIds(orgs)
    requires o in orgs
    ensures OrgByExternalId(orgs, o.externalId) == Some(o)
  {
    var found := OrgByExternalId(orgs, o.externalId).value;
    var i :| 0 <= i < |orgs| && orgs[i] == o;
    var j :| 0 <= j < |orgs| && orgs[j] == found;
    assert i == j;
  }

  /** Inserts a new organization under a fresh id and share token, or, when
      one already has the external id, replaces its name when a name is given
      and bumps its `updatedAt`; its id and share token never change. The
      organization is then what a lookup by the external id finds. */
  method UpsertOrganization(store: Store, externalId: string, name: Option<string>, now: int,
                            newId: Uuid, newToken: Uuid) returns (org: Organization)
    requires store.Valid()
    requires newId !in OrgIds(store.orgs)
    requires forall o :: o in store.orgs ==> o.shareToken != Some(newToken)
    modifies store
    ensures store.Valid()
    ensures store.kits == old(store.kits) && store.instructions == old(store.instructions)
    ensures store.outbox == old(store.outbox)
    ensures OrgByExternalId(store.orgs, externalId) == Some(org)
    ensures match old(OrgIndexByExternalId(store.orgs, externalId))
      case None =>
        && org == Organization(newId, externalId, name, Some(newToken), now, now)
        && store.orgs == old(store.orgs) + [org]
      case Some(i) =>
        var o := old(store.orgs[i]);
        && org == o.(name := if name.Some? then name else o.name, updatedAt := now)
        && store.orgs == old(store.orgs)[i := org]
  {
    var idx := OrgIndexByExternalId(store.orgs, externalId);
    if idx.None? {
      org := Organization(newId, externalId, name, Some(newToken), now, now);
      OrgAppendConsistent(store.orgs, store.kits, store.instructions, org);
      store.orgs := store.orgs + [org];
      assert store.orgs[|store.orgs| - 1] == org;
    } else {
      var i := idx.value;
      var o := store.orgs[i];
      org := o.(name := if name.Some? then name else o.name, updatedAt := now);
      OrgRewriteConsistent(store.orgs, store.kits, store.instructions, i, org);
      store.orgs := store.orgs[i := org];
      assert store.orgs[i] == org;
    }
    OrgByExternalIdFindsStored(store.orgs, org);
  }

  // ---------------------------------------------------------------------
  // GET /organizations/share-token/:orgId

  /** The share token of the organization with external id `externalId`. */
  function ShareToken(orgs: seq<Organization>, externalId: string): (r: Result<Option<Uuid>>)
    ensures r.Err? <==> forall o :: o in orgs ==> o.externalId != externalId
    ensures r.Err? ==> r.error == NotFound(ORG_NOT_FOUND)
    ensures r.Ok? ==> exists o :: o in orgs && o.externalId == externalId && r.value == o.shareToken
  {
    match OrgByExternalId(orgs, externalId)
    case None => Err(NotFound(ORG_NOT_FOUND))
    case Some(o) => Ok(o.shareToken)
  }

  /** Once upserted, an organization's share token is the one it was created with. */
  lemma ShareTokenOfStored(orgs: seq<Organization>, o: Organization)
    requires UniqueExternalIds(orgs)
    requires o in orgs
    ensures ShareToken(orgs, o.externalId) == Ok(o.shareToken)
  {
    OrgByExternalIdFindsStored(orgs, o);
  }

  // ---------------------------------------------------------------------
  // GET /organizations/exists

  /** `filter(Boolean)` on strings: the empty string is dropped. */
  predicate NonEmpty(id: string)
  {
    id != ""
  }

  /** `param.split(",").map(trim)`: the trimmed pieces, empty ones included. */
  function Pieces(param: string): (r: seq<string>)
    ensures |r| == |Split(param, ',')|
    ensures forall i :: 0 <= i < |r| ==> r[i] == Trim(Split(param, ',')[i])
  {
    var parts := Split(param, ',');
    seq(|parts|, i requires 0 <= i < |parts| => Trim(parts[i]))
  }

  /** `param.split(",").map(trim).filter(Boolean)`: the ids are exactly the
      non-empty trimmed pieces, and each is comma-free and already trimmed. */
  function ParseIds(param: string): (ids: seq<string>)
    ensures forall id :: id in ids ==> id != "" && ',' !in id && Trim(id) == id
    ensures forall id :: id in ids <==> id != "" && exists p :: p in Split(param, ',') && Trim(p) == id
  {
    var parts := Split(param, ',');
    var trimmed := Pieces(param);
    SplitHasNoSeparator(param, ',');
    forall i | 0 <= i < |parts| ensures ',' !in trimmed[i] && Trim(trimmed[i]) == trimmed[i] {
      assert parts[i] in parts;
      TrimKeepsOut(parts[i], ',');
      TrimIdempotent(parts[i]);
    }
    forall id ensures id in trimmed <==> exists p :: p in parts && Trim(p) == id {
      if id in trimmed {
        var i :| 0 <= i < |trimmed| && trimmed[i] == id;
        assert parts[i] in parts;
      }
      if exists p :: p in parts && Trim(p) == id {
        var p :| p in parts && Trim(p) == id;
        var i :| 0 <= i < |parts| && parts[i] == p;
        assert trimmed[i] == id;
      }
    }
    Filter(trimmed, NonEmpty)
  }

  /** A single comma-free piece parses to its trimmed text, or to nothing when
      that is empty. */
  lemma ParsePiece(p: string)
    requires ',' !in p
    ensures ParseIds(p) == if Trim(p) == "" then [] else [Trim(p)]
  {
    SplitNoSeparator(p, ',');
    assert Pieces(p) == [Trim(p)];
    assert [Trim(p)][1..] == [];
  }

  /** Parsing two lists joined by a comma parses each in turn, so the ids keep
      the order and multiplicity of the input. */
  lemma ParseAppend(a: string, b: string)
    ensures ParseIds(a + [','] + b) == ParseIds(a) + ParseIds(b)
  {
    SplitAppend(a, b, ',');
    var pa, pb := Pieces(a), Pieces(b);
    assert Pieces(a + [','] + b) == pa + pb by {
      forall i | 0 <= i < |pa| + |pb| ensures Pieces(a + [','] + b)[i] == (pa + pb)[i] {
        if i >= |pa| {
          assert Split(a + [','] + b, ',')[i] == Split(b, ',')[i - |pa|];
        }
      }
    }
    FilterAppend(pa, pb, NonEmpty);
  }

  /** A comma-joined list of non-empty, comma-free, trimmed ids parses back to itself. */
  lemma ParseJoinedIds(ids: seq<string>)
    requires |ids| >= 1
    requires forall id :: id in ids ==> id != "" && ',' !in id && Trim(id) == id
    ensures ParseIds(Join(ids, ',')) == ids
  {
    SplitJoin(ids, ',');
    var trimmed := Pieces(Join(ids, ','));
    assert trimmed == ids by {
      forall i | 0 <= i < |ids| ensures trimmed[i] == ids[i] {
        assert ids[i] in ids;
      }
    }
    FilterAll(trimmed, NonEmpty);
  }

  datatype Existence = Existence(externalId: string, present: bool)

  /** Rejected without a list; otherwise one answer per listed id, in the
      order given, saying whether an organization has that external id. */
  function CheckExists(orgs: seq<Organization>, param: Option<string>): (r: Result<seq<Existence>>)
    ensures r.Err? <==> !Truthy(param)
    ensures r.Err? ==> r.error == BadRequest(IDS_REQUIRED)
    ensures r.Ok? ==>
              var ids := ParseIds(param.value);
              && |r.value| == |ids|
              && forall i :: 0 <= i < |ids| ==>
                   && r.value[i].externalId == ids[i]
                   && (r.value[i].present <==> exists o :: o in orgs && o.externalId == ids[i])
  {
    if !Truthy(param) then Err(BadRequest(IDS_REQUIRED))
    else
      var ids := ParseIds(param.value);
      var existing := set o | o in orgs && o.externalId in ids :: o.externalId;
      Ok(seq(|ids|, i requires 0 <= i < |ids| => Existence(ids[i], ids[i] in existing)))
  }
}
