/** The admin routes: the organization listing with each organization's kit
    count, and the deletion of an organization together with its kits, which
    must be confirmed by repeating the organization's name. */
module Admin {
  import opened Base
  import opened Seqs
  import opened Text
  import opened Schema
  import opened Storage

  const CONFIRM_REQUIRED: string := "confirmName query parameter is required"
  const CONFIRM_MISMATCH: string := "confirmName does not match organization name"

  // ---------------------------------------------------------------------
  // GET /admin/organizations

  datatype OrgListing = OrgListing(
    id: Uuid,
    externalId: string,
    name: Option<string>,
    shareToken: Option<Uuid>,
    createdAt: int,
    updatedAt: int,
    mediaKitCount: nat)

  /** The organization matches the search: always when there is no search text,
      and otherwise when it has a name containing the text, ignoring case. */
  predicate Searched(search: Option<string>, o: Organization)
  {
    Truthy(search) ==> o.name.Some? && ContainsIgnoreCase(o.name.value, search.value)
  }

  function Listing(o: Organization, kits: seq<MediaKit>): OrgListing
  {
    OrgListing(o.id, o.externalId, o.name, o.shareToken, o.createdAt, o.updatedAt, KitCount(kits, o.id))
  }

  function CreatedKey(o: Organization): Key
  {
    Key(o.createdAt, 0)
  }

  /** The matching organizations, oldest first. */
  function MatchingOrgs(orgs: seq<Organization>, search: Option<string>): (r: seq<Organization>)
    ensures |r| <= |orgs|
    ensures forall o :: o in r <==> o in orgs && Searched(search, o)
    ensures forall o :: multiset(r)[o] == if Searched(search, o) then multiset(orgs)[o] else 0
    ensures forall i, j :: 0 <= i < j < |r| ==> r[i].createdAt <= r[j].createdAt
  {
    var matching := Filter(orgs, (o: Organization) => Searched(search, o));
    var sorted := SortBy(matching, CreatedKey);
    assert forall o :: o in sorted <==> o in multiset(matching);
    assert forall i, j :: 0 <= i < j < |sorted| ==> KeyLe(CreatedKey(sorted[i]), CreatedKey(sorted[j]));
    sorted
  }

  function Listings(os: seq<Organization>, kits: seq<MediaKit>): (r: seq<OrgListing>)
    ensures |r| == |os|
    ensures forall i :: 0 <= i < |os| ==> r[i] == Listing(os[i], kits)
  {
    seq(|os|, i requires 0 <= i < |os| => Listing(os[i], kits))
  }

  /** The matching organizations, oldest first, each with the number of kits
      that reference it (of any status). */
  function ListOrganizations(orgs: seq<Organization>, kits: seq<MediaKit>, search: Option<string>)
    : (r: seq<OrgListing>)
    ensures |r| <= |orgs|
    ensures forall x :: x in r ==> exists o :: o in orgs && Searched(search, o) && x == Listing(o, kits)
    ensures forall o :: o in orgs && Searched(search, o) ==> Listing(o, kits) in r
    ensures forall i, j :: 0 <= i < j < |r| ==> r[i].createdAt <= r[j].createdAt
    ensures |r| == |MatchingOrgs(orgs, search)|
    ensures forall i :: 0 <= i < |r| ==> r[i] == Listing(MatchingOrgs(orgs, search)[i], kits)
  {
    var sorted := MatchingOrgs(orgs, search);
    ListingsCoverMatches(orgs, kits, search, sorted);
    Listings(sorted, kits)
  }

  /** The listings of a sequence holding exactly the matching organizations
      are exactly the listings of the matching organizations. */
  lemma ListingsCoverMatches(orgs: seq<Organization>, kits: seq<MediaKit>, search: Option<string>,
                             sorted: seq<Organization>)
    requires forall o :: o in sorted <==> o in orgs && Searched(search, o)
    ensures forall x :: x in Listings(sorted, kits) ==> exists o :: o in orgs && Searched(search, o) && x == Listing(o, kits)
    ensures forall o :: o in orgs && Searched(search, o) ==> Listing(o, kits) in Listings(sorted, kits)
  {
    var r := Listings(sorted, kits);
    forall x | x in r ensures exists o :: o in orgs && Searched(search, o) && x == Listing(o, kits) {
      var i :| 0 <= i < |r| && r[i] == x;
      assert sorted[i] in sorted;
    }
    forall o | o in orgs && Searched(search, o) ensures Listing(o, kits) in r {
      var i :| 0 <= i < |sorted| && sorted[i] == o;
      assert r[i] == Listing(o, kits);
    }
  }

  /** Without search text every organization is listed. */
  lemma ListWithoutSearchListsAll(orgs: seq<Organization>, kits: seq<MediaKit>, search: Option<string>)
    requires !Truthy(search)
    ensures forall o :: o in orgs ==> Listing(o, kits) in ListOrganizations(orgs, kits, search)
  {
  }

  /** A listed organization whose name contains the search text verbatim is found. */
  lemma VerbatimNameIsFound(orgs: seq<Organization>, kits: seq<MediaKit>, search: string, o: Organization)
    requires o in orgs && o.name.Some? && Contains(o.name.value, search)
    ensures Listing(o, kits) in ListOrganizations(orgs, kits, Some(search))
  {
    ContainsIsContainsIgnoreCase(o.name.value, search);
  }

  // ---------------------------------------------------------------------
  // DELETE /admin/organizations/:id

  /** The kits a deletion removes: those referencing the organization. */
  predicate OwnedBy(id: Uuid, k: MediaKit)
  {
    k.organizationId == Some(id)
  }

  /** Deletes the organization, its kits and (by the cascade) their
      instructions, provided the confirmation repeats its name exactly. Each
      refusal leaves the store as it was. */
  method DeleteOrganization(store: Store, id: Uuid, confirmName: Option<string>) returns (r: Outcome)
    requires store.Valid()
    modifies store
    ensures store.Valid()
    ensures store.outbox == old(store.outbox)
    ensures !Truthy(confirmName) ==> r == Fail(BadRequest(CONFIRM_REQUIRED)) && unchanged(store)
    ensures Truthy(confirmName) && old(OrgById(store.orgs, id)).None? ==>
              r == Fail(NotFound(ORG_NOT_FOUND)) && unchanged(store)
    ensures Truthy(confirmName) && old(OrgById(store.orgs, id)).Some? && old(OrgById(store.orgs, id)).value.name != confirmName ==>
              r == Fail(BadRequest(CONFIRM_MISMATCH)) && unchanged(store)
    ensures r.Pass? <==> Truthy(confirmName) && old(OrgById(store.orgs, id)).Some? && old(OrgById(store.orgs, id)).value.name == confirmName
    ensures r.Pass? ==>
              && (store.kits, store.instructions) == DeleteKits(old(store.kits), old(store.instructions), (k: MediaKit) => OwnedBy(id, k))
              && store.orgs == Filter(old(store.orgs), (o: Organization) => o.id != id)
              && id !in OrgIds(store.orgs)
              && (forall k :: k in store.kits ==> k.organizationId != Some(id))
  {
    if !Truthy(confirmName) {
      return Fail(BadRequest(CONFIRM_REQUIRED));
    }
    var found := OrgById(store.orgs, id);
    if found.None? {
      return Fail(NotFound(ORG_NOT_FOUND));
    }
    if found.value.name != confirmName {
      return Fail(BadRequest(CONFIRM_MISMATCH));
    }
    var doomed := (k: MediaKit) => OwnedBy(id, k);
    var remaining := DeleteKits(store.kits, store.instructions, doomed);
    DeleteKitsConsistent(store.orgs, store.kits, store.instructions, doomed);
    OrgRemoveConsistent(store.orgs, remaining.0, remaining.1, id);
    store.kits, store.instructions := remaining.0, remaining.1;
    store.orgs := Filter(store.orgs, (o: Organization) => o.id != id);
    r := Pass;
  }
}
