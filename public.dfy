/** The unauthenticated routes: the public press-kit page reached through an
    organization's share token (and its legacy variant that also accepts the
    organization id), and the data the "press kit" e-mail is built from. */
module Public {
  import opened Base
  import opened Schema

  /** What a public page says about the organization. */
  datatype OrgSummary = OrgSummary(id: Uuid, name: Option<string>, externalId: string)

  datatype PublicPage = PublicPage(organization: OrgSummary, mediaKit: Option<MediaKit>)

  function Summary(o: Organization): OrgSummary
  {
    OrgSummary(o.id, o.name, o.externalId)
  }

  /** The organization's most recently updated kit with status `s`. */
  function LatestWithStatus(kits: seq<MediaKit>, orgId: Uuid, s: Status): (r: Option<MediaKit>)
    ensures r.None? <==> forall k :: k in kits && k.organizationId == Some(orgId) ==> k.status != s
    ensures r.Some? ==> r.value in kits && r.value.organizationId == Some(orgId) && r.value.status == s
    ensures r.Some? ==> forall k :: k in kits && k.organizationId == Some(orgId) && k.status == s
                                    ==> k.updatedAt <= r.value.updatedAt
  {
    Latest(kits, (k: MediaKit) => k.organizationId == Some(orgId) && k.status == s)
  }

  /** The kit a public page shows: the latest validated kit, or failing that the
      latest drafted one; never a generating, denied or archived kit. */
  function PublicKit(kits: seq<MediaKit>, orgId: Uuid): (r: Option<MediaKit>)
    ensures r.None? <==> forall k :: k in kits && k.organizationId == Some(orgId) ==> k.status != Validated && k.status != Drafted
    ensures r.Some? ==> r.value in kits && r.value.organizationId == Some(orgId)
    ensures r.Some? ==> r.value.status == Validated || r.value.status == Drafted
    ensures (exists k :: k in kits && k.organizationId == Some(orgId) && k.status == Validated)
            ==> r.Some? && r.value.status == Validated
    ensures r.Some? ==> forall k :: k in kits && k.organizationId == Some(orgId) && k.status == r.value.status
                                    ==> k.updatedAt <= r.value.updatedAt
  {
    var validated := LatestWithStatus(kits, orgId, Validated);
    if validated.Some? then validated else LatestWithStatus(kits, orgId, Drafted)
  }

  function Page(o: Organization, kits: seq<MediaKit>): PublicPage
  {
    PublicPage(Summary(o), PublicKit(kits, o.id))
  }

  // ---------------------------------------------------------------------
  // GET /public/:token

  /** The page of the organization holding share token `token`; unknown tokens
      are not found. */
  function PublicMediaKit(orgs: seq<Organization>, kits: seq<MediaKit>, token: Uuid): (r: Result<PublicPage>)
    ensures r.Err? <==> forall o :: o in orgs ==> o.shareToken != Some(token)
    ensures r.Err? ==> r.error == NotFound(ORG_NOT_FOUND)
    ensures r.Ok? ==> exists o :: o in orgs && o.shareToken == Some(token) && r.value == Page(o, kits)
  {
    match OrgByShareToken(orgs, token)
    case None => Err(NotFound(ORG_NOT_FOUND))
    case Some(o) => Ok(Page(o, kits))
  }

  /** Share tokens are unique, so a token opens one organization's page and no other. */
  lemma PublicPageIsTokenOwners(orgs: seq<Organization>, kits: seq<MediaKit>, token: Uuid, o: Organization)
    requires UniqueShareTokens(orgs)
    requires o in orgs && o.shareToken == Some(token)
    ensures PublicMediaKit(orgs, kits, token) == Ok(Page(o, kits))
  {
    var found := OrgByShareToken(orgs, token).value;
    var i :| 0 <= i < |orgs| && orgs[i] == o;
    var j :| 0 <= j < |orgs| && orgs[j] == found;
    assert i == j;
  }

  // ---------------------------------------------------------------------
  // GET /public-media-kit/:token

  /** As the public page, but a token that is no share token is tried as an
      organization id. */
  function LegacyPublicMediaKit(orgs: seq<Organization>, kits: seq<MediaKit>, token: Uuid): (r: Result<PublicPage>)
    ensures r.Err? <==> (forall o :: o in orgs ==> o.shareToken != Some(token)) && token !in OrgIds(orgs)
    ensures r.Err? ==> r.error == NotFound(ORG_NOT_FOUND)
    ensures r.Ok? && (exists o :: o in orgs && o.shareToken == Some(token)) ==>
              exists o :: o in orgs && o.shareToken == Some(token) && r.value == Page(o, kits)
    ensures r.Ok? && (forall o :: o in orgs ==> o.shareToken != Some(token)) ==>
              exists o :: o in orgs && o.id == token && r.value == Page(o, kits)
  {
    match OrgByShareToken(orgs, token)
    case Some(o) => Ok(Page(o, kits))
    case None =>
      match OrgById(orgs, token)
      case None => Err(NotFound(ORG_NOT_FOUND))
      case Some(o) => Ok(Page(o, kits))
  }

  /** Wherever the share-token page exists, the legacy page is the same page. */
  lemma LegacyAgreesWithPublic(orgs: seq<Organization>, kits: seq<MediaKit>, token: Uuid)
    ensures PublicMediaKit(orgs, kits, token).Ok? ==>
              LegacyPublicMediaKit(orgs, kits, token) == PublicMediaKit(orgs, kits, token)
    ensures PublicMediaKit(orgs, kits, token).Err? && token in OrgIds(orgs) ==>
              LegacyPublicMediaKit(orgs, kits, token).Ok?
  {
  }

  // ---------------------------------------------------------------------
  // GET /email-data/press-kit/:orgId

  datatype EmailData = EmailData(
    companyName: Option<string>,
    status: Option<Status>,
    title: Option<string>,
    pressKitUrl: Option<string>,
    content: Option<string>,
    contentType: Option<string>)

  /** The reply for an unknown organization: every field null. */
  const NO_EMAIL_DATA: EmailData := EmailData(None, None, None, None, None, None)

  const MDX: string := "mdx"
  const JSX: string := "jsx"

  /** The e-mail's kit: the most recently updated validated or drafted kit, with
      no preference between the two statuses. */
  function EmailKit(kits: seq<MediaKit>, orgId: Uuid): (r: Option<MediaKit>)
    ensures r.None? <==> forall k :: k in kits && k.organizationId == Some(orgId) ==> k.status != Validated && k.status != Drafted
    ensures r.Some? ==> r.value in kits && r.value.organizationId == Some(orgId)
                        && (r.value.status == Validated || r.value.status == Drafted)
    ensures r.Some? ==> forall k :: (k in kits && k.organizationId == Some(orgId)
                                     && (k.status == Validated || k.status == Drafted)) ==> k.updatedAt <= r.value.updatedAt
  {
    Latest(kits, (k: MediaKit) => k.organizationId == Some(orgId) && (k.status == Validated || k.status == Drafted))
  }

  /** The link to the public page, when the organization has a share token. */
  function PressKitUrl(o: Organization): (r: Option<string>)
    ensures r.Some? <==> Truthy(o.shareToken)
    ensures r.Some? ==> r.value == "/public/" + o.shareToken.value
  {
    if Truthy(o.shareToken) then Some("/public/" + o.shareToken.value) else None
  }

  /** The content: the mdx page if it is not null, else the jsx page. */
  function Content(kit: Option<MediaKit>): (r: Option<string>)
    ensures kit.None? ==> r.None?
    ensures kit.Some? && kit.value.mdxPageContent.Some? ==> r == kit.value.mdxPageContent
    ensures kit.Some? && kit.value.mdxPageContent.None? ==> r == kit.value.jsxPageContent
  {
    if kit.None? then None
    else if kit.value.mdxPageContent.Some? then kit.value.mdxPageContent
    else kit.value.jsxPageContent
  }

  /** The content type as the route computes it: by whether each page is
      non-empty, not by whether it is null. */
  function ContentTypeAsWritten(kit: Option<MediaKit>): (r: Option<string>)
    ensures r == Some(MDX) <==> kit.Some? && Truthy(kit.value.mdxPageContent)
    ensures r == Some(JSX) <==> kit.Some? && !Truthy(kit.value.mdxPageContent) && Truthy(kit.value.jsxPageContent)
    ensures r.None? || r == Some(MDX) || r == Some(JSX)
  {
    if kit.Some? && Truthy(kit.value.mdxPageContent) then Some(MDX)
    else if kit.Some? && Truthy(kit.value.jsxPageContent) then Some(JSX)
    else None
  }

  /** The content type chosen by the same null tests that choose the content. */
  function ContentType(kit: Option<MediaKit>): (r: Option<string>)
    ensures r == Some(MDX) <==> kit.Some? && kit.value.mdxPageContent.Some?
    ensures r == Some(JSX) <==> kit.Some? && kit.value.mdxPageContent.None? && kit.value.jsxPageContent.Some?
    ensures r.None? || r == Some(MDX) || r == Some(JSX)
  {
    if kit.Some? && kit.value.mdxPageContent.Some? then Some(MDX)
    else if kit.Some? && kit.value.jsxPageContent.Some? then Some(JSX)
    else None
  }

  /** The corrected content type names the page the content was taken from, and
      is null exactly when the content is. */
  lemma ContentTypeDescribesContent(kit: Option<MediaKit>)
    ensures ContentType(kit) == Some(MDX) ==> Content(kit) == kit.value.mdxPageContent
    ensures ContentType(kit) == Some(JSX) ==> Content(kit) == kit.value.jsxPageContent
    ensures ContentType(kit).None? <==> Content(kit).None?
  {
  }

  /** Wherever the pages are null or non-empty, the route's content type is the corrected one. */
  lemma ContentTypeAgreesOnNonEmptyPages(kit: Option<MediaKit>)
    requires kit.Some? ==> kit.value.mdxPageContent != Some("") && kit.value.jsxPageContent != Some("")
    ensures ContentTypeAsWritten(kit) == ContentType(kit)
  {
  }

  /** An empty mdx page beside a jsx page: the content is the empty mdx page,
      yet the route labels it jsx. */
  lemma ContentTypeMismatch(k: MediaKit)
    requires k.mdxPageContent == Some("") && k.jsxPageContent == Some("<Page/>")
    ensures Content(Some(k)) == Some("")
    ensures ContentTypeAsWritten(Some(k)) == Some(JSX)
    ensures Content(Some(k)) != k.jsxPageContent
    ensures ContentType(Some(k)) == Some(MDX)
  {
  }

  /** The e-mail data for a known organization, with the content type the route computes. */
  function EmailDataAsWritten(orgs: seq<Organization>, kits: seq<MediaKit>, externalId: string): (r: EmailData)
    ensures OrgByExternalId(orgs, externalId).None? ==> r == NO_EMAIL_DATA
    ensures OrgByExternalId(orgs, externalId).Some? ==>
              r.contentType == ContentTypeAsWritten(EmailKit(kits, OrgByExternalId(orgs, externalId).value.id))
  {
    match OrgByExternalId(orgs, externalId)
    case None => NO_EMAIL_DATA
    case Some(o) =>
      var kit := EmailKit(kits, o.id);
      EmailData(o.name, if kit.Some? then Some(kit.value.status) else None,
                if kit.Some? then kit.value.title else None,
                PressKitUrl(o), Content(kit), ContentTypeAsWritten(kit))
  }

  /** The e-mail data: all null for an unknown organization; otherwise its name,
      its share link, and the status, title and content of its latest validated
      or drafted kit, with a content type that matches the content. */
  function EmailDataFor(orgs: seq<Organization>, kits: seq<MediaKit>, externalId: string): (r: EmailData)
    ensures OrgByExternalId(orgs, externalId).None? ==> r == NO_EMAIL_DATA
    ensures OrgByExternalId(orgs, externalId).Some? ==>
              var o := OrgByExternalId(orgs, externalId).value;
              var kit := EmailKit(kits, o.id);
              && r.companyName == o.name
              && r.pressKitUrl == PressKitUrl(o)
              && (r.status.Some? <==> kit.Some?)
              && (kit.Some? ==> r.status == Some(kit.value.status) && r.title == kit.value.title)
              && (kit.None? ==> r.title.None? && r.content.None?)
              && r.content == Content(kit)
    ensures r.contentType == Some(MDX) ==> r.content.Some?
    ensures r.contentType.None? <==> r.content.None?
    ensures EmailDataAsWritten(orgs, kits, externalId) == r.(contentType := EmailDataAsWritten(orgs, kits, externalId).contentType)
  {
    match OrgByExternalId(orgs, externalId)
    case None => NO_EMAIL_DATA
    case Some(o) =>
      var kit := EmailKit(kits, o.id);
      ContentTypeDescribesContent(kit);
      EmailData(o.name, if kit.Some? then Some(kit.value.status) else None,
                if kit.Some? then kit.value.title else None,
                PressKitUrl(o), Content(kit), ContentType(kit))
  }
}
