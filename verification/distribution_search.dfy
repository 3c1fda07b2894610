/**
 The search over data products (DistributionSearchGenerationJPA): the
 versions a caller may see, the visibility rule, the filter pipeline, a
 pre-fetch of the linked categories, organisations, distributions and web
 services, the aggregation of one discovery item per reachable distribution
 together with the keyword, organisation, science-domain and service-type
 facets, and the response those make.
 */
module DistributionSearch {
  import opened Nullable
  import opened JavaString
  import opened Seqs
  import opened Entities
  import opened Prefetch
  import opened Query
  import AvailableFormats
  import DistributionFilter
  import Encoding
  import StringOrder

  const Published := "PUBLISHED"
  const VersioningStatusKey := "versioningStatus"
  const CategoryMarker := "category:"
  const KeywordDelimiter := ",\t"
  const IngestorId := "ingestor"
  const DetailsPath := "/resources/details/"

  /**
   What the search calls without implementing: the link prefix, the metadata
   store (point lookups of operations and mappings), the plugin relations,
   `DigestUtils.sha256Hex`, `DataServiceProviderGeneration.getProviders`, and
   the names of the `StatusType` enumeration (`StatusType.valueOf` throws for
   any other name).
   */
  datatype Env = Env(
    cfg: AvailableFormats.Config,
    store: Tables,
    plugins: AvailableFormats.Plugins,
    sha256: string -> string,
    providers: set<Organization> -> seq<Provider>,
    statuses: set<string>)

  // ---------------------------------------------------------------------
  // Versions and visibility
  // ---------------------------------------------------------------------

  /** `StatusType.valueOf(name)` */
  function StatusOf(statuses: set<string>, name: string): Outcome<string>
  {
    if name in statuses then Ok(name) else Thrown("IllegalArgumentException")
  }

  /**
   `getVersions`: PUBLISHED alone, unless a backoffice user (any signed-in
   user) passes `versioningStatus`, whose comma-separated names are then taken
   in order; an unknown name throws.
   */
  function Versions(params: Params, user: Option<User>, statuses: set<string>): (r: Outcome<seq<string>>)
    ensures !(user.Some? && VersioningStatusKey in params) ==> r == Ok([Published])
    ensures user.Some? && VersioningStatusKey in params ==>
      var names := Split(params[VersioningStatusKey], ",");
      && (r.Thrown? <==> exists i :: 0 <= i < |names| && names[i] !in statuses)
      && (r.Ok? ==> r.value == names)
  {
    if user.Some? && VersioningStatusKey in params then
      var names := Split(params[VersioningStatusKey], ",");
      var r := MapAll(names, (n: string) => StatusOf(statuses, n));
      assert r.Ok? ==> r.value == names by {
        if r.Ok? {
          assert forall i :: 0 <= i < |names| ==> r.value[i] == names[i];
        }
      }
      r
    else Ok([Published])
  }

  /**
   `shouldIncludeDataProduct`: a record is visible when its status is one of
   the versions asked for, and it is either published or the caller is an
   administrator or the record's editor. A null status is dereferenced when
   PUBLISHED is asked for, a null editor id when a non-administrator asks for
   the record's unpublished status.
   */
  function ShouldInclude(dp: DataProduct, versions: seq<string>, user: Option<User>): (r: Outcome<bool>)
    ensures r.Thrown? <==> ((Published in versions && dp.status.None?)
      || (dp.status.Some? && dp.status.value != Published && dp.status.value in versions
          && user.Some? && !user.value.isAdmin && dp.editorId.None?))
    ensures r == Ok(true) <==> (dp.status.Some? && dp.status.value in versions
      && (dp.status.value == Published
          || (user.Some? && (user.value.isAdmin || (dp.editorId.Some? && user.value.authIdentifier == dp.editorId)))))
  {
    if Published in versions && dp.status.None? then Thrown("NullPointerException")
    else if Published in versions && dp.status == Some(Published) then Ok(true)
    else if user.Some? && dp.status.Some? && dp.status.value in versions then
      if user.value.isAdmin then Ok(true)
      else if dp.editorId.None? then Thrown("NullPointerException")
      else Ok(dp.editorId == user.value.authIdentifier)
    else Ok(false)
  }

  /**
   The records of the store the caller may see, in store order. The parallel
   stream fails when the test of any record throws.
   */
  function Visible(all: seq<DataProduct>, params: Params, user: Option<User>, statuses: set<string>)
    : (r: Outcome<seq<DataProduct>>)
    ensures Versions(params, user, statuses).Thrown? ==> r.Thrown?
    ensures Versions(params, user, statuses).Ok? ==> (r.Thrown? <==>
      exists i :: 0 <= i < |all| && ShouldInclude(all[i], Versions(params, user, statuses).value, user).Thrown?)
    ensures r.Ok? ==> Versions(params, user, statuses).Ok? && IsSubsequence(r.value, all)
    ensures r.Ok? ==> forall dp :: dp in r.value <==> dp in all && ShouldInclude(dp, Versions(params, user, statuses).value, user) == Ok(true)
    ensures !(user.Some? && VersioningStatusKey in params) ==> (r.Thrown? <==> exists i :: 0 <= i < |all| && all[i].status.None?)
    ensures !(user.Some? && VersioningStatusKey in params) && r.Ok? ==>
      forall dp :: dp in r.value <==> dp in all && dp.status == Some(Published)
  {
    match Versions(params, user, statuses)
    case Thrown(e) => Thrown(e)
    case Ok(versions) =>
      if exists i :: 0 <= i < |all| && ShouldInclude(all[i], versions, user).Thrown? then Thrown("NullPointerException")
      else Ok(Filter(all, (dp: DataProduct) => ShouldInclude(dp, versions, user) == Ok(true)))
  }

  // ---------------------------------------------------------------------
  // Pre-fetch
  // ---------------------------------------------------------------------

  /** The snapshot the aggregation works from (categories, organisations, distributions, web services) and the store calls that built it. */
  datatype PreFetched = PreFetched(snapshot: Tables, requests: seq<Request>)

  function ServiceCategoryIds(ws: map<Id, WebService>): set<Id>
  {
    ValueLinkIds(ws, (w: WebService) => w.category)
  }

  /**
   `preFetchLinkedEntities`: categories, publishers and distributions of the
   records; the web services of the fetched distributions; then the providers
   and categories of the fetched web services, merged into the first maps with
   `putAll`. A round with no ids makes no call (`fetchBatch` on an empty set).
   */
  function PreFetch(dps: seq<DataProduct>, store: Tables): (p: PreFetched)
    ensures |p.requests| <= 6 && NoEmptyRequest(p.requests)
    ensures p.snapshot.distributions == Restrict(store.distributions, DistributionFilter.DistributionIds(dps))
    ensures p.snapshot.webServices == Restrict(store.webServices, ValueLinkIds(p.snapshot.distributions, DistributionFilter.AccessLink))
    ensures p.snapshot.organizations
      == Restrict(store.organizations, DistributionFilter.PublisherIds(dps) + DistributionFilter.ProviderIdsOf(p.snapshot.webServices))
    ensures p.snapshot.categories
      == Restrict(store.categories, DistributionFilter.CategoryIds(dps) + ServiceCategoryIds(p.snapshot.webServices))
  {
    var first := FirstRound(dps, store);
    var second := SecondRound(dps, store, first.services.found);
    PreFetched(
      NoTables.(
        categories := PutAll(first.cats.found, second.cats.found),
        organizations := PutAll(first.orgs.found, second.orgs.found),
        distributions := first.dists.found,
        webServices := first.services.found),
      Calls(first, second))
  }

  /** The batches of the first round: what the data products link to, then the services behind their distributions. */
  datatype FirstBatches = FirstBatches(
    cats: Batch<Category>, orgs: Batch<Organization>, dists: Batch<Distribution>, services: Batch<WebService>)

  /** The batches of the second round: what the fetched services link to. */
  datatype SecondBatches = SecondBatches(orgs: Batch<Organization>, cats: Batch<Category>)

  function FirstRound(dps: seq<DataProduct>, store: Tables): (b: FirstBatches)
    ensures b.cats.found == Restrict(store.categories, DistributionFilter.CategoryIds(dps))
    ensures b.orgs.found == Restrict(store.organizations, DistributionFilter.PublisherIds(dps))
    ensures b.dists.found == Restrict(store.distributions, DistributionFilter.DistributionIds(dps))
    ensures b.services.found == Restrict(store.webServices, ValueLinkIds(b.dists.found, DistributionFilter.AccessLink))
    ensures FirstShort(b)
  {
    var cats := FetchEntityBatch(CategoryKind, store.categories, DistributionFilter.CategoryIds(dps));
    var orgs := FetchEntityBatch(OrganizationKind, store.organizations, DistributionFilter.PublisherIds(dps));
    var dists := FetchEntityBatch(DistributionKind, store.distributions, DistributionFilter.DistributionIds(dps));
    var services := FetchEntityBatch(WebServiceKind, store.webServices,
      ValueLinkIds(dists.found, DistributionFilter.AccessLink));
    SingleCall(cats.requests, CategoryKind);
    SingleCall(orgs.requests, OrganizationKind);
    SingleCall(dists.requests, DistributionKind);
    SingleCall(services.requests, WebServiceKind);
    FirstBatches(cats, orgs, dists, services)
  }

  function SecondRound(dps: seq<DataProduct>, store: Tables, services: map<Id, WebService>): (b: SecondBatches)
    ensures PutAll(Restrict(store.organizations, DistributionFilter.PublisherIds(dps)), b.orgs.found)
      == Restrict(store.organizations, DistributionFilter.PublisherIds(dps) + DistributionFilter.ProviderIdsOf(services))
    ensures PutAll(Restrict(store.categories, DistributionFilter.CategoryIds(dps)), b.cats.found)
      == Restrict(store.categories, DistributionFilter.CategoryIds(dps) + ServiceCategoryIds(services))
    ensures SecondShort(b)
  {
    var orgs := FetchEntityBatch(OrganizationKind, store.organizations, DistributionFilter.ProviderIdsOf(services));
    var cats := FetchEntityBatch(CategoryKind, store.categories, ServiceCategoryIds(services));
    RestrictTwice(store.organizations, DistributionFilter.PublisherIds(dps), DistributionFilter.ProviderIdsOf(services));
    RestrictTwice(store.categories, DistributionFilter.CategoryIds(dps), ServiceCategoryIds(services));
    SingleCall(orgs.requests, OrganizationKind);
    SingleCall(cats.requests, CategoryKind);
    SecondBatches(orgs, cats)
  }

  /** At most one call, and it asks for something. */
  predicate Single(rs: seq<Request>)
  {
    |rs| <= 1 && NoEmptyRequest(rs)
  }

  predicate FirstShort(b: FirstBatches)
  {
    Single(b.cats.requests) && Single(b.orgs.requests) && Single(b.dists.requests) && Single(b.services.requests)
  }

  predicate SecondShort(b: SecondBatches)
  {
    Single(b.orgs.requests) && Single(b.cats.requests)
  }

  lemma SingleCall(rs: seq<Request>, k: Kind)
    requires OneCall(rs, k)
    ensures Single(rs)
  {
    forall i | 0 <= i < |rs| ensures rs[i].ids != {} {
      assert rs[i] in rs;
    }
  }

  /** The calls of the two rounds, in the order the source makes them. */
  function Calls(first: FirstBatches, second: SecondBatches): (r: seq<Request>)
    requires FirstShort(first) && SecondShort(second)
    ensures |r| <= 6 && NoEmptyRequest(r)
  {
    var a := first.cats.requests + first.orgs.requests;
    var b := first.dists.requests + first.services.requests;
    var c := second.orgs.requests + second.cats.requests;
    NoEmptyAppend(first.cats.requests, first.orgs.requests);
    NoEmptyAppend(first.dists.requests, first.services.requests);
    NoEmptyAppend(second.orgs.requests, second.cats.requests);
    NoEmptyAppend(a, b);
    NoEmptyAppend(a + b, c);
    a + b + c
  }

  /** The pre-fetch holds, for the four entity types, what the filter pipeline's pre-fetch holds. */
  lemma PreFetchMatchesFilterSnapshot(dps: seq<DataProduct>, store: Tables)
    ensures var s := PreFetch(dps, store).snapshot;
      var f := DistributionFilter.Snapshot(dps, store);
      && s.distributions == f.distributions && s.webServices == f.webServices
      && s.organizations == f.organizations && s.categories == f.categories
  {
  }

  // ---------------------------------------------------------------------
  // What the aggregation reads of a record
  // ---------------------------------------------------------------------

  /** A web service with its resolved provider (none or one) and categories. */
  datatype ServiceView = ServiceView(service: WebService, provider: seq<Organization>, categories: seq<Category>)

  datatype DistributionView = DistributionView(distribution: Distribution, services: seq<ServiceView>)

  /** A record with every link the aggregation follows resolved. */
  datatype ProductView = ProductView(
    product: DataProduct,
    categories: seq<Category>,
    publishers: seq<Organization>,
    distributions: seq<DistributionView>)

  function ServiceViewOf(w: WebService, t: Tables): ServiceView
  {
    ServiceView(w, DistributionFilter.ProviderOf(w, t), Resolve(t.categories, w.category))
  }

  function DistributionViewOf(d: Distribution, t: Tables): DistributionView
  {
    var ws := DistributionFilter.AccessServices(d, t);
    DistributionView(d, seq(|ws|, i requires 0 <= i < |ws| => ServiceViewOf(ws[i], t)))
  }

  function ViewOf(dp: DataProduct, t: Tables): ProductView
  {
    var ds := DistributionFilter.Dists(dp, t);
    ProductView(dp, Resolve(t.categories, dp.category), Resolve(t.organizations, dp.publisher),
      seq(|ds|, i requires 0 <= i < |ds| => DistributionViewOf(ds[i], t)))
  }

  lemma ViewAgrees(dp: DataProduct, s: Tables, t: Tables)
    requires DistributionFilter.Transparent(dp, s, t)
    ensures ViewOf(dp, s) == ViewOf(dp, t)
  {
    DistributionFilter.ViewsAgree(dp, s, t);
    ResolveAgree(s.organizations, t.organizations, dp.publisher);
    var ds := DistributionFilter.Dists(dp, t);
    forall i | 0 <= i < |ds| ensures DistributionViewOf(ds[i], s) == DistributionViewOf(ds[i], t) {
      DistributionAgrees(dp, ds[i], s, t);
    }
  }

  lemma DistributionAgrees(dp: DataProduct, d: Distribution, s: Tables, t: Tables)
    requires DistributionFilter.Transparent(dp, s, t)
    requires d in DistributionFilter.Dists(dp, t)
    ensures DistributionViewOf(d, s) == DistributionViewOf(d, t)
  {
    ResolveAgree(s.webServices, t.webServices, d.accessService);
    var ws := DistributionFilter.AccessServices(d, t);
    assert DistributionFilter.AccessServices(d, s) == ws;
    var ds := DistributionFilter.Dists(dp, t);
    var k :| 0 <= k < |ds| && ds[k] == d;
    forall j | 0 <= j < |ws| ensures ServiceViewOf(ws[j], s) == ServiceViewOf(ws[j], t) {
      assert ws[j] in DistributionFilter.AccessServices(ds[k], t);
      assert ws[j] in DistributionFilter.Services(dp, t);
      assert DistributionFilter.ServiceTransparent(ws[j], s, t);
      ResolveAgree(s.categories, t.categories, ws[j].category);
    }
  }

  /**
   Working from the pre-fetched snapshot, every record of the list looks
   exactly as it does through the store: the pre-fetch misses no link the
   aggregation follows.
   */
  lemma PreFetchTransparent(dps: seq<DataProduct>, store: Tables)
    ensures forall dp :: dp in dps ==> ViewOf(dp, PreFetch(dps, store).snapshot) == ViewOf(dp, store)
  {
    var s := PreFetch(dps, store).snapshot;
    var f := DistributionFilter.Snapshot(dps, store);
    PreFetchMatchesFilterSnapshot(dps, store);
    forall dp | dp in dps ensures ViewOf(dp, s) == ViewOf(dp, store) {
      DistributionFilter.RecordTransparent(dps, store, dp);
      ViewAgrees(dp, f, store);
      SameViewTables(dp, s, f);
    }
  }

  /** A view reads only the categories, organisations, distributions and web services. */
  lemma SameViewTables(dp: DataProduct, s: Tables, f: Tables)
    requires s.distributions == f.distributions && s.webServices == f.webServices
    requires s.organizations == f.organizations && s.categories == f.categories
    ensures ViewOf(dp, s) == ViewOf(dp, f)
  {
    var ds := DistributionFilter.Dists(dp, f);
    forall i | 0 <= i < |ds| ensures DistributionViewOf(ds[i], s) == DistributionViewOf(ds[i], f) {
      var ws := DistributionFilter.AccessServices(ds[i], f);
      forall j | 0 <= j < |ws| ensures ServiceViewOf(ws[j], s) == ServiceViewOf(ws[j], f) {
      }
    }
  }

  // ---------------------------------------------------------------------
  // One record
  // ---------------------------------------------------------------------

  /** The record's categories, split by uid: `category:` uids for the item, the other categories for the science-domain facet. */
  datatype CategoryParts = CategoryParts(list: seq<string>, domains: set<Category>)

  /**
   The category loop of `processDataProduct`. A resolved category with a null
   uid throws (`category.getUid().contains(...)`).
   */
  function SplitCategories(cats: seq<Category>): (r: Outcome<CategoryParts>)
    ensures r.Thrown? <==> exists i :: 0 <= i < |cats| && cats[i].uid.None?
    ensures r.Ok? ==> |r.value.list| <= |cats|
    ensures r.Ok? ==> forall u :: u in r.value.list <==>
      exists i :: 0 <= i < |cats| && cats[i].uid == Some(u) && Contains(u, CategoryMarker)
    ensures r.Ok? ==> forall c :: c in r.value.domains <==>
      c in cats && c.uid.Some? && !Contains(c.uid.value, CategoryMarker)
  {
    if |cats| == 0 then Ok(CategoryParts([], {}))
    else if cats[0].uid.None? then Thrown("NullPointerException")
    else
      var rest := SplitCategories(cats[1..]);
      assert forall i :: 1 <= i < |cats| ==> cats[i] == cats[1..][i - 1];
      match rest
      case Thrown(e) => Thrown(e)
      case Ok(parts) =>
        var u := cats[0].uid.value;
        if Contains(u, CategoryMarker) then Ok(CategoryParts([u] + parts.list, parts.domains))
        else Ok(CategoryParts(parts.list, parts.domains + {cats[0]}))
  }

  /**
   The keywords one record adds: its keyword text split on ",\t", each piece
   lower-cased and trimmed, empty pieces dropped.
   */
  function ProductKeywords(kw: Option<string>): (r: set<string>)
    ensures kw.None? ==> r == {}
    ensures forall k :: k in r ==> k != "" && NormaliseKeyword(k) == k
  {
    if kw.None? || kw.value == "" then {}
    else
      var r := set p | p in Split(kw.value, KeywordDelimiter) && NormaliseKeyword(p) != "" :: NormaliseKeyword(p);
      forall k | k in r ensures NormaliseKeyword(k) == k {
        var p :| p in Split(kw.value, KeywordDelimiter) && NormaliseKeyword(p) == k;
        NormaliseKeywordIdempotent(p);
      }
      r
  }

  /** A keyword belongs to a record exactly when it is the non-empty normal form of a piece of its keyword text. */
  lemma ProductKeywordsMembers(kw: string)
    ensures forall p :: p in Split(kw, KeywordDelimiter) ==>
      (NormaliseKeyword(p) in ProductKeywords(Some(kw)) <==> NormaliseKeyword(p) != "")
    ensures forall k :: k in ProductKeywords(Some(kw)) <==>
      (k != "" && exists p :: p in Split(kw, KeywordDelimiter) && NormaliseKeyword(p) == k)
  {
    if kw == "" {
      SplitEmptyIff(kw, KeywordDelimiter);
      assert Split(kw, KeywordDelimiter) == [""];
    }
  }

  /** The names under which publishers with a legal name join the data-provider facet. */
  function DataProviderNames(orgs: seq<Organization>): set<string>
  {
    set o | o in orgs && o.legalName.Some? :: Join(",", o.legalName.value)
  }

  /** The backoffice fields of an item. */
  datatype Backoffice = Backoffice(editorFullName: Option<string>, editorId: Option<string>, versioningStatus: string)

  /** `DiscoveryItem` as the search builds it. */
  datatype DiscoveryItem = DiscoveryItem(
    id: Id,
    href: string,
    hrefExtended: string,
    uid: Option<string>,
    metaId: Id,
    title: Option<string>,
    description: Option<string>,
    dataServiceProvider: Option<Provider>,
    availableFormats: seq<AvailableFormats.AvailableFormat>,
    sha256id: string,
    dataProvider: set<string>,
    serviceProvider: set<string>,
    categories: Option<seq<string>>,
    backoffice: Option<Backoffice>)

  /** What one distribution adds: its item, the service types and the organisations its web services reach. */
  datatype Processed = Processed(item: DiscoveryItem, serviceTypes: set<Category>, organizations: set<Organization>)

  /** The providers `getProviders(List.of(org))` gives for a web service's resolved provider. */
  function Candidates(sv: ServiceView, providers: set<Organization> -> seq<Provider>): seq<Provider>
  {
    if |sv.provider| > 0 then providers({sv.provider[0]}) else []
  }

  /** The item's data-service provider: the first provider of the first web service that has one. */
  function FirstProvider(svs: seq<ServiceView>, providers: set<Organization> -> seq<Provider>): (r: Option<Provider>)
    ensures r.None? <==> forall i :: 0 <= i < |svs| ==> Candidates(svs[i], providers) == []
    ensures r.Some? ==> exists i :: (0 <= i < |svs| && Candidates(svs[i], providers) != []
      && r.value == Candidates(svs[i], providers)[0]
      && forall j :: 0 <= j < i ==> Candidates(svs[j], providers) == [])
  {
    if |svs| == 0 then None
    else if Candidates(svs[0], providers) != [] then Some(Candidates(svs[0], providers)[0])
    else
      var r := FirstProvider(svs[1..], providers);
      assert forall i :: 1 <= i < |svs| ==> svs[i] == svs[1..][i - 1];
      if r.Some? then
        var i :| 0 <= i < |svs[1..]| && Candidates(svs[1..][i], providers) != []
          && r.value == Candidates(svs[1..][i], providers)[0]
          && forall j :: 0 <= j < i ==> Candidates(svs[1..][j], providers) == [];
        assert forall j :: 0 <= j < i + 1 ==> Candidates(svs[j], providers) == [] by {
          forall j | 1 <= j < i + 1 ensures Candidates(svs[j], providers) == [] {
            assert svs[j] == svs[1..][j - 1];
          }
        }
        r
      else r
  }

  /**
   The editor's name: "Ingestor" for the ingestor, otherwise the known user's
   first and last name; a null editor id names no user.
   */
  function EditorFullName(editorId: Option<string>, userMap: map<string, User>): (r: Option<string>)
    ensures editorId == Some(IngestorId) ==> r == Some("Ingestor")
    ensures editorId != Some(IngestorId) ==> (r.Some? <==> editorId.Some? && editorId.value in userMap)
    ensures editorId != Some(IngestorId) && r.Some? ==>
      r.value == userMap[editorId.value].firstName + " " + userMap[editorId.value].lastName
  {
    if editorId == Some(IngestorId) then Some("Ingestor")
    else if editorId.Some? && editorId.value in userMap then Some(userMap[editorId.value].firstName + " " + userMap[editorId.value].lastName)
    else None
  }

  /** The details link of a distribution. */
  function DetailsHref(cfg: AvailableFormats.Config, id: Id): string
  {
    cfg.host + cfg.context + DetailsPath + id
  }

  /** How the available formats of a distribution are computed. */
  type Formats = Distribution -> Outcome<seq<AvailableFormats.AvailableFormat>>

  /** `AvailableFormatsGeneration.generate` against the store. */
  function FormatsOf(env: Env): Formats
  {
    (d: Distribution) => AvailableFormats.Generate(env.cfg, d, env.store, env.plugins)
  }

  /**
   `processDistribution`: the distribution's item, with the record's data
   providers and category list, the names of its services' providers, the
   first data-service provider, and the backoffice fields when `backoffice`
   (a signed-in user who passed `versioningStatus`).
   */
  function ProcessDistribution(env: Env, formats: Formats, dv: DistributionView, dp: DataProduct, dataProviders: set<string>,
                               categoryList: seq<string>, backoffice: bool, userMap: map<string, User>)
    : (r: Outcome<Processed>)
    ensures r.Thrown? <==> formats(dv.distribution).Thrown? || (backoffice && dp.status.None?)
    ensures r.Ok? ==> var it := r.value.item; var d := dv.distribution;
      && it.id == d.instanceId && it.metaId == d.metaId && it.uid == d.uid
      && it.hrefExtended == it.href + "?extended=true"
      && EndsWith(it.href, DetailsPath + d.instanceId)
      && it.availableFormats == formats(d).value
      && (d.uid.None? ==> it.sha256id == "")
      && (d.uid.Some? ==> it.sha256id == env.sha256(d.uid.value))
      && it.dataProvider == dataProviders
      && (it.categories.None? <==> categoryList == [])
      && (it.categories.Some? ==> it.categories.value == categoryList)
      && (it.title.Some? <==> d.title.Some?)
      && it.dataServiceProvider == FirstProvider(dv.services, env.providers)
      && (it.backoffice.Some? <==> backoffice)
      && (backoffice ==> (it.backoffice.value.editorId == d.editorId
            && dp.status.Some? && it.backoffice.value.versioningStatus == dp.status.value
            && it.backoffice.value.editorFullName == EditorFullName(d.editorId, userMap)))
    ensures r.Ok? ==> forall s :: s in r.value.item.serviceProvider <==>
      exists i, o :: 0 <= i < |dv.services| && o in dv.services[i].provider && o.legalName.Some? && s == Join(",", o.legalName.value)
    ensures r.Ok? ==> forall o :: o in r.value.organizations <==> exists i :: 0 <= i < |dv.services| && o in dv.services[i].provider
    ensures r.Ok? ==> forall c :: c in r.value.serviceTypes <==> exists i :: 0 <= i < |dv.services| && c in dv.services[i].categories
  {
    var d := dv.distribution;
    match formats(d)
    case Thrown(e) => Thrown(e)
    case Ok(formats) =>
      if backoffice && dp.status.None? then Thrown("NullPointerException")
      else
        var svs := dv.services;
        var serviceProviders := set i, o | 0 <= i < |svs| && o in svs[i].provider && o.legalName.Some? :: Join(",", o.legalName.value);
        var orgs := set i, o | 0 <= i < |svs| && o in svs[i].provider :: o;
        var serviceTypes := set i, c | 0 <= i < |svs| && c in svs[i].categories :: c;
        var href := DetailsHref(env.cfg, d.instanceId);
        assert href == (env.cfg.host + env.cfg.context) + (DetailsPath + d.instanceId);
        var item := DiscoveryItem(
          d.instanceId, href, href + "?extended=true", d.uid, d.metaId,
          if d.title.Some? then Some(Join(";", d.title.value)) else None,
          if d.description.Some? then Some(Join(";", d.description.value)) else None,
          FirstProvider(svs, env.providers), formats,
          if d.uid.Some? then env.sha256(d.uid.value) else "",
          dataProviders, serviceProviders,
          if categoryList == [] then None else Some(categoryList),
          if backoffice then Some(Backoffice(EditorFullName(d.editorId, userMap), d.editorId, dp.status.value)) else None);
        Ok(Processed(item, serviceTypes, orgs))
  }

  /** What one record adds to the shared collections of the search. */
  datatype Contribution = Contribution(
    items: set<DiscoveryItem>,
    keywords: set<string>,
    scienceDomains: set<Category>,
    serviceTypes: set<Category>,
    organizations: set<Organization>)

  /**
   What processing a distribution promises the loop over a record: the
   item carries the distribution's id and the record's data providers, and
   the service types and organisations are those of its resolved services.
   */
  ghost predicate ItemFor(p: Processed, dv: DistributionView, names: set<string>)
  {
    && p.item.id == dv.distribution.instanceId && p.item.dataProvider == names
    && (forall c :: c in p.serviceTypes <==> ServiceTypeOf(c, dv))
    && (forall o :: o in p.organizations <==> ServiceProviderOf(o, dv))
  }

  /** Some resolved service of the distribution has category `c`. */
  predicate ServiceTypeOf(c: Category, dv: DistributionView)
  {
    exists k :: 0 <= k < |dv.services| && c in dv.services[k].categories
  }

  /** Some resolved service of the distribution has provider `o`. */
  predicate ServiceProviderOf(o: Organization, dv: DistributionView)
  {
    exists k :: 0 <= k < |dv.services| && o in dv.services[k].provider
  }

  /** Processing some distribution of a record fails: its formats throw, or the backoffice fields read a null status. */
  predicate ItemsFail(formats: Formats, dvs: seq<DistributionView>, dp: DataProduct, backoffice: bool)
  {
    exists i :: 0 <= i < |dvs| && (formats(dvs[i].distribution).Thrown? || (backoffice && dp.status.None?))
  }

  /** `processDistribution` for each resolved distribution of a record, in order; the first failure is reported. */
  function ProcessDistributions(env: Env, formats: Formats, dvs: seq<DistributionView>, dp: DataProduct, names: set<string>,
                                categoryList: seq<string>, backoffice: bool, userMap: map<string, User>)
    : (r: Outcome<seq<Processed>>)
    ensures r.Thrown? <==> ItemsFail(formats, dvs, dp, backoffice)
    ensures r.Ok? ==> |r.value| == |dvs| && forall i :: 0 <= i < |dvs| ==>
      ItemFor(r.value[i], dvs[i], names)
      && ProcessDistribution(env, formats, dvs[i], dp, names, categoryList, backoffice, userMap) == Ok(r.value[i])
  {
    if |dvs| == 0 then Ok([])
    else
      var rest := ProcessDistributions(env, formats, dvs[1..], dp, names, categoryList, backoffice, userMap);
      assert ItemsFail(formats, dvs, dp, backoffice) <==>
        (formats(dvs[0].distribution).Thrown? || (backoffice && dp.status.None?)) || ItemsFail(formats, dvs[1..], dp, backoffice) by {
        assert forall i :: 1 <= i < |dvs| ==> dvs[i] == dvs[1..][i - 1];
      }
      match ProcessDistribution(env, formats, dvs[0], dp, names, categoryList, backoffice, userMap)
      case Thrown(e) => Thrown(e)
      case Ok(p) =>
        if rest.Thrown? then rest
        else
          ProcessedStep(env, formats, dvs, dp, names, categoryList, backoffice, userMap, p, rest.value);
          Ok([p] + rest.value)
  }

  /** One more processed distribution in front keeps the guarantees of the loop. */
  lemma ProcessedStep(env: Env, formats: Formats, dvs: seq<DistributionView>, dp: DataProduct, names: set<string>,
                      categoryList: seq<string>, backoffice: bool, userMap: map<string, User>, p: Processed, rest: seq<Processed>)
    requires |dvs| > 0 && |rest| == |dvs| - 1
    requires ProcessDistribution(env, formats, dvs[0], dp, names, categoryList, backoffice, userMap) == Ok(p)
    requires forall i :: 0 <= i < |rest| ==>
      ItemFor(rest[i], dvs[1..][i], names)
      && ProcessDistribution(env, formats, dvs[1..][i], dp, names, categoryList, backoffice, userMap) == Ok(rest[i])
    ensures forall i :: 0 <= i < |dvs| ==>
      ItemFor(([p] + rest)[i], dvs[i], names)
      && ProcessDistribution(env, formats, dvs[i], dp, names, categoryList, backoffice, userMap) == Ok(([p] + rest)[i])
  {
    forall i | 0 <= i < |dvs| ensures ItemFor(([p] + rest)[i], dvs[i], names)
      && ProcessDistribution(env, formats, dvs[i], dp, names, categoryList, backoffice, userMap) == Ok(([p] + rest)[i])
    {
      if i > 0 {
        assert dvs[i] == dvs[1..][i - 1];
        assert ([p] + rest)[i] == rest[i - 1];
      }
    }
  }

  /** The item of some distribution of a record, as `processDistribution` builds it. */
  predicate ProcessedItem(env: Env, formats: Formats, pv: ProductView, backoffice: bool, userMap: map<string, User>,
                          it: DiscoveryItem)
  {
    && SplitCategories(pv.categories).Ok?
    && exists i :: (0 <= i < |pv.distributions|
      && ProcessDistribution(env, formats, pv.distributions[i], pv.product, DataProviderNames(pv.publishers),
           SplitCategories(pv.categories).value.list, backoffice, userMap).Ok?
      && ProcessDistribution(env, formats, pv.distributions[i], pv.product, DataProviderNames(pv.publishers),
           SplitCategories(pv.categories).value.list, backoffice, userMap).value.item == it)
  }

  /**
   `processDataProduct`: categories, publishers, keywords, then one item per
   resolved distribution. The publishers with a legal name become data
   providers of every item and join the organisation facet, with the
   providers of the distributions' services; the services' categories are
   the record's service types.
   */
  function ProcessDataProduct(env: Env, formats: Formats, pv: ProductView, backoffice: bool, userMap: map<string, User>)
    : (r: Outcome<Contribution>)
    ensures r.Thrown? <==> SplitCategories(pv.categories).Thrown? || ItemsFail(formats, pv.distributions, pv.product, backoffice)
    ensures r.Ok? ==> r.value.keywords == ProductKeywords(pv.product.keywords)
    ensures r.Ok? ==> SplitCategories(pv.categories).Ok? && r.value.scienceDomains == SplitCategories(pv.categories).value.domains
    ensures r.Ok? ==> ItemIds(r.value.items) == ViewIds(pv.distributions)
    ensures r.Ok? ==> forall it :: it in r.value.items ==> it.dataProvider == DataProviderNames(pv.publishers)
    ensures r.Ok? ==> forall it :: it in r.value.items <==> ProcessedItem(env, formats, pv, backoffice, userMap, it)
    ensures r.Ok? ==> forall c :: c in r.value.serviceTypes <==>
      exists i :: 0 <= i < |pv.distributions| && ServiceTypeOf(c, pv.distributions[i])
    ensures r.Ok? ==> forall o :: o in r.value.organizations <==>
      ((o in pv.publishers && o.legalName.Some?) || exists i :: 0 <= i < |pv.distributions| && ServiceProviderOf(o, pv.distributions[i]))
  {
    match SplitCategories(pv.categories)
    case Thrown(e) => Thrown(e)
    case Ok(parts) =>
      var names := DataProviderNames(pv.publishers);
      var dvs := pv.distributions;
      match ProcessDistributions(env, formats, dvs, pv.product, names, parts.list, backoffice, userMap)
      case Thrown(e) => Thrown(e)
      case Ok(outs) =>
        ItemsProcessed(env, formats, pv, backoffice, userMap, parts, outs);
        Ok(Contributed(outs, dvs, names, ProductKeywords(pv.product.keywords), parts.domains, pv.publishers))
  }

  /** The items of the processed distributions are exactly the items `processDistribution` builds for the record. */
  lemma ItemsProcessed(env: Env, formats: Formats, pv: ProductView, backoffice: bool, userMap: map<string, User>,
                       parts: CategoryParts, outs: seq<Processed>)
    requires SplitCategories(pv.categories) == Ok(parts)
    requires |outs| == |pv.distributions| && forall i :: 0 <= i < |outs| ==>
      ProcessDistribution(env, formats, pv.distributions[i], pv.product, DataProviderNames(pv.publishers), parts.list,
        backoffice, userMap) == Ok(outs[i])
    ensures forall it :: it in ItemsOf(outs) <==> ProcessedItem(env, formats, pv, backoffice, userMap, it)
  {
    forall it ensures it in ItemsOf(outs) <==> ProcessedItem(env, formats, pv, backoffice, userMap, it) {
      if it in ItemsOf(outs) {
        ItemIsProcessed(env, formats, pv, backoffice, userMap, parts, outs, it);
      }
      if ProcessedItem(env, formats, pv, backoffice, userMap, it) {
        ProcessedIsItem(env, formats, pv, backoffice, userMap, parts, outs, it);
      }
    }
  }

  lemma ItemIsProcessed(env: Env, formats: Formats, pv: ProductView, backoffice: bool, userMap: map<string, User>,
                        parts: CategoryParts, outs: seq<Processed>, it: DiscoveryItem)
    requires SplitCategories(pv.categories) == Ok(parts)
    requires |outs| == |pv.distributions| && forall i :: 0 <= i < |outs| ==>
      ProcessDistribution(env, formats, pv.distributions[i], pv.product, DataProviderNames(pv.publishers), parts.list,
        backoffice, userMap) == Ok(outs[i])
    requires it in ItemsOf(outs)
    ensures ProcessedItem(env, formats, pv, backoffice, userMap, it)
  {
    var i := ItemIndex(outs, it);
    assert ProcessDistribution(env, formats, pv.distributions[i], pv.product, DataProviderNames(pv.publishers), parts.list,
      backoffice, userMap) == Ok(outs[i]);
  }

  lemma ProcessedIsItem(env: Env, formats: Formats, pv: ProductView, backoffice: bool, userMap: map<string, User>,
                        parts: CategoryParts, outs: seq<Processed>, it: DiscoveryItem)
    requires SplitCategories(pv.categories) == Ok(parts)
    requires |outs| == |pv.distributions| && forall i :: 0 <= i < |outs| ==>
      ProcessDistribution(env, formats, pv.distributions[i], pv.product, DataProviderNames(pv.publishers), parts.list,
        backoffice, userMap) == Ok(outs[i])
    requires ProcessedItem(env, formats, pv, backoffice, userMap, it)
    ensures it in ItemsOf(outs)
  {
    var i :| 0 <= i < |pv.distributions|
      && ProcessDistribution(env, formats, pv.distributions[i], pv.product, DataProviderNames(pv.publishers), parts.list,
           backoffice, userMap).Ok?
      && ProcessDistribution(env, formats, pv.distributions[i], pv.product, DataProviderNames(pv.publishers), parts.list,
           backoffice, userMap).value.item == it;
    assert outs[i].item == it;
  }

  /** The contribution of a record whose distributions were all processed. */
  function Contributed(outs: seq<Processed>, dvs: seq<DistributionView>, names: set<string>,
                       keywords: set<string>, domains: set<Category>, publishers: seq<Organization>): (c: Contribution)
    requires |outs| == |dvs| && forall i :: 0 <= i < |dvs| ==> ItemFor(outs[i], dvs[i], names)
    ensures c.keywords == keywords && c.scienceDomains == domains
    ensures ItemIds(c.items) == ViewIds(dvs)
    ensures c.items == ItemsOf(outs)
    ensures forall it :: it in c.items ==> it.dataProvider == names
    ensures forall x :: x in c.serviceTypes <==> exists i :: 0 <= i < |dvs| && ServiceTypeOf(x, dvs[i])
    ensures forall o :: o in c.organizations <==>
      ((o in publishers && o.legalName.Some?) || exists i :: 0 <= i < |dvs| && ServiceProviderOf(o, dvs[i]))
  {
    var items := ItemsOf(outs);
    forall it | it in items ensures it.dataProvider == names && it.id in ViewIds(dvs) {
      var i := ItemIndex(outs, it);
      assert ItemFor(outs[i], dvs[i], names);
    }
    forall id | id in ViewIds(dvs) ensures id in ItemIds(items) {
      var i :| 0 <= i < |dvs| && dvs[i].distribution.instanceId == id;
      assert ItemFor(outs[i], dvs[i], names);
      assert outs[i].item in items;
    }
    var types := ServiceTypesOf(outs);
    forall x ensures x in types <==> exists i :: 0 <= i < |dvs| && ServiceTypeOf(x, dvs[i]) {
      if x in types {
        var i :| 0 <= i < |outs| && x in outs[i].serviceTypes;
        assert ItemFor(outs[i], dvs[i], names);
      }
      if exists i :: 0 <= i < |dvs| && ServiceTypeOf(x, dvs[i]) {
        var i :| 0 <= i < |dvs| && ServiceTypeOf(x, dvs[i]);
        assert ItemFor(outs[i], dvs[i], names);
      }
    }
    var orgs := OrganizationsOf(outs);
    forall o ensures o in orgs <==> exists i :: 0 <= i < |dvs| && ServiceProviderOf(o, dvs[i]) {
      if o in orgs {
        var i :| 0 <= i < |outs| && o in outs[i].organizations;
        assert ItemFor(outs[i], dvs[i], names);
      }
      if exists i :: 0 <= i < |dvs| && ServiceProviderOf(o, dvs[i]) {
        var i :| 0 <= i < |dvs| && ServiceProviderOf(o, dvs[i]);
        assert ItemFor(outs[i], dvs[i], names);
      }
    }
    Contribution(items, keywords, domains, types, PublisherOrganizations(publishers) + orgs)
  }

  /** The ids of some items. */
  function ItemIds(items: set<DiscoveryItem>): set<Id>
  {
    set it | it in items :: it.id
  }

  /** The ids of some resolved distributions. */
  function ViewIds(dvs: seq<DistributionView>): set<Id>
  {
    set i | 0 <= i < |dvs| :: dvs[i].distribution.instanceId
  }

  function ItemsOf(outs: seq<Processed>): (r: set<DiscoveryItem>)
    ensures forall i :: 0 <= i < |outs| ==> outs[i].item in r
    ensures forall it :: it in r ==> exists i :: 0 <= i < |outs| && outs[i].item == it
  {
    set i | 0 <= i < |outs| :: outs[i].item
  }

  /** Where an item of `ItemsOf(outs)` comes from. */
  lemma ItemIndex(outs: seq<Processed>, it: DiscoveryItem) returns (i: nat)
    requires it in ItemsOf(outs)
    ensures i < |outs| && outs[i].item == it
  {
    i :| 0 <= i < |outs| && outs[i].item == it;
  }

  function ServiceTypesOf(outs: seq<Processed>): (r: set<Category>)
    ensures forall i :: 0 <= i < |outs| ==> outs[i].serviceTypes <= r
    ensures forall c :: c in r ==> exists i :: 0 <= i < |outs| && c in outs[i].serviceTypes
  {
    set i, c | 0 <= i < |outs| && c in outs[i].serviceTypes :: c
  }

  function OrganizationsOf(outs: seq<Processed>): (r: set<Organization>)
    ensures forall i :: 0 <= i < |outs| ==> outs[i].organizations <= r
    ensures forall o :: o in r ==> exists i :: 0 <= i < |outs| && o in outs[i].organizations
  {
    set i, o | 0 <= i < |outs| && o in outs[i].organizations :: o
  }

  /** The publishers that join the organisation facet: those with a legal name. */
  function PublisherOrganizations(publishers: seq<Organization>): (r: set<Organization>)
    ensures forall o :: o in r <==> o in publishers && o.legalName.Some?
  {
    set o | o in publishers && o.legalName.Some?
  }

  // ---------------------------------------------------------------------
  // All records
  // ---------------------------------------------------------------------

  /** Each shared set of `r` holds exactly what some contribution of `cs` holds. */
  ghost predicate Unites(r: Contribution, cs: seq<Contribution>)
  {
    && (forall x :: x in r.items <==> exists i :: 0 <= i < |cs| && x in cs[i].items)
    && (forall x :: x in r.keywords <==> exists i :: 0 <= i < |cs| && x in cs[i].keywords)
    && (forall x :: x in r.scienceDomains <==> exists i :: 0 <= i < |cs| && x in cs[i].scienceDomains)
    && (forall x :: x in r.serviceTypes <==> exists i :: 0 <= i < |cs| && x in cs[i].serviceTypes)
    && (forall x :: x in r.organizations <==> exists i :: 0 <= i < |cs| && x in cs[i].organizations)
  }

  /** The union of the records' contributions (the concurrent sets of `generate`). */
  function Merge(cs: seq<Contribution>): (r: Contribution)
    ensures Unites(r, cs)
  {
    Contribution(
      set i, x | 0 <= i < |cs| && x in cs[i].items :: x,
      set i, x | 0 <= i < |cs| && x in cs[i].keywords :: x,
      set i, x | 0 <= i < |cs| && x in cs[i].scienceDomains :: x,
      set i, x | 0 <= i < |cs| && x in cs[i].serviceTypes :: x,
      set i, x | 0 <= i < |cs| && x in cs[i].organizations :: x)
  }

  /** The contributions of records that were all processed, in order. */
  function Contributions(env: Env, formats: Formats, views: seq<ProductView>, backoffice: bool, userMap: map<string, User>)
    : (cs: seq<Contribution>)
    requires forall i :: 0 <= i < |views| ==> ProcessDataProduct(env, formats, views[i], backoffice, userMap).Ok?
    ensures |cs| == |views|
    ensures forall i :: 0 <= i < |views| ==> ProcessDataProduct(env, formats, views[i], backoffice, userMap) == Ok(cs[i])
  {
    seq(|views|, i requires 0 <= i < |views| => ProcessDataProduct(env, formats, views[i], backoffice, userMap).value)
  }

  /**
   The parallel `forEach` over the records: the first failure, in list order,
   is the one reported; otherwise each shared set holds exactly what some
   record contributed.
   */
  function Collect(env: Env, formats: Formats, views: seq<ProductView>, backoffice: bool, userMap: map<string, User>)
    : (r: Outcome<Contribution>)
    ensures r.Thrown? <==> exists i :: 0 <= i < |views| && ProcessDataProduct(env, formats, views[i], backoffice, userMap).Thrown?
    ensures r.Ok? ==> forall i :: 0 <= i < |views| ==> ProcessDataProduct(env, formats, views[i], backoffice, userMap).Ok?
    ensures r.Ok? ==> Unites(r.value, Contributions(env, formats, views, backoffice, userMap))
  {
    match MapAll(views, (pv: ProductView) => ProcessDataProduct(env, formats, pv, backoffice, userMap))
    case Thrown(e) => Thrown(e)
    case Ok(cs) =>
      assert Contributions(env, formats, views, backoffice, userMap) == cs;
      Ok(Merge(cs))
  }

  // ---------------------------------------------------------------------
  // Response
  // ---------------------------------------------------------------------

  datatype FacetKind = ByCategories | ByDataProviders | ByServiceProviders

  /** The `results` node: the items, plain or grouped by one of the facet trees. */
  datatype Results = Plain(items: set<DiscoveryItem>) | Faceted(kind: FacetKind, items: set<DiscoveryItem>)

  /** `NodeFilters`: a display name and an id. */
  datatype FilterNode = FilterNode(name: Option<string>, id: Option<string>)

  /** A filter group: listed in order, or filled from a set in no particular order. */
  datatype FilterGroup = Listed(name: string, nodes: seq<FilterNode>) | Unordered(name: string, members: set<FilterNode>)

  datatype SearchResponse = SearchResponse(results: Results, filters: seq<FilterGroup>)

  predicate FacetsRequested(params: Params)
  {
    "facets" in params && params["facets"] == "true"
  }

  /** The results node. With facets requested, a missing `facetstype` throws (`get(...).toString()` on null). */
  function ResultsOf(params: Params, items: set<DiscoveryItem>): (r: Outcome<Results>)
    ensures r.Thrown? <==> FacetsRequested(params) && "facetstype" !in params
    ensures r.Ok? ==> r.value.items == items
    ensures r.Ok? ==> (r.value.Faceted? <==>
      FacetsRequested(params) && params["facetstype"] in {"categories", "dataproviders", "serviceproviders"})
  {
    if !FacetsRequested(params) then Ok(Plain(items))
    else if "facetstype" !in params then Thrown("NullPointerException")
    else match params["facetstype"]
      case "categories" => Ok(Faceted(ByCategories, items))
      case "dataproviders" => Ok(Faceted(ByDataProviders, items))
      case "serviceproviders" => Ok(Faceted(ByServiceProviders, items))
      case _ => Ok(Plain(items))
  }

  /** A keyword node: the keyword, with the Base64 of its UTF-8 bytes as id. */
  function KeywordNode(k: string): FilterNode
  {
    FilterNode(Some(k), Some(Encoding.TextId(k)))
  }

  function ProviderNode(p: Provider): FilterNode
  {
    FilterNode(Some(p.legalName), Some(p.instanceId))
  }

  /** A provider's node, then its related data providers' nodes, then its related service providers' nodes. */
  function ProviderNodes(p: Provider): (r: seq<FilterNode>)
    ensures |r| == |GroupIds(p)|
    ensures forall i :: 0 <= i < |r| ==> r[i].id == Some(GroupIds(p)[i])
  {
    var ds := p.relatedDataProviders;
    var ss := p.relatedServiceProviders;
    var r := [ProviderNode(p)]
      + seq(|ds|, i requires 0 <= i < |ds| => ProviderNode(ds[i]))
      + seq(|ss|, i requires 0 <= i < |ss| => ProviderNode(ss[i]));
    assert forall i :: 1 <= i < 1 + |ds| ==> GroupIds(p)[i] == ds[i - 1].instanceId;
    assert forall i :: 1 + |ds| <= i < |r| ==> GroupIds(p)[i] == ss[i - 1 - |ds|].instanceId;
    r
  }

  /** The organisations filter: each provider group in turn, nothing merged or removed. */
  function OrganisationNodes(ps: seq<Provider>): (r: seq<FilterNode>)
    ensures |r| == |FlatMap(ps, GroupIds)|
    ensures forall i :: 0 <= i < |r| ==> r[i].id == Some(FlatMap(ps, GroupIds)[i])
  {
    if |ps| == 0 then []
    else
      var head := ProviderNodes(ps[0]);
      var rest := OrganisationNodes(ps[1..]);
      assert FlatMap(ps, GroupIds) == GroupIds(ps[0]) + FlatMap(ps[1..], GroupIds);
      head + rest
  }

  /** A category as a science-domain or service-type node. */
  function CategoryNode(c: Category): FilterNode
  {
    FilterNode(c.name, Some(c.instanceId))
  }

  /** The names of the four filter groups, in response order. */
  function GroupName(g: FilterGroup): string
  {
    g.name
  }

  /**
   What a response promises about a collection: the results node, then the
   keyword filter (every keyword once, ascending), the organisations filter
   (the provider groups of the collected organisations, in order), the
   science domains and the service types.
   */
  predicate Describes(params: Params, c: Contribution, providers: set<Organization> -> seq<Provider>, resp: SearchResponse)
  {
    && ResultsOf(params, c.items).Ok? && resp.results == ResultsOf(params, c.items).value
    && |resp.filters| == 4
    && GroupName(resp.filters[0]) == "keywords" && GroupName(resp.filters[1]) == "organisations"
    && GroupName(resp.filters[2]) == "sciencedomains" && GroupName(resp.filters[3]) == "servicetypes"
    && resp.filters[0].Listed? && |resp.filters[0].nodes| == |c.keywords|
    && (forall i :: 0 <= i < |resp.filters[0].nodes| ==> var n := resp.filters[0].nodes[i];
          n.name.Some? && n.name.value in c.keywords && n == KeywordNode(n.name.value))
    && (forall k :: k in c.keywords ==> KeywordNode(k) in resp.filters[0].nodes)
    && (forall i, j :: 0 <= i < j < |resp.filters[0].nodes| ==>
          StringOrder.Below(resp.filters[0].nodes[i].name.value, resp.filters[0].nodes[j].name.value))
    && resp.filters[1].Listed? && |resp.filters[1].nodes| == |FlatMap(providers(c.organizations), GroupIds)|
    && (forall i :: 0 <= i < |resp.filters[1].nodes| ==>
          resp.filters[1].nodes[i].id == Some(FlatMap(providers(c.organizations), GroupIds)[i]))
    && resp.filters[2] == Unordered("sciencedomains", set x | x in c.scienceDomains :: CategoryNode(x))
    && resp.filters[3] == Unordered("servicetypes", set x | x in c.serviceTypes :: CategoryNode(x))
  }

  /**
   `buildResponse`: the results node, then the keyword filter (keywords in
   ascending order), the organisations filter (the provider groups of every
   collected organisation), the science domains and the service types.
   */
  method BuildResponse(params: Params, c: Contribution, providers: set<Organization> -> seq<Provider>)
    returns (r: Outcome<SearchResponse>)
    ensures r.Thrown? <==> ResultsOf(params, c.items).Thrown?
    ensures r.Ok? ==> Describes(params, c, providers, r.value)
  {
    var results := ResultsOf(params, c.items);
    if results.Thrown? {
      return Thrown(results.exception);
    }
    var sorted := StringOrder.SortedEnumeration(c.keywords);
    var keywordNodes := seq(|sorted|, i requires 0 <= i < |sorted| => KeywordNode(sorted[i]));
    assert forall k :: k in c.keywords ==> KeywordNode(k) in keywordNodes by {
      forall k | k in c.keywords ensures KeywordNode(k) in keywordNodes {
        assert k in Elems(sorted);
        var i :| 0 <= i < |sorted| && sorted[i] == k;
        assert keywordNodes[i] == KeywordNode(k);
      }
    }
    assert forall i :: 0 <= i < |keywordNodes| ==> sorted[i] in Elems(sorted);
    var filters := [
      Listed("keywords", keywordNodes),
      Listed("organisations", OrganisationNodes(providers(c.organizations))),
      Unordered("sciencedomains", set x | x in c.scienceDomains :: CategoryNode(x)),
      Unordered("servicetypes", set x | x in c.serviceTypes :: CategoryNode(x))];
    return Ok(SearchResponse(results.value, filters));
  }

  /** Each keyword node's id reads back as its name, so no two keyword nodes share an id. */
  lemma KeywordNodeIdDecodes(k: string)
    ensures Encoding.Base64Decode(KeywordNode(k).id.value).Some?
    ensures Encoding.Utf8Decode(Encoding.Base64Decode(KeywordNode(k).id.value).value) == KeywordNode(k).name
  {
    Encoding.TextIdDecodes(k);
  }

  // ---------------------------------------------------------------------
  // The search
  // ---------------------------------------------------------------------

  /**
   The records a search aggregates: the visible ones, through the filter
   pipeline. A record is kept exactly when the caller may see it and it
   survives the filters among the visible records.
   */
  function Selected<G>(env: Env, collab: Collaborators<G>, params: Params, user: Option<User>, all: seq<DataProduct>)
    : (r: Outcome<seq<DataProduct>>)
    ensures r.Thrown? <==> Visible(all, params, user, env.statuses).Thrown?
    ensures r.Ok? ==> Versions(params, user, env.statuses).Ok? && forall dp :: dp in r.value <==>
      (dp in all && ShouldInclude(dp, Versions(params, user, env.statuses).value, user) == Ok(true)
        && DistributionFilter.Survives(dp, Visible(all, params, user, env.statuses).value, params, env.store, env.store.temporals, collab))
  {
    match Visible(all, params, user, env.statuses)
    case Thrown(e) => Thrown(e)
    case Ok(visible) =>
      Ok(DistributionFilter.DoFilters(visible, params, env.store, collab))
  }

  /** The views of some records against some tables. */
  function Views(dps: seq<DataProduct>, t: Tables): (r: seq<ProductView>)
    ensures |r| == |dps| && forall i :: 0 <= i < |dps| ==> r[i] == ViewOf(dps[i], t)
  {
    seq(|dps|, i requires 0 <= i < |dps| => ViewOf(dps[i], t))
  }

  /** Aggregating over the pre-fetched snapshot sees what aggregating over the store would. */
  lemma ViewsOfSnapshot(dps: seq<DataProduct>, store: Tables)
    ensures Views(dps, PreFetch(dps, store).snapshot) == Views(dps, store)
  {
    PreFetchTransparent(dps, store);
    SameViews(dps, PreFetch(dps, store).snapshot, store);
  }

  /** Tables that give every record the same view give the same list of views. */
  lemma SameViews(dps: seq<DataProduct>, s: Tables, t: Tables)
    requires forall dp :: dp in dps ==> ViewOf(dp, s) == ViewOf(dp, t)
    ensures Views(dps, s) == Views(dps, t)
  {
    forall i | 0 <= i < |dps| ensures Views(dps, s)[i] == Views(dps, t)[i] {
      assert dps[i] in dps;
    }
  }

  /**
   What the selected records contribute. The aggregation runs over the
   pre-fetched snapshot, and gives what resolving every link in the store
   would.
   */
  function Aggregated<G>(env: Env, collab: Collaborators<G>, params: Params, user: Option<User>,
                         userMap: map<string, User>, all: seq<DataProduct>): (r: Outcome<Contribution>)
    ensures Selected(env, collab, params, user, all).Thrown? ==> r.Thrown?
    ensures Selected(env, collab, params, user, all).Ok? ==> r == Collect(env, FormatsOf(env),
      Views(Selected(env, collab, params, user, all).value, env.store), user.Some? && VersioningStatusKey in params, userMap)
  {
    match Selected(env, collab, params, user, all)
    case Thrown(e) => Thrown(e)
    case Ok(dps) =>
      var p := PreFetch(dps, env.store);
      ViewsOfSnapshot(dps, env.store);
      Collect(env, FormatsOf(env), Views(dps, p.snapshot), user.Some? && VersioningStatusKey in params, userMap)
  }

  /**
   `generate(parameters, user)`: versions, visibility and filters select the
   records, their aggregation is collected, and the response describes it;
   the first exception escapes.
   */
  method Generate<G>(env: Env, collab: Collaborators<G>, params: Params, user: Option<User>,
                     userMap: map<string, User>, all: seq<DataProduct>)
    returns (r: Outcome<SearchResponse>)
    ensures r.Ok? <==> (Aggregated(env, collab, params, user, userMap, all).Ok?
      && ResultsOf(params, Aggregated(env, collab, params, user, userMap, all).value.items).Ok?)
    ensures r.Ok? ==> Describes(params, Aggregated(env, collab, params, user, userMap, all).value, env.providers, r.value)
  {
    var collected := Aggregated(env, collab, params, user, userMap, all);
    if collected.Thrown? {
      return Thrown(collected.exception);
    }
    r := BuildResponse(params, collected.value, env.providers);
  }
}
