/**
 The filter pipeline over data products (DistributionFilterSearch): a
 pre-fetch of the linked entities, then seven stages applied in a fixed
 order, each a no-op when its parameter is absent.

 Stages the source collects into a concurrent set (full text, organisations,
 service type) return their survivors in input order here, which is one of
 the orders the source can produce; their contracts speak only of membership.
 */
module DistributionFilter {
  import opened Nullable
  import opened JavaString
  import opened Seqs
  import opened Entities
  import opened Prefetch
  import opened Query

  const ScienceDomainKey := "sciencedomains"
  const ServiceTypeKey := "servicetypes"
  const StartDateKey := "schema:startDate"
  const EndDateKey := "schema:endDate"

  // ---------------------------------------------------------------------
  // Links the stages follow, resolved in a table (the snapshot or the store)
  // ---------------------------------------------------------------------

  function Dists(dp: DataProduct, t: Tables): seq<Distribution>
  {
    Resolve(t.distributions, dp.distribution)
  }

  /** The link from a distribution to its access services. */
  function AccessLink(d: Distribution): Links
  {
    d.accessService
  }

  function AccessServices(d: Distribution, t: Tables): seq<WebService>
  {
    Resolve(t.webServices, d.accessService)
  }

  /** The web services reached from a data product through its distributions' access services. */
  function Services(dp: DataProduct, t: Tables): seq<WebService>
  {
    FlatMap(Dists(dp, t), (d: Distribution) => AccessServices(d, t))
  }

  function ProviderOf(w: WebService, t: Tables): seq<Organization>
  {
    if w.provider.Some? && w.provider.value in t.organizations then [t.organizations[w.provider.value]] else []
  }

  /** A data product's publishers, then the providers of its web services. */
  function Organisations(dp: DataProduct, t: Tables): seq<Organization>
  {
    Resolve(t.organizations, dp.publisher) + FlatMap(Services(dp, t), (w: WebService) => ProviderOf(w, t))
  }

  function ServiceLocations(dp: DataProduct, t: Tables): seq<Location>
  {
    FlatMap(Services(dp, t), (w: WebService) => Resolve(t.locations, w.spatialExtent))
  }

  function ServiceCategories(dp: DataProduct, t: Tables): seq<Category>
  {
    FlatMap(Services(dp, t), (w: WebService) => Resolve(t.categories, w.category))
  }

  /** Some of the categories carries one of the wanted names. */
  predicate NamedAmong(cats: seq<Category>, wanted: set<string>)
  {
    exists c :: c in cats && c.name.Some? && c.name.value in wanted
  }

  // ---------------------------------------------------------------------
  // Full text
  // ---------------------------------------------------------------------

  /** An identifier is searched only when both its value and its scheme are present. */
  function IdentifierFields(x: Identifier): seq<Field>
  {
    if x.value.Some? && x.kind.Some? then
      [TextOf(Lower(x.value.value)), TextOf(Lower(x.kind.value)), TextOf(Lower(x.kind.value) + Lower(x.value.value))]
    else []
  }

  /** `checkWebServiceFullText`: uid, name and description by substring, keywords exactly. */
  function ServiceFields(w: WebService): seq<Field>
  {
    TextField(w.uid) + TextField(w.name) + TextField(w.description) + KeywordField(w.keywords)
  }

  function DistributionFields(d: Distribution, t: Tables): seq<Field>
  {
    TextFields(d.title) + TextField(d.uid) + TextFields(d.description) + FlatMap(AccessServices(d, t), ServiceFields)
  }

  /** Every field the full-text stage examines for a data product, in the order it examines them. */
  function FullTextFields(dp: DataProduct, t: Tables): seq<Field>
  {
    KeywordField(dp.keywords) + TextField(dp.uid)
      + FlatMap(Resolve(t.identifiers, dp.identifier), IdentifierFields)
      + FlatMap(Dists(dp, t), (d: Distribution) => DistributionFields(d, t))
  }

  /** `filterByFullText` */
  function FullText(dps: seq<DataProduct>, params: Params, t: Tables): (r: seq<DataProduct>)
    ensures "q" !in params ==> r == dps
    ensures "q" in params ==>
      forall dp :: dp in r <==> (dp in dps && TermsFound(SearchTerms(params["q"]), FullTextFields(dp, t)))
  {
    if "q" !in params then dps
    else
      var terms := SearchTerms(params["q"]);
      forall dp: DataProduct {
        AllMarkedIff(terms, FullTextFields(dp, t));
      }
      Filter(dps, (dp: DataProduct) => AllMarked(terms, FullTextFields(dp, t)))
  }

  // ---------------------------------------------------------------------
  // Keywords
  // ---------------------------------------------------------------------

  predicate KeywordsMatch(dp: DataProduct, requested: seq<string>)
  {
    dp.keywords.Some? && Share(KeywordList(dp.keywords.value), requested)
  }

  /** `filterByKeywords` */
  function Keywords(dps: seq<DataProduct>, params: Params): (r: seq<DataProduct>)
    ensures "keywords" !in params ==> r == dps
    ensures IsSubsequence(r, dps)
    ensures "keywords" in params ==>
      forall dp :: dp in r <==> (dp in dps && dp.keywords.Some?
        && exists k :: k in KeywordList(dp.keywords.value) && k in KeywordList(params["keywords"]))
  {
    if "keywords" !in params then IsSubsequenceRefl(dps); dps
    else Filter(dps, (dp: DataProduct) => KeywordsMatch(dp, KeywordList(params["keywords"])))
  }

  // ---------------------------------------------------------------------
  // Organisations
  // ---------------------------------------------------------------------

  /** One of the wanted ids belongs to the provider group of an organisation behind the data product. */
  predicate ProvidedBy(dp: DataProduct, wanted: set<Id>, t: Tables, providers: set<Organization> -> seq<Provider>)
  {
    exists id :: id in wanted && id in ProviderIds(providers, Organisations(dp, t))
  }

  /** `filterByOrganizations` */
  function OrganisationStage(dps: seq<DataProduct>, params: Params, t: Tables, providers: set<Organization> -> seq<Provider>)
    : (r: seq<DataProduct>)
    ensures "organisations" !in params ==> r == dps
    ensures "organisations" in params ==>
      forall dp :: dp in r <==> (dp in dps
        && ProvidedBy(dp, CommaSet(params["organisations"]), t, providers))
  {
    if "organisations" !in params then dps
    else
      var wanted := CommaSet(params["organisations"]);
      Filter(dps, (dp: DataProduct) => ProvidedBy(dp, wanted, t, providers))
  }

  // ---------------------------------------------------------------------
  // Date range
  // ---------------------------------------------------------------------

  /** The requested time window; a missing bound is unconstrained. */
  datatype Bounds = Bounds(start: Option<int>, end: Option<int>)

  /** A request date as handed to the date parser: "T" becomes a space, "Z" is dropped. */
  function DateText(v: string): string
  {
    Replace(Replace(v, "T", " "), "Z", "")
  }

  /**
   `checkTemporalExtent`: the start bound is parsed first; a parse failure
   abandons the rest, so a bad start date also drops the end date, while a bad
   end date keeps the start date.
   */
  function TemporalBounds(params: Params, parseDate: string -> Option<int>): (b: Bounds)
    ensures StartDateKey !in params && EndDateKey !in params ==> b == Bounds(None, None)
    ensures b.start.Some? ==> StartDateKey in params && parseDate(DateText(params[StartDateKey])) == b.start
    ensures b.end.Some? ==> EndDateKey in params && parseDate(DateText(params[EndDateKey])) == b.end
    ensures StartDateKey in params && parseDate(DateText(params[StartDateKey])).None? ==> b == Bounds(None, None)
    ensures StartDateKey in params && parseDate(DateText(params[StartDateKey])).Some? && EndDateKey in params ==>
      b.end == parseDate(DateText(params[EndDateKey]))
  {
    var start := if StartDateKey in params then parseDate(DateText(params[StartDateKey])) else None;
    if StartDateKey in params && start.None? then Bounds(None, None)
    else
      var end := if EndDateKey in params then parseDate(DateText(params[EndDateKey])) else None;
      Bounds(start, end)
  }

  /** `isWithinDateRange`: the period does not end before the window starts nor start after it ends. */
  predicate Within(period: PeriodOfTime, b: Bounds)
  {
    && (b.start.Some? ==> period.endDate.Some? && period.endDate.value >= b.start.value)
    && (b.end.Some? ==> period.startDate.Some? && period.startDate.value <= b.end.value)
  }

  /** Some temporal extent of the data product resolves to a period within the window. */
  predicate SomePeriodWithin(dp: DataProduct, temporals: map<Id, PeriodOfTime>, b: Bounds)
  {
    exists i :: 0 <= i < |Items(dp.temporalExtent)| && Items(dp.temporalExtent)[i] in temporals
      && Within(temporals[Items(dp.temporalExtent)[i]], b)
  }

  /**
   `filterByDateRange` with unresolvable temporal extents read as periods that
   do not match. Each extent is looked up in the store itself, not in the snapshot.
   */
  function DateRange(dps: seq<DataProduct>, b: Bounds, temporals: map<Id, PeriodOfTime>): (r: seq<DataProduct>)
    ensures b.start.None? && b.end.None? ==> r == dps
    ensures IsSubsequence(r, dps)
    ensures b.start.Some? || b.end.Some? ==>
      forall dp :: dp in r <==> (dp in dps && NonEmpty(dp.temporalExtent) && SomePeriodWithin(dp, temporals, b))
  {
    if b.start.None? && b.end.None? then IsSubsequenceRefl(dps); dps
    else Filter(dps, (dp: DataProduct) => NonEmpty(dp.temporalExtent) && SomePeriodWithin(dp, temporals, b))
  }

  /**
   `stream().anyMatch(period -> isWithinDateRange(retrieve(period), temporal))`
   as written: the links are tried in order, the first period within the
   window ends the scan, and an unresolvable link reached before that makes
   `isWithinDateRange` dereference null.
   */
  function AnyPeriodWithinAsWritten(links: seq<Id>, temporals: map<Id, PeriodOfTime>, b: Bounds): (r: Outcome<bool>)
    ensures r.Ok? && r.value ==> exists i :: 0 <= i < |links| && links[i] in temporals && Within(temporals[links[i]], b)
    ensures r.Ok? && !r.value ==> forall i :: 0 <= i < |links| ==> links[i] in temporals && !Within(temporals[links[i]], b)
    ensures r.Thrown? <==> NullBeforeMatch(links, temporals, b)
  {
    if |links| == 0 then Ok(false)
    else if links[0] !in temporals then Thrown("NullPointerException")
    else if Within(temporals[links[0]], b) then Ok(true)
    else
      var rest := AnyPeriodWithinAsWritten(links[1..], temporals, b);
      NullBeforeMatchStep(links, temporals, b);
      ScanStep(links, temporals, b, rest);
      rest
  }

  /** Some link does not resolve, and every link before it resolves to a period outside the window. */
  predicate NullBeforeMatch(links: seq<Id>, temporals: map<Id, PeriodOfTime>, b: Bounds)
  {
    exists i :: 0 <= i < |links| && links[i] !in temporals
      && forall j :: 0 <= j < i ==> links[j] in temporals && !Within(temporals[links[j]], b)
  }

  lemma NullBeforeMatchStep(links: seq<Id>, temporals: map<Id, PeriodOfTime>, b: Bounds)
    requires |links| > 0 && links[0] in temporals && !Within(temporals[links[0]], b)
    ensures NullBeforeMatch(links, temporals, b) <==> NullBeforeMatch(links[1..], temporals, b)
  {
    if NullBeforeMatch(links[1..], temporals, b) {
      var k :| 0 <= k < |links[1..]| && links[1..][k] !in temporals
        && forall j :: 0 <= j < k ==> links[1..][j] in temporals && !Within(temporals[links[1..][j]], b);
      assert links[k + 1] !in temporals;
      forall j | 0 <= j < k + 1 ensures links[j] in temporals && !Within(temporals[links[j]], b) {
        if j > 0 {
          assert links[j] == links[1..][j - 1];
        }
      }
    }
    if NullBeforeMatch(links, temporals, b) {
      var i :| 0 <= i < |links| && links[i] !in temporals
        && forall j :: 0 <= j < i ==> links[j] in temporals && !Within(temporals[links[j]], b);
      assert i > 0;
      assert links[1..][i - 1] !in temporals;
      forall j | 0 <= j < i - 1 ensures links[1..][j] in temporals && !Within(temporals[links[1..][j]], b) {
        assert links[1..][j] == links[j + 1];
      }
    }
  }

  lemma ScanStep(links: seq<Id>, temporals: map<Id, PeriodOfTime>, b: Bounds, rest: Outcome<bool>)
    requires |links| > 0 && links[0] in temporals && !Within(temporals[links[0]], b)
    requires rest.Ok? && rest.value ==> exists i :: 0 <= i < |links[1..]| && links[1..][i] in temporals && Within(temporals[links[1..][i]], b)
    requires rest.Ok? && !rest.value ==> forall i :: 0 <= i < |links[1..]| ==> links[1..][i] in temporals && !Within(temporals[links[1..][i]], b)
    ensures rest.Ok? && rest.value ==> exists i :: 0 <= i < |links| && links[i] in temporals && Within(temporals[links[i]], b)
    ensures rest.Ok? && !rest.value ==> forall i :: 0 <= i < |links| ==> links[i] in temporals && !Within(temporals[links[i]], b)
  {
    if rest.Ok? && rest.value {
      var k :| 0 <= k < |links[1..]| && links[1..][k] in temporals && Within(temporals[links[1..][k]], b);
      assert links[k + 1] == links[1..][k];
    }
    if rest.Ok? && !rest.value {
      forall i | 0 <= i < |links| ensures links[i] in temporals && !Within(temporals[links[i]], b) {
        if i > 0 {
          assert links[i] == links[1..][i - 1];
        }
      }
    }
  }

  /** The scan of one data product's temporal extents dereferences null. */
  predicate ScanThrows(dp: DataProduct, temporals: map<Id, PeriodOfTime>, b: Bounds)
  {
    NonEmpty(dp.temporalExtent) && AnyPeriodWithinAsWritten(Items(dp.temporalExtent), temporals, b).Thrown?
  }

  /** `filterByDateRange` as written: the stage fails as soon as one data product's scan dereferences null. */
  function DateRangeAsWritten(dps: seq<DataProduct>, b: Bounds, temporals: map<Id, PeriodOfTime>): (r: Outcome<seq<DataProduct>>)
    ensures b.start.None? && b.end.None? ==> r == Ok(dps)
    ensures r.Thrown? <==> (b.start.Some? || b.end.Some?) && exists i :: 0 <= i < |dps| && ScanThrows(dps[i], temporals, b)
    ensures r.Ok? ==> r.value == DateRange(dps, b, temporals)
    decreases |dps|
  {
    if b.start.None? && b.end.None? then Ok(dps)
    else if |dps| == 0 then Ok([])
    else
      var dp := dps[0];
      var head: Outcome<bool> :=
        if NonEmpty(dp.temporalExtent) then AnyPeriodWithinAsWritten(Items(dp.temporalExtent), temporals, b) else Ok(false);
      var rest := DateRangeAsWritten(dps[1..], b, temporals);
      ScanThrowsStep(dps, temporals, b);
      if head.Thrown? then Thrown(head.exception)
      else if rest.Thrown? then rest
      else
        assert head.value == (NonEmpty(dp.temporalExtent) && SomePeriodWithin(dp, temporals, b)) by {
          if NonEmpty(dp.temporalExtent) {
            var links := Items(dp.temporalExtent);
            if head.value {
              var i :| 0 <= i < |links| && links[i] in temporals && Within(temporals[links[i]], b);
            }
          }
        }
        Ok(if head.value then [dp] + rest.value else rest.value)
  }

  lemma ScanThrowsStep(dps: seq<DataProduct>, temporals: map<Id, PeriodOfTime>, b: Bounds)
    requires |dps| > 0
    ensures (exists i :: 0 <= i < |dps| && ScanThrows(dps[i], temporals, b))
      <==> ScanThrows(dps[0], temporals, b) || exists i :: 0 <= i < |dps[1..]| && ScanThrows(dps[1..][i], temporals, b)
  {
    if exists i :: 0 <= i < |dps| && ScanThrows(dps[i], temporals, b) {
      var i :| 0 <= i < |dps| && ScanThrows(dps[i], temporals, b);
      if i > 0 {
        assert dps[1..][i - 1] == dps[i];
      }
    }
    if exists i :: 0 <= i < |dps[1..]| && ScanThrows(dps[1..][i], temporals, b) {
      var i :| 0 <= i < |dps[1..]| && ScanThrows(dps[1..][i], temporals, b);
      assert dps[i + 1] == dps[1..][i];
    }
  }

  /**
   A data product whose only temporal extent does not resolve, searched with
   a start date: as written the stage fails with a null dereference; the
   corrected stage drops the data product.
   */
  lemma DateRangeUnresolvedPeriod()
    ensures var dp := DataProduct("dp", "m", None, None, None, None, None, None, None, Some(["p"]), None, Some("PUBLISHED"), Some("e"));
      && DateRangeAsWritten([dp], Bounds(Some(0), None), map[]) == Thrown("NullPointerException")
      && DateRange([dp], Bounds(Some(0), None), map[]) == []
  {
    var dp := DataProduct("dp", "m", None, None, None, None, None, None, None, Some(["p"]), None, Some("PUBLISHED"), Some("e"));
    assert !SomePeriodWithin(dp, map[], Bounds(Some(0), None));
  }

  // ---------------------------------------------------------------------
  // Bounding box
  // ---------------------------------------------------------------------

  /** Some location of the data product's web services, or of the data product itself, hits the box. */
  predicate BoxMatch<G>(env: Collaborators<G>, box: G, dp: DataProduct, t: Tables)
  {
    (exists loc :: loc in ServiceLocations(dp, t) && Hits(env, box, loc))
    || (exists loc :: loc in Resolve(t.locations, dp.spatialExtent) && Hits(env, box, loc))
  }

  /** The meta ids of the data products that hit the box. */
  function MatchedMetaIds<G>(env: Collaborators<G>, box: G, dps: seq<DataProduct>, t: Tables): set<Id>
  {
    set dp | dp in dps && BoxMatch(env, box, dp, t) :: dp.metaId
  }

  /**
   `filterByBoundingBox`: a data product is kept when any data product of the
   list sharing its meta id (any version of it) hits the box, in input order.
   */
  function BoundingBox<G>(dps: seq<DataProduct>, params: Params, t: Tables, env: Collaborators<G>): (r: seq<DataProduct>)
    ensures !HasBoundingBox(params) || env.bbox(params).None? ==> r == dps
    ensures IsSubsequence(r, dps)
    ensures HasBoundingBox(params) && env.bbox(params).Some? ==>
      forall dp :: dp in r <==> (dp in dps
        && exists other :: other in dps && other.metaId == dp.metaId && BoxMatch(env, env.bbox(params).value, other, t))
  {
    if !HasBoundingBox(params) || env.bbox(params).None? then IsSubsequenceRefl(dps); dps
    else
      var matched := MatchedMetaIds(env, env.bbox(params).value, dps, t);
      Filter(dps, (dp: DataProduct) => dp.metaId in matched)
  }

  // ---------------------------------------------------------------------
  // Science domain and service type
  // ---------------------------------------------------------------------

  /** `filterByScienceDomain`: category names are compared exactly, without trimming or case folding. */
  function ScienceDomain(dps: seq<DataProduct>, params: Params, t: Tables): (r: seq<DataProduct>)
    ensures ScienceDomainKey !in params ==> r == dps
    ensures IsSubsequence(r, dps)
    ensures ScienceDomainKey in params ==>
      forall dp :: dp in r <==> (dp in dps && NonEmpty(dp.category)
        && NamedAmong(Resolve(t.categories, dp.category), CommaSet(params[ScienceDomainKey])))
  {
    if ScienceDomainKey !in params then IsSubsequenceRefl(dps); dps
    else
      var wanted := CommaSet(params[ScienceDomainKey]);
      Filter(dps, (dp: DataProduct) => NonEmpty(dp.category) && NamedAmong(Resolve(t.categories, dp.category), wanted))
  }

  /** `filterByServiceType`: a category name of a web service behind one of the data product's distributions is requested. */
  function ServiceType(dps: seq<DataProduct>, params: Params, t: Tables): (r: seq<DataProduct>)
    ensures ServiceTypeKey !in params ==> r == dps
    ensures ServiceTypeKey in params ==>
      forall dp :: dp in r <==> (dp in dps
        && NamedAmong(ServiceCategories(dp, t), CommaSet(params[ServiceTypeKey])))
  {
    if ServiceTypeKey !in params then dps
    else
      var wanted := CommaSet(params[ServiceTypeKey]);
      Filter(dps, (dp: DataProduct) => NamedAmong(ServiceCategories(dp, t), wanted))
  }

  /** The keyword and science-domain stages may be applied in either order. */
  lemma KeywordsScienceDomainCommute(dps: seq<DataProduct>, params: Params, t: Tables)
    ensures ScienceDomain(Keywords(dps, params), params, t) == Keywords(ScienceDomain(dps, params, t), params)
  {
    if "keywords" in params && ScienceDomainKey in params {
      var wanted := CommaSet(params[ScienceDomainKey]);
      FilterCommutes(dps, (dp: DataProduct) => KeywordsMatch(dp, KeywordList(params["keywords"])),
        (dp: DataProduct) => NonEmpty(dp.category) && NamedAmong(Resolve(t.categories, dp.category), wanted));
    }
  }

  // ---------------------------------------------------------------------
  // Pre-fetch
  // ---------------------------------------------------------------------

  function DistributionIds(dps: seq<DataProduct>): set<Id> { LinkIds(dps, (dp: DataProduct) => dp.distribution) }
  function CategoryIds(dps: seq<DataProduct>): set<Id> { LinkIds(dps, (dp: DataProduct) => dp.category) }
  function IdentifierIds(dps: seq<DataProduct>): set<Id> { LinkIds(dps, (dp: DataProduct) => dp.identifier) }
  function PublisherIds(dps: seq<DataProduct>): set<Id> { LinkIds(dps, (dp: DataProduct) => dp.publisher) }
  function OwnLocationIds(dps: seq<DataProduct>): set<Id> { LinkIds(dps, (dp: DataProduct) => dp.spatialExtent) }

  /** The providers of some fetched web services. */
  function ProviderIdsOf(ws: map<Id, WebService>): (r: set<Id>)
    ensures forall k :: k in ws && ws[k].provider.Some? ==> ws[k].provider.value in r
  {
    set k | k in ws && ws[k].provider.Some? :: ws[k].provider.value
  }

  /** The snapshot the stages work from, and the calls to the store that built it, by round. */
  datatype Prefetched = Prefetched(snapshot: Tables, first: seq<Request>, second: seq<Request>)

  /**
   `preFetchLinkedEntities`: one round for the distributions, categories,
   identifiers and publishers the data products link to, then the web
   services behind the distributions found, then the locations of those
   services and of the data products; a second round fetches the providers
   and service categories the first round did not already hold. A round
   with nothing to ask for makes no call (the source's `isEmpty` guards and
   `fetchEntityBatch`'s own guard).
   */
  function PreFetch(dps: seq<DataProduct>, store: Tables): (p: Prefetched)
    ensures |p.first| <= 6 && |p.second| <= 2
    ensures NoEmptyRequest(p.first + p.second)
    ensures DistinctKinds(p.first) && DistinctKinds(p.second)
    ensures forall i, j :: 0 <= i < |p.first| && 0 <= j < |p.second| && p.first[i].kind == p.second[j].kind ==>
      p.first[i].ids * p.second[j].ids * Stored(store, p.first[i].kind) == {}
    ensures SubTables(p.snapshot, store)
  {
    var calls := Calls(dps, store);
    FetchedShape(dps, store);
    SnapshotStored(dps, store);
    Prefetched(Fetched(dps, store), calls.0, calls.1)
  }

  /** The services the first round finds behind the distributions it found. */
  function FirstServices(dps: seq<DataProduct>, store: Tables): map<Id, WebService>
  {
    var dists := FetchEntityBatch(DistributionKind, store.distributions, DistributionIds(dps));
    FetchEntityBatch(WebServiceKind, store.webServices, ValueLinkIds(dists.found, AccessLink)).found
  }

  /** The providers the second round asks for: those the first round did not already hold. */
  function MoreOrganisationIds(dps: seq<DataProduct>, store: Tables): (r: set<Id>)
    ensures r * (PublisherIds(dps) * store.organizations.Keys) == {}
  {
    var orgs := FetchEntityBatch(OrganizationKind, store.organizations, PublisherIds(dps));
    (PublisherIds(dps) + ProviderIdsOf(FirstServices(dps, store))) - orgs.found.Keys
  }

  /** The service categories the second round asks for: those the first round did not already hold. */
  function MoreCategoryIds(dps: seq<DataProduct>, store: Tables): (r: set<Id>)
    ensures r * (CategoryIds(dps) * store.categories.Keys) == {}
  {
    var cats := FetchEntityBatch(CategoryKind, store.categories, CategoryIds(dps));
    (CategoryIds(dps) + ValueLinkIds(FirstServices(dps, store), (w: WebService) => w.category)) - cats.found.Keys
  }

  /** What the two rounds found, merged into one snapshot. */
  function Fetched(dps: seq<DataProduct>, store: Tables): Tables
  {
    var services := FirstServices(dps, store);
    NoTables.(
      distributions := FetchEntityBatch(DistributionKind, store.distributions, DistributionIds(dps)).found,
      categories := PutAll(FetchEntityBatch(CategoryKind, store.categories, CategoryIds(dps)).found,
        FetchEntityBatch(CategoryKind, store.categories, MoreCategoryIds(dps, store)).found),
      identifiers := FetchEntityBatch(IdentifierKind, store.identifiers, IdentifierIds(dps)).found,
      organizations := PutAll(FetchEntityBatch(OrganizationKind, store.organizations, PublisherIds(dps)).found,
        FetchEntityBatch(OrganizationKind, store.organizations, MoreOrganisationIds(dps, store)).found),
      webServices := services,
      locations := FetchEntityBatch(LocationKind, store.locations,
        ValueLinkIds(services, (w: WebService) => w.spatialExtent) + OwnLocationIds(dps)).found)
  }

  /** The calls to the store of the two rounds. */
  function Calls(dps: seq<DataProduct>, store: Tables): (r: (seq<Request>, seq<Request>))
    ensures |r.0| <= 6 && |r.1| <= 2
    ensures NoEmptyRequest(r.0 + r.1)
    ensures DistinctKinds(r.0) && DistinctKinds(r.1)
    ensures forall i, j :: 0 <= i < |r.0| && 0 <= j < |r.1| && r.0[i].kind == r.1[j].kind ==>
      r.0[i].ids * r.1[j].ids * Stored(store, r.0[i].kind) == {}
  {
    var dists := FetchEntityBatch(DistributionKind, store.distributions, DistributionIds(dps));
    var cats := FetchEntityBatch(CategoryKind, store.categories, CategoryIds(dps));
    var idents := FetchEntityBatch(IdentifierKind, store.identifiers, IdentifierIds(dps));
    var orgs := FetchEntityBatch(OrganizationKind, store.organizations, PublisherIds(dps));
    var services := FetchEntityBatch(WebServiceKind, store.webServices, ValueLinkIds(dists.found, AccessLink));
    var locs := FetchEntityBatch(LocationKind, store.locations,
      ValueLinkIds(services.found, (w: WebService) => w.spatialExtent) + OwnLocationIds(dps));
    var moreOrgs := FetchEntityBatch(OrganizationKind, store.organizations, MoreOrganisationIds(dps, store));
    var moreCats := FetchEntityBatch(CategoryKind, store.categories, MoreCategoryIds(dps, store));
    TraceShape(dists.requests, cats.requests, idents.requests, orgs.requests, services.requests, locs.requests,
      moreOrgs.requests, moreCats.requests, store, PublisherIds(dps), CategoryIds(dps));
    (dists.requests + cats.requests + idents.requests + orgs.requests + services.requests + locs.requests,
     moreOrgs.requests + moreCats.requests)
  }

  /** The request trace of a pre-fetch, from the shape of each of its eight batch fetches. */
  lemma TraceShape(d: seq<Request>, c: seq<Request>, i: seq<Request>, o: seq<Request>, w: seq<Request>, l: seq<Request>,
                   o2: seq<Request>, c2: seq<Request>, store: Tables, publishers: set<Id>, categories: set<Id>)
    requires OneCall(d, DistributionKind) && OneCall(c, CategoryKind) && OneCall(i, IdentifierKind)
    requires OneCall(o, OrganizationKind) && OneCall(w, WebServiceKind) && OneCall(l, LocationKind)
    requires OneCall(o2, OrganizationKind) && OneCall(c2, CategoryKind)
    requires forall r :: r in o ==> r.ids == publishers
    requires forall r :: r in c ==> r.ids == categories
    requires forall r :: r in o2 ==> r.ids * (publishers * store.organizations.Keys) == {}
    requires forall r :: r in c2 ==> r.ids * (categories * store.categories.Keys) == {}
    ensures |d + c + i + o + w + l| <= 6 && |o2 + c2| <= 2
    ensures NoEmptyRequest(d + c + i + o + w + l + (o2 + c2))
    ensures DistinctKinds(d + c + i + o + w + l) && DistinctKinds(o2 + c2)
    ensures forall x, y | 0 <= x < |d + c + i + o + w + l| && 0 <= y < |o2 + c2|
      && (d + c + i + o + w + l)[x].kind == (o2 + c2)[y].kind ::
      (d + c + i + o + w + l)[x].ids * (o2 + c2)[y].ids * Stored(store, (d + c + i + o + w + l)[x].kind) == {}
  {
    var first: seq<Request> := d + c + i + o + w + l;
    var second: seq<Request> := o2 + c2;
    FirstRoundDistinct(d, c, i, o, w, l);
    OneCallKinds(o2, OrganizationKind);
    OneCallKinds(c2, CategoryKind);
    DistinctKindsAppend(o2, c2);
    forall x: int | 0 <= x < |first + second| ensures (first + second)[x].ids != {} {
      assert (first + second)[x] in first + second;
    }
    forall x: int, y: int | 0 <= x < |first| && 0 <= y < |second| && first[x].kind == second[y].kind
      ensures first[x].ids * second[y].ids * Stored(store, first[x].kind) == {}
    {
      var r, r2 := first[x], second[y];
      assert r in first && r2 in second;
      if r2 in o2 {
        assert r in o;
      } else {
        assert r in c;
      }
    }
  }

  /** The first round's six batches: at most one call each, for its own entity type. */
  predicate FirstCalls(d: seq<Request>, c: seq<Request>, i: seq<Request>, o: seq<Request>, w: seq<Request>, l: seq<Request>)
  {
    && OneCall(d, DistributionKind) && OneCall(c, CategoryKind) && OneCall(i, IdentifierKind)
    && OneCall(o, OrganizationKind) && OneCall(w, WebServiceKind) && OneCall(l, LocationKind)
  }

  lemma FirstRoundDistinct(d: seq<Request>, c: seq<Request>, i: seq<Request>, o: seq<Request>, w: seq<Request>, l: seq<Request>)
    requires FirstCalls(d, c, i, o, w, l)
    ensures DistinctKinds(d + c + i + o + w + l)
  {
    ThreeCalls(d, c, i, DistributionKind, CategoryKind, IdentifierKind);
    ThreeCalls(o, w, l, OrganizationKind, WebServiceKind, LocationKind);
    DistinctKindsAppend(d + c + i, o + w + l);
    assert d + c + i + (o + w + l) == d + c + i + o + w + l;
  }

  /** Three single calls for three different entity types ask for each type once. */
  lemma ThreeCalls(a: seq<Request>, b: seq<Request>, c: seq<Request>, ka: Kind, kb: Kind, kc: Kind)
    requires OneCall(a, ka) && OneCall(b, kb) && OneCall(c, kc)
    requires ka != kb && kb != kc && ka != kc
    ensures DistinctKinds(a + b + c) && Kinds(a + b + c) <= {ka, kb, kc}
  {
    OneCallKinds(a, ka); OneCallKinds(b, kb); OneCallKinds(c, kc);
    DistinctKindsAppend(a, b);
    DistinctKindsAppend(a + b, c);
  }

  // ---------------------------------------------------------------------
  // The snapshot is transparent to the stages
  // ---------------------------------------------------------------------

  /** The access services of the distributions the first round found. */
  function ServiceIds(dps: seq<DataProduct>, store: Tables): set<Id>
  {
    ValueLinkIds(Restrict(store.distributions, DistributionIds(dps)), AccessLink)
  }

  function FetchedServices(dps: seq<DataProduct>, store: Tables): map<Id, WebService>
  {
    Restrict(store.webServices, ServiceIds(dps, store))
  }

  function LocationIds(dps: seq<DataProduct>, store: Tables): set<Id>
  {
    ValueLinkIds(FetchedServices(dps, store), (w: WebService) => w.spatialExtent) + OwnLocationIds(dps)
  }

  function OrganisationIds(dps: seq<DataProduct>, store: Tables): set<Id>
  {
    PublisherIds(dps) + ProviderIdsOf(FetchedServices(dps, store))
  }

  function AllCategoryIds(dps: seq<DataProduct>, store: Tables): set<Id>
  {
    CategoryIds(dps) + ValueLinkIds(FetchedServices(dps, store), (w: WebService) => w.category)
  }

  /** The snapshot as one restriction of the store per entity type, to the ids collected for it. */
  function Snapshot(dps: seq<DataProduct>, store: Tables): Tables
  {
    NoTables.(
      distributions := Restrict(store.distributions, DistributionIds(dps)),
      identifiers := Restrict(store.identifiers, IdentifierIds(dps)),
      webServices := FetchedServices(dps, store),
      locations := Restrict(store.locations, LocationIds(dps, store)),
      organizations := Restrict(store.organizations, OrganisationIds(dps, store)),
      categories := Restrict(store.categories, AllCategoryIds(dps, store)))
  }

  /** The two rounds of the pre-fetch together hold exactly the store's entities among the collected ids. */
  lemma SnapshotShape(dps: seq<DataProduct>, store: Tables)
    ensures PreFetch(dps, store).snapshot == Snapshot(dps, store)
  {
    FetchedShape(dps, store);
  }

  lemma FetchedShape(dps: seq<DataProduct>, store: Tables)
    ensures Fetched(dps, store) == Snapshot(dps, store)
  {
    SecondRound(store.organizations, PublisherIds(dps), OrganisationIds(dps, store));
    SecondRound(store.categories, CategoryIds(dps), AllCategoryIds(dps, store));
  }

  /** The snapshot holds only what the store holds, under the same ids. */
  lemma SnapshotStored(dps: seq<DataProduct>, store: Tables)
    ensures SubTables(Snapshot(dps, store), store)
  {
  }

  /**
   Every link the stages follow from a data product resolves in the snapshot
   `s` exactly as it does in the store `t`.
   */
  ghost predicate Transparent(dp: DataProduct, s: Tables, t: Tables)
  {
    && AgreeOn(s.distributions, t.distributions, dp.distribution)
    && AgreeOn(s.identifiers, t.identifiers, dp.identifier)
    && AgreeOn(s.organizations, t.organizations, dp.publisher)
    && AgreeOn(s.locations, t.locations, dp.spatialExtent)
    && AgreeOn(s.categories, t.categories, dp.category)
    && (forall d :: d in Dists(dp, t) ==> AgreeOn(s.webServices, t.webServices, d.accessService))
    && (forall w :: w in Services(dp, t) ==> ServiceTransparent(w, s, t))
  }

  ghost predicate ServiceTransparent(w: WebService, s: Tables, t: Tables)
  {
    && AgreeOn(s.locations, t.locations, w.spatialExtent)
    && AgreeOn(s.categories, t.categories, w.category)
    && ProviderOf(w, s) == ProviderOf(w, t)
  }

  /** A distribution reached from a listed data product is among those the first round fetched. */
  lemma FetchedDistribution(dps: seq<DataProduct>, store: Tables, dp: DataProduct, d: Distribution) returns (k: Id)
    requires dp in dps && d in Dists(dp, store)
    ensures k in DistributionIds(dps) && k in store.distributions && store.distributions[k] == d
  {
    var i :| 0 <= i < |Items(dp.distribution)| && Items(dp.distribution)[i] in store.distributions
      && store.distributions[Items(dp.distribution)[i]] == d;
    InLinkIds(dps, (dp: DataProduct) => dp.distribution, dp, dp.distribution);
    k := Items(dp.distribution)[i];
  }

  /** A web service reached from a listed data product is among those the pre-fetch fetched. */
  lemma FetchedService(dps: seq<DataProduct>, store: Tables, dp: DataProduct, w: WebService) returns (k: Id)
    requires dp in dps && w in Services(dp, store)
    ensures k in ServiceIds(dps, store) && k in store.webServices && store.webServices[k] == w
  {
    var d := ServiceDistribution(dp, store, w);
    var kd := FetchedDistribution(dps, store, dp, d);
    k := AccessServiceFetched(dps, store, kd, d, w);
  }

  /** The distribution through which a data product reaches one of its web services. */
  lemma ServiceDistribution(dp: DataProduct, store: Tables, w: WebService) returns (d: Distribution)
    requires w in Services(dp, store)
    ensures d in Dists(dp, store) && w in AccessServices(d, store)
  {
    var ds := Dists(dp, store);
    var i :| 0 <= i < |ds| && w in AccessServices(ds[i], store);
    d := ds[i];
  }

  /** An access service of a fetched distribution is among the fetched web services. */
  lemma AccessServiceFetched(dps: seq<DataProduct>, store: Tables, kd: Id, d: Distribution, w: WebService) returns (k: Id)
    requires kd in DistributionIds(dps) && kd in store.distributions && store.distributions[kd] == d
    requires w in AccessServices(d, store)
    ensures k in ServiceIds(dps, store) && k in store.webServices && store.webServices[k] == w
  {
    var m := Restrict(store.distributions, DistributionIds(dps));
    var j :| 0 <= j < |Items(d.accessService)| && Items(d.accessService)[j] in store.webServices
      && store.webServices[Items(d.accessService)[j]] == w;
    InValueLinkIds(m, AccessLink, kd, d.accessService);
    k := Items(d.accessService)[j];
  }

  /** `preFetchLinkedEntities` fetches every entity the stages will look up for the listed data products. */
  lemma PreFetchTransparent(dps: seq<DataProduct>, store: Tables)
    ensures forall dp :: dp in dps ==> Transparent(dp, PreFetch(dps, store).snapshot, store)
  {
    SnapshotShape(dps, store);
    forall dp | dp in dps ensures Transparent(dp, Snapshot(dps, store), store) {
      RecordTransparent(dps, store, dp);
    }
  }

  lemma RecordTransparent(dps: seq<DataProduct>, store: Tables, dp: DataProduct)
    requires dp in dps
    ensures Transparent(dp, Snapshot(dps, store), store)
  {
    var s := Snapshot(dps, store);
    InLinkIds(dps, (dp: DataProduct) => dp.distribution, dp, dp.distribution);
    InLinkIds(dps, (dp: DataProduct) => dp.identifier, dp, dp.identifier);
    InLinkIds(dps, (dp: DataProduct) => dp.publisher, dp, dp.publisher);
    InLinkIds(dps, (dp: DataProduct) => dp.spatialExtent, dp, dp.spatialExtent);
    InLinkIds(dps, (dp: DataProduct) => dp.category, dp, dp.category);
    RestrictAgrees(store.distributions, DistributionIds(dps), dp.distribution);
    RestrictAgrees(store.identifiers, IdentifierIds(dps), dp.identifier);
    RestrictAgrees(store.organizations, OrganisationIds(dps, store), dp.publisher);
    RestrictAgrees(store.locations, LocationIds(dps, store), dp.spatialExtent);
    RestrictAgrees(store.categories, AllCategoryIds(dps, store), dp.category);
    forall d | d in Dists(dp, store) ensures AgreeOn(s.webServices, store.webServices, d.accessService) {
      var k := FetchedDistribution(dps, store, dp, d);
      var m := Restrict(store.distributions, DistributionIds(dps));
      InValueLinkIds(m, AccessLink, k, d.accessService);
      RestrictAgrees(store.webServices, ServiceIds(dps, store), d.accessService);
    }
    forall w | w in Services(dp, store) ensures ServiceTransparent(w, s, store) {
      var k := FetchedService(dps, store, dp, w);
      FetchedServiceTransparent(dps, store, w, k);
    }
  }

  lemma FetchedServiceTransparent(dps: seq<DataProduct>, store: Tables, w: WebService, k: Id)
    requires k in ServiceIds(dps, store) && k in store.webServices && store.webServices[k] == w
    ensures ServiceTransparent(w, Snapshot(dps, store), store)
  {
    var ws := FetchedServices(dps, store);
    assert k in ws && ws[k] == w;
    ServiceLocationsFetched(dps, store, w, k);
    ServiceCategoriesFetched(dps, store, w, k);
    ServiceProviderFetched(dps, store, w, k);
  }

  lemma ServiceLocationsFetched(dps: seq<DataProduct>, store: Tables, w: WebService, k: Id)
    requires k in FetchedServices(dps, store) && FetchedServices(dps, store)[k] == w
    ensures AgreeOn(Snapshot(dps, store).locations, store.locations, w.spatialExtent)
  {
    InValueLinkIds(FetchedServices(dps, store), (w: WebService) => w.spatialExtent, k, w.spatialExtent);
    RestrictAgrees(store.locations, LocationIds(dps, store), w.spatialExtent);
  }

  lemma ServiceCategoriesFetched(dps: seq<DataProduct>, store: Tables, w: WebService, k: Id)
    requires k in FetchedServices(dps, store) && FetchedServices(dps, store)[k] == w
    ensures AgreeOn(Snapshot(dps, store).categories, store.categories, w.category)
  {
    InValueLinkIds(FetchedServices(dps, store), (w: WebService) => w.category, k, w.category);
    RestrictAgrees(store.categories, AllCategoryIds(dps, store), w.category);
  }

  lemma ServiceProviderFetched(dps: seq<DataProduct>, store: Tables, w: WebService, k: Id)
    requires k in FetchedServices(dps, store) && FetchedServices(dps, store)[k] == w
    ensures ProviderOf(w, Snapshot(dps, store)) == ProviderOf(w, store)
  {
    if w.provider.Some? {
      var ws := FetchedServices(dps, store);
      var orgs := Snapshot(dps, store).organizations;
      assert orgs == Restrict(store.organizations, OrganisationIds(dps, store));
      var id := w.provider.value;
      assert ws[k].provider.Some? && ws[k].provider.value == id;
      assert id in ProviderIdsOf(ws);
      assert id in OrganisationIds(dps, store);
      assert id in orgs <==> id in store.organizations;
    }
  }

  /** What a transparent data product looks like through the snapshot and through the store: the same. */
  lemma ViewsAgree(dp: DataProduct, s: Tables, t: Tables)
    requires Transparent(dp, s, t)
    ensures Dists(dp, s) == Dists(dp, t)
    ensures Services(dp, s) == Services(dp, t)
    ensures Organisations(dp, s) == Organisations(dp, t)
    ensures ServiceLocations(dp, s) == ServiceLocations(dp, t)
    ensures ServiceCategories(dp, s) == ServiceCategories(dp, t)
    ensures Resolve(s.locations, dp.spatialExtent) == Resolve(t.locations, dp.spatialExtent)
    ensures Resolve(s.categories, dp.category) == Resolve(t.categories, dp.category)
    ensures FullTextFields(dp, s) == FullTextFields(dp, t)
  {
    ResolveAgree(s.distributions, t.distributions, dp.distribution);
    ResolveAgree(s.identifiers, t.identifiers, dp.identifier);
    ResolveAgree(s.organizations, t.organizations, dp.publisher);
    ResolveAgree(s.locations, t.locations, dp.spatialExtent);
    ResolveAgree(s.categories, t.categories, dp.category);
    var ds := Dists(dp, t);
    forall i | 0 <= i < |ds| ensures AccessServices(ds[i], s) == AccessServices(ds[i], t) {
      ResolveAgree(s.webServices, t.webServices, ds[i].accessService);
    }
    FlatMapCongruent(ds, (d: Distribution) => AccessServices(d, s), (d: Distribution) => AccessServices(d, t));
    forall i | 0 <= i < |ds| ensures DistributionFields(ds[i], s) == DistributionFields(ds[i], t) {
      ResolveAgree(s.webServices, t.webServices, ds[i].accessService);
    }
    FlatMapCongruent(ds, (d: Distribution) => DistributionFields(d, s), (d: Distribution) => DistributionFields(d, t));
    var ws := Services(dp, t);
    forall i | 0 <= i < |ws|
      ensures ProviderOf(ws[i], s) == ProviderOf(ws[i], t)
      ensures Resolve(s.locations, ws[i].spatialExtent) == Resolve(t.locations, ws[i].spatialExtent)
      ensures Resolve(s.categories, ws[i].category) == Resolve(t.categories, ws[i].category)
    {
      assert ws[i] in ws;
      ResolveAgree(s.locations, t.locations, ws[i].spatialExtent);
      ResolveAgree(s.categories, t.categories, ws[i].category);
    }
    FlatMapCongruent(ws, (w: WebService) => ProviderOf(w, s), (w: WebService) => ProviderOf(w, t));
    FlatMapCongruent(ws, (w: WebService) => Resolve(s.locations, w.spatialExtent), (w: WebService) => Resolve(t.locations, w.spatialExtent));
    FlatMapCongruent(ws, (w: WebService) => Resolve(s.categories, w.category), (w: WebService) => Resolve(t.categories, w.category));
  }

  /** Every data product of the list is transparent. */
  ghost predicate AllTransparent(dps: seq<DataProduct>, s: Tables, t: Tables)
  {
    forall dp :: dp in dps ==> Transparent(dp, s, t)
  }

  lemma FullTextTransparent(dps: seq<DataProduct>, params: Params, s: Tables, t: Tables)
    requires AllTransparent(dps, s, t)
    ensures FullText(dps, params, s) == FullText(dps, params, t)
  {
    if "q" in params {
      var terms := SearchTerms(params["q"]);
      forall i | 0 <= i < |dps| ensures AllMarked(terms, FullTextFields(dps[i], s)) == AllMarked(terms, FullTextFields(dps[i], t)) {
        ViewsAgree(dps[i], s, t);
      }
      FilterCongruent(dps, (dp: DataProduct) => AllMarked(terms, FullTextFields(dp, s)),
        (dp: DataProduct) => AllMarked(terms, FullTextFields(dp, t)));
    }
  }

  lemma OrganisationStageTransparent(dps: seq<DataProduct>, params: Params, s: Tables, t: Tables,
                                     providers: set<Organization> -> seq<Provider>)
    requires AllTransparent(dps, s, t)
    ensures OrganisationStage(dps, params, s, providers) == OrganisationStage(dps, params, t, providers)
  {
    if "organisations" in params {
      var wanted := CommaSet(params["organisations"]);
      forall i | 0 <= i < |dps| ensures ProvidedBy(dps[i], wanted, s, providers) == ProvidedBy(dps[i], wanted, t, providers) {
        ViewsAgree(dps[i], s, t);
      }
      FilterCongruent(dps, (dp: DataProduct) => ProvidedBy(dp, wanted, s, providers),
        (dp: DataProduct) => ProvidedBy(dp, wanted, t, providers));
    }
  }

  lemma BoundingBoxTransparent<G>(dps: seq<DataProduct>, params: Params, s: Tables, t: Tables, env: Collaborators<G>)
    requires AllTransparent(dps, s, t)
    ensures BoundingBox(dps, params, s, env) == BoundingBox(dps, params, t, env)
  {
    if HasBoundingBox(params) && env.bbox(params).Some? {
      var box := env.bbox(params).value;
      forall dp | dp in dps ensures BoxMatch(env, box, dp, s) == BoxMatch(env, box, dp, t) {
        ViewsAgree(dp, s, t);
      }
      assert MatchedMetaIds(env, box, dps, s) == MatchedMetaIds(env, box, dps, t);
    }
  }

  lemma ScienceDomainTransparent(dps: seq<DataProduct>, params: Params, s: Tables, t: Tables)
    requires AllTransparent(dps, s, t)
    ensures ScienceDomain(dps, params, s) == ScienceDomain(dps, params, t)
  {
    if ScienceDomainKey in params {
      var wanted := CommaSet(params[ScienceDomainKey]);
      forall i | 0 <= i < |dps| ensures Resolve(s.categories, dps[i].category) == Resolve(t.categories, dps[i].category) {
        ViewsAgree(dps[i], s, t);
      }
      FilterCongruent(dps, (dp: DataProduct) => NonEmpty(dp.category) && NamedAmong(Resolve(s.categories, dp.category), wanted),
        (dp: DataProduct) => NonEmpty(dp.category) && NamedAmong(Resolve(t.categories, dp.category), wanted));
    }
  }

  lemma ServiceTypeTransparent(dps: seq<DataProduct>, params: Params, s: Tables, t: Tables)
    requires AllTransparent(dps, s, t)
    ensures ServiceType(dps, params, s) == ServiceType(dps, params, t)
  {
    if ServiceTypeKey in params {
      var wanted := CommaSet(params[ServiceTypeKey]);
      forall i | 0 <= i < |dps| ensures ServiceCategories(dps[i], s) == ServiceCategories(dps[i], t) {
        ViewsAgree(dps[i], s, t);
      }
      FilterCongruent(dps, (dp: DataProduct) => NamedAmong(ServiceCategories(dp, s), wanted),
        (dp: DataProduct) => NamedAmong(ServiceCategories(dp, t), wanted));
    }
  }

  // ---------------------------------------------------------------------
  // The pipeline
  // ---------------------------------------------------------------------

  /** The full-text, keyword and organisation conditions a data product must meet, links resolved in `t`. */
  predicate PassesText(dp: DataProduct, params: Params, t: Tables, providers: set<Organization> -> seq<Provider>)
  {
    && ("q" in params ==> TermsFound(SearchTerms(params["q"]), FullTextFields(dp, t)))
    && ("keywords" in params ==> KeywordsMatch(dp, KeywordList(params["keywords"])))
    && ("organisations" in params ==> ProvidedBy(dp, CommaSet(params["organisations"]), t, providers))
  }

  /** The date condition: with a window, some temporal extent resolves to a period within it. */
  predicate PassesDates(dp: DataProduct, b: Bounds, temporals: map<Id, PeriodOfTime>)
  {
    b.start.Some? || b.end.Some? ==> NonEmpty(dp.temporalExtent) && SomePeriodWithin(dp, temporals, b)
  }

  /** The conditions of the four stages before the bounding box. */
  predicate PassesEarly<G>(dp: DataProduct, params: Params, t: Tables, temporals: map<Id, PeriodOfTime>, env: Collaborators<G>)
  {
    PassesText(dp, params, t, env.providers) && PassesDates(dp, TemporalBounds(params, env.parseDate), temporals)
  }

  /**
   The bounding-box condition: some data product of `dps` that met the
   earlier conditions and shares the meta id hits the box.
   */
  predicate PassesBox<G>(dp: DataProduct, dps: seq<DataProduct>, params: Params, t: Tables,
                         temporals: map<Id, PeriodOfTime>, env: Collaborators<G>)
  {
    HasBoundingBox(params) && env.bbox(params).Some? ==>
      exists other :: other in dps && PassesEarly(other, params, t, temporals, env)
        && other.metaId == dp.metaId && BoxMatch(env, env.bbox(params).value, other, t)
  }

  /** The science-domain and service-type conditions. */
  predicate PassesCategories(dp: DataProduct, params: Params, t: Tables)
  {
    && (ScienceDomainKey in params ==>
          NonEmpty(dp.category) && NamedAmong(Resolve(t.categories, dp.category), CommaSet(params[ScienceDomainKey])))
    && (ServiceTypeKey in params ==> NamedAmong(ServiceCategories(dp, t), CommaSet(params[ServiceTypeKey])))
  }

  /** A data product of `dps` that meets every requested condition survives the filters. */
  predicate Survives<G>(dp: DataProduct, dps: seq<DataProduct>, params: Params, t: Tables,
                        temporals: map<Id, PeriodOfTime>, env: Collaborators<G>)
  {
    PassesEarly(dp, params, t, temporals, env) && PassesBox(dp, dps, params, t, temporals, env) && PassesCategories(dp, params, t)
  }

  /** The full-text, keyword and organisation stages. */
  function TextStages<G>(dps: seq<DataProduct>, params: Params, t: Tables, env: Collaborators<G>): (r: seq<DataProduct>)
    ensures forall dp :: dp in r <==> dp in dps && PassesText(dp, params, t, env.providers)
  {
    OrganisationStage(Keywords(FullText(dps, params, t), params), params, t, env.providers)
  }

  /** The seven stages in the order `doFilters` applies them, every link resolved in `t`. */
  function Stages<G>(dps: seq<DataProduct>, params: Params, t: Tables, temporals: map<Id, PeriodOfTime>, env: Collaborators<G>)
    : (r: seq<DataProduct>)
    ensures forall dp :: dp in r <==> dp in dps && Survives(dp, dps, params, t, temporals, env)
  {
    var c := TextStages(dps, params, t, env);
    var d := DateRange(c, TemporalBounds(params, env.parseDate), temporals);
    assert forall dp :: dp in d <==> dp in dps && PassesEarly(dp, params, t, temporals, env);
    var e := BoundingBox(d, params, t, env);
    assert forall dp :: dp in e <==> dp in d && PassesBox(dp, dps, params, t, temporals, env);
    var f := ScienceDomain(e, params, t);
    ServiceType(f, params, t)
  }

  lemma StagesTransparent<G>(dps: seq<DataProduct>, params: Params, s: Tables, t: Tables,
                             temporals: map<Id, PeriodOfTime>, env: Collaborators<G>)
    requires AllTransparent(dps, s, t)
    ensures Stages(dps, params, s, temporals, env) == Stages(dps, params, t, temporals, env)
  {
    TextStagesTransparent(dps, params, s, t, env);
    var c := TextStages(dps, params, t, env);
    var d := DateRange(c, TemporalBounds(params, env.parseDate), temporals);
    BoundingBoxTransparent(d, params, s, t, env);
    var e := BoundingBox(d, params, t, env);
    ScienceDomainTransparent(e, params, s, t);
    var f := ScienceDomain(e, params, t);
    ServiceTypeTransparent(f, params, s, t);
  }

  lemma TextStagesTransparent<G>(dps: seq<DataProduct>, params: Params, s: Tables, t: Tables, env: Collaborators<G>)
    requires AllTransparent(dps, s, t)
    ensures TextStages(dps, params, s, env) == TextStages(dps, params, t, env)
  {
    FullTextTransparent(dps, params, s, t);
    var a := FullText(dps, params, t);
    var b := Keywords(a, params);
    OrganisationStageTransparent(b, params, s, t, env.providers);
  }

  /**
   `doFilters`: pre-fetch the linked entities, then run the stages on the
   snapshot. The date stage looks periods up in the store itself. The result
   is what the stages give when every link is looked up in the store.
   */
  function DoFilters<G>(dps: seq<DataProduct>, params: Params, store: Tables, env: Collaborators<G>): (r: seq<DataProduct>)
    ensures r == Stages(dps, params, store, store.temporals, env)
  {
    var p := PreFetch(dps, store);
    PreFetchTransparent(dps, store);
    StagesTransparent(dps, params, p.snapshot, store, store.temporals, env);
    Stages(dps, params, p.snapshot, store.temporals, env)
  }

  /**
   `doFilters` as written: the date stage fails as soon as the scan of a data
   product that met the text conditions dereferences null; when it does not,
   the pipeline gives what the corrected one gives.
   */
  function DoFiltersAsWritten<G>(dps: seq<DataProduct>, params: Params, store: Tables, env: Collaborators<G>)
    : (r: Outcome<seq<DataProduct>>)
    ensures r.Ok? ==> r.value == DoFilters(dps, params, store, env)
    ensures var b := TemporalBounds(params, env.parseDate);
      r.Thrown? <==> ((b.start.Some? || b.end.Some?)
        && exists dp :: dp in dps && PassesText(dp, params, store, env.providers) && ScanThrows(dp, store.temporals, b))
  {
    var p := PreFetch(dps, store);
    PreFetchTransparent(dps, store);
    TextStagesTransparent(dps, params, p.snapshot, store, env);
    StagesTransparent(dps, params, p.snapshot, store, store.temporals, env);
    StagesAsWritten(dps, params, p.snapshot, store.temporals, env)
  }

  /** The seven stages with the date stage as written. */
  function StagesAsWritten<G>(dps: seq<DataProduct>, params: Params, t: Tables, temporals: map<Id, PeriodOfTime>, env: Collaborators<G>)
    : (r: Outcome<seq<DataProduct>>)
    ensures r.Ok? ==> r.value == Stages(dps, params, t, temporals, env)
    ensures var b := TemporalBounds(params, env.parseDate);
      r.Thrown? <==> ((b.start.Some? || b.end.Some?)
        && exists dp :: dp in TextStages(dps, params, t, env) && ScanThrows(dp, temporals, b))
  {
    var b := TemporalBounds(params, env.parseDate);
    var c := TextStages(dps, params, t, env);
    match DateRangeAsWritten(c, b, temporals)
    case Thrown(e) => Thrown(e)
    case Ok(d) =>
      var e := BoundingBox(d, params, t, env);
      var f := ScienceDomain(e, params, t);
      Ok(ServiceType(f, params, t))
  }
}
