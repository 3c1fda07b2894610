/**
 The details of one distribution (DistributionDetailsGenerationJPA): the
 guards that decide whether there is anything to show, the operation behind
 the distribution, a pre-fetch of everything the details link to (one call
 per entity type), and the fields built from that snapshot: basic fields and
 links, dataset identifiers, keywords, temporal coverage, the web-service
 block, contact points, the invocation and its parameters, and the discovery
 item from which the category facets are made.
 */
module DistributionDetails {
  import opened Nullable
  import opened JavaString
  import opened Seqs
  import opened Entities
  import opened Prefetch
  import opened Query
  import AvailableFormats
  import DistributionSearch

  const IdParam := "id"
  const ExtendedSuffix := "?extended=true"
  const SenderPath := "/sender/send-email?id="
  const ContactTypeParam := "&contactType="
  const DoiScheme := "DOI"
  const DdssScheme := "DDSS-ID"
  const LanguageTag := "@en"
  const SchemaPrefix := "xsd:"

  /**
   What the details call without implementing: the link prefix,
   `DataServiceProviderGeneration.getProviders`, the text `Timestamp.toString()`
   gives for an instant, and `DigestUtils.sha256Hex`.
   */
  datatype Env = Env(
    cfg: AvailableFormats.Config,
    providers: seq<Organization> -> seq<Provider>,
    timestamp: int -> string,
    sha256: string -> string)

  // ---------------------------------------------------------------------
  // Guards
  // ---------------------------------------------------------------------

  /** `retrieveFromLinkedEntity` on the first link of a list, when there is one. */
  function FirstLinked<T>(table: map<Id, T>, links: Links): Option<T>
  {
    if NonEmpty(links) then Lookup(table, links.value[0]) else None
  }

  /** The distribution shown, its data product and its web service. */
  datatype Located = Located(distribution: Distribution, product: DataProduct, service: Option<WebService>)

  /**
   The guards of `generate`: the distribution, the data product its first
   link names, and the web service its first access-service link names. A
   missing distribution or data product gives null; so does a distribution
   that has an access-service list (even an empty one) whose first service
   is not found.
   */
  function Locate(id: Id, store: Tables): (r: Option<Located>)
    ensures r.Some? <==> (id in store.distributions
      && NonEmpty(store.distributions[id].dataProduct)
      && store.distributions[id].dataProduct.value[0] in store.dataProducts
      && (store.distributions[id].accessService.Some? ==>
            NonEmpty(store.distributions[id].accessService)
            && store.distributions[id].accessService.value[0] in store.webServices))
    ensures r.Some? ==> (r.value.distribution == store.distributions[id]
      && r.value.product == store.dataProducts[r.value.distribution.dataProduct.value[0]]
      && (r.value.service.Some? <==> r.value.distribution.accessService.Some?)
      && (r.value.service.Some? ==> r.value.service.value == store.webServices[r.value.distribution.accessService.value[0]]))
  {
    match Lookup(store.distributions, id)
    case None => None
    case Some(d) =>
      match FirstLinked(store.dataProducts, d.dataProduct)
      case None => None
      case Some(dp) =>
        var ws := FirstLinked(store.webServices, d.accessService);
        if ws.None? && d.accessService.Some? then None
        else Some(Located(d, dp, ws))
  }

  /** The first of `ids` the table holds. */
  function FirstFound<T(==)>(table: map<Id, T>, ids: seq<Id>): (r: Option<T>)
    ensures r.None? <==> forall i :: 0 <= i < |ids| ==> ids[i] !in table
    ensures r.Some? ==> exists i :: (0 <= i < |ids| && ids[i] in table && r.value == table[ids[i]]
      && forall j :: 0 <= j < i ==> ids[j] !in table)
  {
    if |ids| == 0 then None
    else if ids[0] in table then Some(table[ids[0]])
    else
      var r := FirstFound(table, ids[1..]);
      assert forall i :: 1 <= i < |ids| ==> ids[i] == ids[1..][i - 1];
      if r.Some? then
        var i :| 0 <= i < |ids[1..]| && ids[1..][i] in table && r.value == table[ids[1..][i]]
          && forall j :: 0 <= j < i ==> ids[1..][j] !in table;
        assert forall j :: 0 <= j < i + 1 ==> ids[j] !in table by {
          forall j | 1 <= j < i + 1 ensures ids[j] !in table {
            assert ids[j] == ids[1..][j - 1];
          }
        }
        r
      else r
  }

  /** The head of the resolved list is the first link the table holds. */
  lemma {:induction false} FirstResolvedIsFirstFound<T(!new)>(table: map<Id, T>, ids: seq<Id>)
    ensures FirstFound(table, ids) == if |ResolveAll(table, ids)| > 0 then Some(ResolveAll(table, ids)[0]) else None
  {
    if |ids| > 0 && ids[0] !in table {
      FirstResolvedIsFirstFound(table, ids[1..]);
    }
  }

  /**
   `getOperation`: with a web service and a list of supported operations, the
   first of them the store holds (the resolved list, nulls dropped, in order);
   otherwise none.
   */
  function OperationOf(ws: Option<WebService>, d: Distribution, store: Tables): (r: Option<Operation>)
    ensures ws.None? || d.supportedOperation.None? ==> r.None?
    ensures ws.Some? && d.supportedOperation.Some? ==> r == FirstFound(store.operations, d.supportedOperation.value)
  {
    if ws.Some? && d.supportedOperation.Some? then
      var ops := Resolve(store.operations, d.supportedOperation);
      FirstResolvedIsFirstFound(store.operations, d.supportedOperation.value);
      if |ops| > 0 then Some(ops[0]) else None
    else None
  }

  // ---------------------------------------------------------------------
  // Pre-fetch
  // ---------------------------------------------------------------------

  /** The ids of a list of links. */
  function LinkSet(links: Links): set<Id>
  {
    Elems(Items(links))
  }

  /** The ids the pre-fetch collects, per entity type. */
  datatype Wanted = Wanted(
    identifiers: set<Id>, locations: set<Id>, temporals: set<Id>, organizations: set<Id>,
    categories: set<Id>, documentations: set<Id>, mappings: set<Id>)

  /** The ids of `preFetchLinkedEntities`: the data product's links, the web service's, and the operation's mappings. */
  function WantedIds(dp: DataProduct, ws: Option<WebService>, op: Option<Operation>): Wanted
  {
    var none: set<Id> := {};
    Wanted(
      LinkSet(dp.identifier),
      LinkSet(dp.spatialExtent) + (if ws.Some? then LinkSet(ws.value.spatialExtent) else none),
      LinkSet(dp.temporalExtent) + (if ws.Some? then LinkSet(ws.value.temporalExtent) else none),
      LinkSet(dp.publisher) + (if ws.Some? && ws.value.provider.Some? then {ws.value.provider.value} else none),
      LinkSet(dp.category) + (if ws.Some? then LinkSet(ws.value.category) else none),
      if ws.Some? then LinkSet(ws.value.documentation) else none,
      if op.Some? then LinkSet(op.value.mapping) else none)
  }

  /** The stored entities among the wanted ids; the other tables are empty. */
  function Snapshot(w: Wanted, store: Tables): Tables
  {
    NoTables.(
      identifiers := Restrict(store.identifiers, w.identifiers),
      locations := Restrict(store.locations, w.locations),
      temporals := Restrict(store.temporals, w.temporals),
      organizations := Restrict(store.organizations, w.organizations),
      categories := Restrict(store.categories, w.categories),
      documentations := Restrict(store.documentations, w.documentations),
      mappings := Restrict(store.mappings, w.mappings))
  }

  datatype PreFetched = PreFetched(snapshot: Tables, requests: seq<Request>)

  /**
   `preFetchLinkedEntities`: one `fetchEntityBatch` per entity type, so at
   most seven calls to the store, none of them for an empty id set.
   */
  function PreFetch(dp: DataProduct, ws: Option<WebService>, op: Option<Operation>, store: Tables): (p: PreFetched)
    ensures |p.requests| <= 7 && NoEmptyRequest(p.requests)
    ensures p.snapshot == Snapshot(WantedIds(dp, ws, op), store)
  {
    var w := WantedIds(dp, ws, op);
    var ids := FetchEntityBatch(IdentifierKind, store.identifiers, w.identifiers);
    var locs := FetchEntityBatch(LocationKind, store.locations, w.locations);
    var temps := FetchEntityBatch(TemporalKind, store.temporals, w.temporals);
    var orgs := FetchEntityBatch(OrganizationKind, store.organizations, w.organizations);
    var cats := FetchEntityBatch(CategoryKind, store.categories, w.categories);
    var docs := FetchEntityBatch(DocumentationKind, store.documentations, w.documentations);
    var maps := FetchEntityBatch(MappingKind, store.mappings, w.mappings);
    PreFetched(
      NoTables.(
        identifiers := ids.found, locations := locs.found, temporals := temps.found,
        organizations := orgs.found, categories := cats.found, documentations := docs.found,
        mappings := maps.found),
      Calls(ids.requests, locs.requests, temps.requests, orgs.requests, cats.requests, docs.requests, maps.requests))
  }

  /** The calls of the seven batches, in the order they are made. */
  function Calls(a: seq<Request>, b: seq<Request>, c: seq<Request>, d: seq<Request>,
                 e: seq<Request>, f: seq<Request>, g: seq<Request>): (r: seq<Request>)
    requires |a| <= 1 && NoEmptyRequest(a) && |b| <= 1 && NoEmptyRequest(b)
    requires |c| <= 1 && NoEmptyRequest(c) && |d| <= 1 && NoEmptyRequest(d)
    requires |e| <= 1 && NoEmptyRequest(e) && |f| <= 1 && NoEmptyRequest(f)
    requires |g| <= 1 && NoEmptyRequest(g)
    ensures |r| <= 7 && NoEmptyRequest(r)
  {
    var parts := [a, b, c, d, e, f, g];
    assert forall i :: 0 <= i < |parts| ==> |parts[i]| <= 1 && NoEmptyRequest(parts[i]);
    Trace(parts)
  }

  /** What the web-service block reads through the service's links. */
  datatype ServiceLinked = ServiceLinked(
    documentations: seq<Documentation>,
    provider: Option<Organization>,
    locations: seq<Location>,
    temporal: Option<PeriodOfTime>,
    categories: seq<Category>)

  /** What the details read through links: resolved in link order, unresolved links skipped, a temporal extent by its first link only. */
  datatype Linked = Linked(
    identifiers: seq<Identifier>,
    locations: seq<Location>,
    temporal: Option<PeriodOfTime>,
    publishers: seq<Organization>,
    categories: seq<Category>,
    service: Option<ServiceLinked>,
    mappings: seq<Mapping>)

  function ServiceLinkedOf(ws: WebService, t: Tables): ServiceLinked
  {
    ServiceLinked(
      Resolve(t.documentations, ws.documentation),
      if ws.provider.Some? then Lookup(t.organizations, ws.provider.value) else None,
      Resolve(t.locations, ws.spatialExtent),
      FirstLinked(t.temporals, ws.temporalExtent),
      Resolve(t.categories, ws.category))
  }

  function LinkedOf(dp: DataProduct, ws: Option<WebService>, op: Option<Operation>, t: Tables): Linked
  {
    Linked(
      Resolve(t.identifiers, dp.identifier),
      Resolve(t.locations, dp.spatialExtent),
      FirstLinked(t.temporals, dp.temporalExtent),
      Resolve(t.organizations, dp.publisher),
      Resolve(t.categories, dp.category),
      if ws.Some? then Some(ServiceLinkedOf(ws.value, t)) else None,
      if op.Some? then Resolve(t.mappings, op.value.mapping) else [])
  }

  /** Links whose ids were all fetched read the same from the snapshot table as from the store. */
  lemma RestrictedReads<T(!new)>(table: map<Id, T>, ids: set<Id>, links: Links)
    requires LinkSet(links) <= ids
    ensures Resolve(Restrict(table, ids), links) == Resolve(table, links)
    ensures FirstLinked(Restrict(table, ids), links) == FirstLinked(table, links)
  {
    forall i | 0 <= i < |Items(links)| ensures Items(links)[i] in ids {
      assert Items(links)[i] in LinkSet(links);
    }
    RestrictAgrees(table, ids, links);
    ResolveAgree(Restrict(table, ids), table, links);
  }

  lemma ServiceSnapshotTransparent(ws: WebService, w: Wanted, store: Tables)
    requires LinkSet(ws.documentation) <= w.documentations
    requires LinkSet(ws.spatialExtent) <= w.locations
    requires LinkSet(ws.temporalExtent) <= w.temporals
    requires LinkSet(ws.category) <= w.categories
    requires ws.provider.Some? ==> ws.provider.value in w.organizations
    ensures ServiceLinkedOf(ws, Snapshot(w, store)) == ServiceLinkedOf(ws, store)
  {
    RestrictedReads(store.documentations, w.documentations, ws.documentation);
    RestrictedReads(store.locations, w.locations, ws.spatialExtent);
    RestrictedReads(store.temporals, w.temporals, ws.temporalExtent);
    RestrictedReads(store.categories, w.categories, ws.category);
  }

  /** Reading the details through the pre-fetched snapshot is reading them from the store. */
  lemma SnapshotTransparent(dp: DataProduct, ws: Option<WebService>, op: Option<Operation>, store: Tables)
    ensures LinkedOf(dp, ws, op, Snapshot(WantedIds(dp, ws, op), store)) == LinkedOf(dp, ws, op, store)
  {
    var w := WantedIds(dp, ws, op);
    RestrictedReads(store.identifiers, w.identifiers, dp.identifier);
    RestrictedReads(store.locations, w.locations, dp.spatialExtent);
    RestrictedReads(store.temporals, w.temporals, dp.temporalExtent);
    RestrictedReads(store.organizations, w.organizations, dp.publisher);
    RestrictedReads(store.categories, w.categories, dp.category);
    if ws.Some? {
      ServiceSnapshotTransparent(ws.value, w, store);
    }
    if op.Some? {
      RestrictedReads(store.mappings, w.mappings, op.value.mapping);
    }
  }

  // ---------------------------------------------------------------------
  // Basic fields
  // ---------------------------------------------------------------------

  /** A nullable list of texts joined with ".". */
  function Joined(xs: Option<seq<string>>): Option<string>
  {
    if xs.Some? then Some(Join(".", xs.value)) else None
  }

  /**
   The type shown: the last "/" segment of the distribution's type. A type
   made only of "/" leaves no segment and the index fails.
   */
  function TypeName(kind: Option<string>): (r: Outcome<Option<string>>)
    ensures kind.None? ==> r == Ok(None)
    ensures kind.Some? ==> (r.Thrown? <==> kind.value != "" && exists k: nat :: kind.value == Repeat("/", k))
    ensures kind.Some? && r.Ok? ==> r.value.Some?
    ensures r.Ok? && r.value.Some? ==> (!Contains(r.value.value, "/")
      && exists pre: string, k: nat :: kind.value == pre + r.value.value + Repeat("/", k) && (pre == "" || EndsWith(pre, "/")))
  {
    if kind.None? then Ok(None)
    else
      SplitEmptyIff(kind.value, "/");
      match SplitLast(kind.value, "/")
      case Thrown(e) => Thrown(e)
      case Ok(segment) =>
        AvailableFormats.LastSegment(kind.value);
        Ok(Some(segment))
  }

  /** The fields `setBasicFields` copies or derives from the distribution. */
  datatype Basic = Basic(
    id: Id,
    uid: Option<string>,
    metaId: Option<Id>,
    title: Option<string>,
    kind: Option<string>,
    description: Option<string>,
    versioningStatus: Option<string>,
    editorId: Option<string>,
    downloadURL: Option<string>,
    accessEndpoint: Option<string>,
    href: string,
    hrefExtended: string)

  /** `setBasicFields`: the extended link is the details link with `?extended=true`. */
  function BasicFields(cfg: AvailableFormats.Config, d: Distribution): (r: Outcome<Basic>)
    ensures r.Thrown? <==> TypeName(d.kind).Thrown?
    ensures r.Ok? ==> r.value.id == d.instanceId && r.value.kind == TypeName(d.kind).value
    ensures r.Ok? ==> r.value.versioningStatus == d.status && r.value.editorId == d.editorId
    ensures r.Ok? ==> (r.value.href == DistributionSearch.DetailsHref(cfg, d.instanceId)
      && r.value.hrefExtended == r.value.href + ExtendedSuffix)
  {
    match TypeName(d.kind)
    case Thrown(e) => Thrown(e)
    case Ok(kind) =>
      var href := DistributionSearch.DetailsHref(cfg, d.instanceId);
      Ok(Basic(d.instanceId, d.uid, Some(d.metaId), Joined(d.title), kind, Joined(d.description), d.status, d.editorId,
        Joined(d.downloadURL), Joined(d.accessURL), href, href + ExtendedSuffix))
  }

  // ---------------------------------------------------------------------
  // Dataset identifiers and keywords
  // ---------------------------------------------------------------------

  /** The DOI list (null until a DOI identifier is met; its values may be null) and the non-null DDSS ids. */
  datatype DatasetIds = DatasetIds(doi: Option<seq<Option<string>>>, internalIds: seq<string>)

  predicate IsDoi(i: Identifier)
  {
    i.kind == Some(DoiScheme)
  }

  predicate IsDdss(i: Identifier)
  {
    i.kind == Some(DdssScheme) && i.value.Some?
  }

  /** The values of the DOI identifiers, in order, null values kept. */
  function DoiValues(ids: seq<Identifier>): (r: seq<Option<string>>)
    ensures |r| > 0 <==> exists i :: 0 <= i < |ids| && IsDoi(ids[i])
    ensures forall v :: v in r <==> exists i :: 0 <= i < |ids| && IsDoi(ids[i]) && ids[i].value == v
  {
    if |ids| == 0 then []
    else
      var rest := DoiValues(ids[1..]);
      assert forall i :: 1 <= i < |ids| ==> ids[i] == ids[1..][i - 1];
      assert forall v :: (exists i :: 1 <= i < |ids| && IsDoi(ids[i]) && ids[i].value == v) ==> v in rest by {
        forall v, i | 1 <= i < |ids| && IsDoi(ids[i]) && ids[i].value == v ensures v in rest {
          assert ids[1..][i - 1] == ids[i];
        }
      }
      (if IsDoi(ids[0]) then [ids[0].value] else []) + rest
  }

  /** The non-null values of the DDSS-ID identifiers, in order. */
  function DdssValues(ids: seq<Identifier>): (r: seq<string>)
    ensures forall x :: x in r <==> exists i :: 0 <= i < |ids| && IsDdss(ids[i]) && ids[i].value == Some(x)
  {
    if |ids| == 0 then []
    else
      var rest := DdssValues(ids[1..]);
      assert forall i :: 1 <= i < |ids| ==> ids[i] == ids[1..][i - 1];
      assert forall x :: (exists i :: 1 <= i < |ids| && IsDdss(ids[i]) && ids[i].value == Some(x)) ==> x in rest by {
        forall x, i | 1 <= i < |ids| && IsDdss(ids[i]) && ids[i].value == Some(x) ensures x in rest {
          assert ids[1..][i - 1] == ids[i];
        }
      }
      (if IsDdss(ids[0]) then [ids[0].value.value] else []) + rest
  }

  /**
   `setDatasetInfo`, over the data product's resolved identifiers: the DOI
   list is set when a DOI identifier is met, the DDSS-ID values always.
   */
  function DatasetInfo(ids: seq<Identifier>): (r: DatasetIds)
    ensures r.doi.Some? <==> exists i :: 0 <= i < |ids| && ids[i].kind == Some(DoiScheme)
    ensures r.doi.Some? ==> forall v :: v in r.doi.value <==>
      exists i :: 0 <= i < |ids| && ids[i].kind == Some(DoiScheme) && ids[i].value == v
    ensures forall x :: x in r.internalIds <==>
      exists i :: 0 <= i < |ids| && ids[i].kind == Some(DdssScheme) && ids[i].value == Some(x)
  {
    var dois := DoiValues(ids);
    DatasetIds(if |dois| > 0 then Some(dois) else None, DdssValues(ids))
  }

  /** The pieces a nullable keyword text splits into: null reads as "". */
  function KeywordPieces(kw: Option<string>): seq<string>
  {
    Split(kw.GetOr(""), DistributionSearch.KeywordDelimiter)
  }

  /**
   `setKeywords`: the pieces of the data product's keyword text and, with a
   web service, of the service's, each lower-cased and trimmed, without "".
   */
  function DetailsKeywords(dp: DataProduct, ws: Option<WebService>): (r: set<string>)
    ensures forall k :: k in r ==> k != "" && NormaliseKeyword(k) == k
    ensures forall k :: k in r <==> (k != "" &&
      ((exists p :: p in KeywordPieces(dp.keywords) && NormaliseKeyword(p) == k)
        || (ws.Some? && exists p :: p in KeywordPieces(ws.value.keywords) && NormaliseKeyword(p) == k)))
  {
    KeywordsOf(dp.keywords);
    KeywordsOf(if ws.Some? then ws.value.keywords else None);
    DistributionSearch.ProductKeywords(dp.keywords)
      + if ws.Some? then DistributionSearch.ProductKeywords(ws.value.keywords) else {}
  }

  /** The keyword set of one text, by the pieces of the text with null read as "". */
  lemma KeywordsOf(kw: Option<string>)
    ensures forall k :: k in DistributionSearch.ProductKeywords(kw) <==>
      (k != "" && exists p :: p in KeywordPieces(kw) && NormaliseKeyword(p) == k)
  {
    DistributionSearch.ProductKeywordsMembers(kw.GetOr(""));
    assert DistributionSearch.ProductKeywords(kw) == DistributionSearch.ProductKeywords(Some(kw.GetOr("")));
  }

  // ---------------------------------------------------------------------
  // Temporal coverage
  // ---------------------------------------------------------------------

  /** A date as the details show it: no space, no ".0", and a "Z". */
  predicate IsoText(s: string)
  {
    ' ' !in s && Contains(s, "Z") && !Contains(s, ".0")
  }

  /**
   The text of `Timestamp.toString()` made ISO-like: ".0" becomes "Z", each
   space becomes "T", and "Z" is appended when none is left.
   */
  function FormatDate(text: string): (r: string)
    ensures IsoText(r)
  {
    var noFraction := Replace(text, ".0", "Z");
    var f := Replace(noFraction, " ", "T");
    ReplaceDotZeroGone(text);
    ReplaceCharMap(noFraction, ' ', 'T');
    ReplaceRemovesChar(noFraction, ' ', "T");
    NoDotZeroAfterSpaces(noFraction);
    if Contains(f, "Z") then f
    else
      assert OccursAt(f + "Z", "Z", |f|);
      NoDotZeroAfterZ(f);
      f + "Z"
  }

  /** After ".0" is replaced by "Z", no ".0" is left: the replacement cannot form one with its neighbours. */
  lemma {:induction false} ReplaceDotZeroGone(s: string)
    ensures !Contains(Replace(s, ".0", "Z"), ".0")
    decreases |s|
  {
    var r := Replace(s, ".0", "Z");
    if |s| < 2 {
      assert r == s;
    } else if s[..2] == ".0" {
      var x := Replace(s[2..], ".0", "Z");
      ReplaceDotZeroGone(s[2..]);
      assert r == ['Z'] + x;
      PrependNoDotZero('Z', x);
    } else {
      var x := Replace(s[1..], ".0", "Z");
      ReplaceDotZeroGone(s[1..]);
      assert r == [s[0]] + x;
      ReplaceHead(s[1..]);
      assert s[..2] == [s[0], s[1]];
      PrependNoDotZero(s[0], x);
    }
  }

  /** One character before a text free of ".0" makes no ".0" unless it is a '.' before a '0'. */
  lemma PrependNoDotZero(c: char, x: string)
    requires !Contains(x, ".0")
    requires c == '.' && |x| > 0 ==> x[0] != '0'
    ensures !Contains([c] + x, ".0")
  {
    var r := [c] + x;
    forall i | 0 <= i <= |r| ensures !OccursAt(r, ".0", i) {
      if i == 0 && 2 <= |r| {
        assert r[0..2] == [c, x[0]];
      } else if 1 <= i && i + 2 <= |r| {
        assert r[i..i + 2] == x[i - 1..i + 1];
        assert !OccursAt(x, ".0", i - 1);
      }
    }
  }

  /** The first character after replacing ".0" is "Z" or the text's own first character. */
  lemma ReplaceHead(s: string)
    requires |s| >= 1
    ensures Replace(s, ".0", "Z")[0] == 'Z' || Replace(s, ".0", "Z")[0] == s[0]
  {
  }

  /** Turning spaces into "T" creates no ".0". */
  lemma NoDotZeroAfterSpaces(s: string)
    requires !Contains(s, ".0")
    ensures !Contains(Replace(s, " ", "T"), ".0")
  {
    var r := Replace(s, " ", "T");
    ReplaceCharMap(s, ' ', 'T');
    forall i | 0 <= i <= |r| ensures !OccursAt(r, ".0", i) {
      if i + 2 <= |r| {
        assert r[i..i + 2] == [r[i], r[i + 1]];
        assert s[i..i + 2] == [s[i], s[i + 1]];
        assert !OccursAt(s, ".0", i);
      }
    }
  }

  /** Appending "Z" creates no ".0". */
  lemma NoDotZeroAfterZ(s: string)
    requires !Contains(s, ".0")
    ensures !Contains(s + "Z", ".0")
  {
    var r := s + "Z";
    forall i | 0 <= i <= |r| ensures !OccursAt(r, ".0", i) {
      if i + 2 <= |s| {
        assert s[i..i + 2] == r[i..i + 2];
        assert !OccursAt(s, ".0", i);
      } else if i + 2 <= |r| {
        assert r[i..i + 2][1] == r[i + 1] == 'Z';
      }
    }
  }

  /** A date already in the shown form is left as it is; so formatting twice is formatting once. */
  lemma FormatDateFixes(s: string)
    requires IsoText(s)
    ensures FormatDate(s) == s
    ensures FormatDate(FormatDate(s)) == FormatDate(s)
  {
    ReplaceAbsent(s, ".0", "Z");
    CharAbsent(s, ' ');
    ReplaceAbsent(s, " ", "T");
  }

  /** A temporal coverage: the start and end dates as shown. */
  datatype Coverage = Coverage(startDate: Option<string>, endDate: Option<string>)

  /** The coverage of the first temporal extent: each date present in the period, formatted; nothing without a period. */
  function CoverageOf(timestamp: int -> string, pt: Option<PeriodOfTime>): (r: Coverage)
    ensures pt.None? ==> r == Coverage(None, None)
    ensures pt.Some? ==> (r.startDate.Some? <==> pt.value.startDate.Some?) && (r.endDate.Some? <==> pt.value.endDate.Some?)
    ensures r.startDate.Some? ==> IsoText(r.startDate.value) && r.startDate.value == FormatDate(timestamp(pt.value.startDate.value))
    ensures r.endDate.Some? ==> IsoText(r.endDate.value) && r.endDate.value == FormatDate(timestamp(pt.value.endDate.value))
  {
    match pt
    case None => Coverage(None, None)
    case Some(p) =>
      Coverage(
        if p.startDate.Some? then Some(FormatDate(timestamp(p.startDate.value))) else None,
        if p.endDate.Some? then Some(FormatDate(timestamp(p.endDate.value))) else None)
  }

  // ---------------------------------------------------------------------
  // Web service
  // ---------------------------------------------------------------------

  /** The names of resolved categories, null names kept. */
  function Names(cats: seq<Category>): (r: seq<Option<string>>)
    ensures |r| == |cats| && forall i :: 0 <= i < |cats| ==> r[i] == cats[i].name
  {
    seq(|cats|, i requires 0 <= i < |cats| => cats[i].name)
  }

  /** `Documentation::getUri` as `Collectors.joining` adds it: a null uri is written "null". */
  function UriText(doc: Documentation): string
  {
    doc.uri.GetOr("null")
  }

  function UriTexts(docs: seq<Documentation>): (r: seq<string>)
    ensures |r| == |docs| && forall i :: 0 <= i < |docs| ==> r[i] == UriText(docs[i])
  {
    seq(|docs|, i requires 0 <= i < |docs| => UriText(docs[i]))
  }

  /** The web-service block of the details. */
  datatype ServiceInfo = ServiceInfo(
    description: Option<string>,
    documentation: Option<string>,
    name: Option<string>,
    provider: Option<Provider>,
    spatial: seq<Location>,
    temporal: Coverage,
    serviceTypes: Option<seq<Option<string>>>)

  /**
   `setWebServiceInfo`: the documentation uris joined with "." (present when
   the service has a documentation list), the first provider of the
   service's resolved provider, the coverage of its first temporal extent,
   and the names of its categories (present when it has a category list).
   */
  function ServiceInfoOf(env: Env, ws: WebService, sl: ServiceLinked): (r: ServiceInfo)
    ensures r.documentation.Some? <==> ws.documentation.Some?
    ensures r.documentation.Some? ==> r.documentation.value == Join(".", UriTexts(sl.documentations))
    ensures r.provider.Some? <==> sl.provider.Some? && env.providers([sl.provider.value]) != []
    ensures r.provider.Some? ==> r.provider.value == env.providers([sl.provider.value])[0]
    ensures r.serviceTypes.Some? <==> ws.category.Some?
    ensures r.serviceTypes.Some? ==> r.serviceTypes.value == Names(sl.categories)
  {
    var candidates := if sl.provider.Some? then env.providers([sl.provider.value]) else [];
    ServiceInfo(
      ws.description,
      if ws.documentation.Some? then Some(Join(".", UriTexts(sl.documentations))) else None,
      ws.name,
      if |candidates| > 0 then Some(candidates[0]) else None,
      sl.locations,
      CoverageOf(env.timestamp, sl.temporal),
      if ws.category.Some? then Some(Names(sl.categories)) else None)
  }

  // ---------------------------------------------------------------------
  // Contact points
  // ---------------------------------------------------------------------

  /** `ProviderType` as used for contact points. */
  datatype ContactType = ServiceProviders | DataProviders | All

  function ContactTypeName(c: ContactType): string
  {
    match c
    case ServiceProviders => "SERVICEPROVIDERS"
    case DataProviders => "DATAPROVIDERS"
    case All => "ALL"
  }

  /** The position of each contact type in the list. */
  function Rank(c: ContactType): nat
  {
    match c
    case ServiceProviders => 0
    case DataProviders => 1
    case All => 2
  }

  datatype ContactEntry = ContactEntry(href: string, kind: ContactType)

  /** The contact types a list of entries offers. */
  function KindsOf(es: seq<ContactEntry>): set<ContactType>
  {
    set e | e in es :: e.kind
  }

  /** The e-mail sender link for an entity and a contact type. */
  function SenderHref(cfg: AvailableFormats.Config, id: Id, kind: ContactType): string
  {
    cfg.host + cfg.context + SenderPath + id + ContactTypeParam + ContactTypeName(kind)
  }

  /** The service has contact points. */
  predicate ServiceContacts(ws: Option<WebService>)
  {
    ws.Some? && NonEmpty(ws.value.contactPoint)
  }

  /** The entity an entry's link names: the service, the data product, or (for ALL) the distribution. */
  predicate LinksOwner(cfg: AvailableFormats.Config, e: ContactEntry, d: Distribution, dp: DataProduct, ws: Option<WebService>)
  {
    match e.kind
    case ServiceProviders => ws.Some? && e.href == SenderHref(cfg, ws.value.instanceId, ServiceProviders)
    case DataProviders => e.href == SenderHref(cfg, dp.instanceId, DataProviders)
    case All => e.href == SenderHref(cfg, d.instanceId, All)
  }

  /**
   `setContactPoints`: a SERVICEPROVIDERS entry exactly when the web service
   has contact points, a DATAPROVIDERS entry exactly when the data product
   has, and an ALL entry exactly when both have; in that order, each linking
   the sender for its entity.
   */
  function Contacts(cfg: AvailableFormats.Config, d: Distribution, dp: DataProduct, ws: Option<WebService>): (r: seq<ContactEntry>)
    ensures ServiceProviders in KindsOf(r) <==> ServiceContacts(ws)
    ensures DataProviders in KindsOf(r) <==> NonEmpty(dp.contactPoint)
    ensures All in KindsOf(r) <==> ServiceContacts(ws) && NonEmpty(dp.contactPoint)
    ensures forall i, j :: 0 <= i < j < |r| ==> Rank(r[i].kind) < Rank(r[j].kind)
    ensures forall i :: 0 <= i < |r| ==> LinksOwner(cfg, r[i], d, dp, ws)
  {
    var sc := ServiceContacts(ws);
    var dc := NonEmpty(dp.contactPoint);
    var dEntry := ContactEntry(SenderHref(cfg, dp.instanceId, DataProviders), DataProviders);
    if sc then
      var sEntry := ContactEntry(SenderHref(cfg, ws.value.instanceId, ServiceProviders), ServiceProviders);
      if dc then [sEntry, dEntry, ContactEntry(SenderHref(cfg, d.instanceId, All), All)] else [sEntry]
    else if dc then [dEntry]
    else []
  }

  // ---------------------------------------------------------------------
  // Invocation and parameters
  // ---------------------------------------------------------------------

  /** `ServiceParameter` as the details fill it. */
  datatype ServiceParameter = ServiceParameter(
    name: Option<string>,
    property: Option<string>,
    defaultValue: Option<string>,
    enumValue: seq<string>,
    labelText: Option<string>,
    required: Option<bool>,
    kind: Option<string>,
    readOnlyValue: Option<string>,
    multipleValue: Option<string>)

  /** A nullable text with every occurrence of `tag` removed. */
  function Untagged(s: Option<string>, tag: string): Option<string>
    requires |tag| > 0
  {
    if s.Some? then Some(Replace(s.value, tag, "")) else None
  }

  lemma UntaggedAbsent(s: Option<string>, tag: string)
    requires |tag| > 0
    ensures s.Some? && !Contains(s.value, tag) ==> Untagged(s, tag) == s
  {
    if s.Some? && !Contains(s.value, tag) {
      ReplaceAbsent(s.value, tag, "");
    }
  }

  /** A flag kept only when it reads as true. */
  function KeptIfTrue(s: Option<string>): (r: Option<string>)
    ensures r.Some? <==> ParseBoolean(s)
    ensures r.Some? ==> r == s && EqualsIgnoreCase(r.value, "true")
  {
    if ParseBoolean(s) then s else None
  }

  /**
   `getServiceParameter`: the label without "@en", the type without "xsd:",
   `required` parsed when present, read-only and multiple-value flags kept
   only when they read as true, and an empty enumeration for a null one.
   */
  function ServiceParameterOf(m: Mapping): (p: ServiceParameter)
    ensures p.name == m.variable && p.property == m.property && p.defaultValue == m.defaultValue
    ensures p.enumValue == Items(m.paramValue)
    ensures p.labelText.Some? <==> m.labelText.Some?
    ensures m.labelText.Some? && !Contains(m.labelText.value, LanguageTag) ==> p.labelText == m.labelText
    ensures p.kind.Some? <==> m.range.Some?
    ensures m.range.Some? && !Contains(m.range.value, SchemaPrefix) ==> p.kind == m.range
    ensures p.required.Some? <==> m.required.Some?
    ensures p.required.Some? ==> (p.required.value <==> EqualsIgnoreCase(m.required.value, "true"))
    ensures p.readOnlyValue.Some? <==> ParseBoolean(m.readOnlyValue)
    ensures p.readOnlyValue.Some? ==> p.readOnlyValue == m.readOnlyValue
    ensures p.multipleValue.Some? <==> ParseBoolean(m.multipleValues)
    ensures p.multipleValue.Some? ==> p.multipleValue == m.multipleValues
  {
    UntaggedAbsent(m.labelText, LanguageTag);
    UntaggedAbsent(m.range, SchemaPrefix);
    ServiceParameter(
      m.variable, m.property, m.defaultValue, Items(m.paramValue),
      Untagged(m.labelText, LanguageTag),
      if m.required.Some? then Some(ParseBoolean(m.required)) else None,
      Untagged(m.range, SchemaPrefix),
      KeptIfTrue(m.readOnlyValue),
      KeptIfTrue(m.multipleValues))
  }

  /** An English-tagged label shows as the label text; a schema-typed range shows as its local name. */
  lemma TagsRemoved(text: string, local: string)
    requires '@' !in text
    requires !Contains(local, SchemaPrefix)
    ensures Untagged(Some(text + LanguageTag), LanguageTag) == Some(text)
    ensures Untagged(Some(SchemaPrefix + local), SchemaPrefix) == Some(local)
  {
    ReplaceDropsSuffix(text, LanguageTag);
    ReplaceDropsPrefix(SchemaPrefix, local);
  }

  /**
   The service endpoint: the part of the template before the first "{"
   (`split("\\{")[0]`). A template made only of "{" leaves no part and the
   index fails.
   */
  function ServiceEndpoint(template: string): (r: Outcome<string>)
    ensures r.Thrown? <==> template != "" && exists k: nat :: template == Repeat("{", k)
    ensures r.Ok? ==> StartsWith(template, r.value) && !Contains(r.value, "{")
    ensures r.Ok? ==> r.value == template || template[|r.value|] == '{'
  {
    SplitEmptyIff(template, "{");
    EndpointPrefix(template);
    SplitFirst(template, "{")
  }

  lemma EndpointPrefix(template: string)
    ensures SplitFirst(template, "{").Ok? ==> (var v := SplitFirst(template, "{").value;
      StartsWith(template, v) && !Contains(v, "{") && (v == template || template[|v|] == '{'))
  {
    var r := SplitFirst(template, "{");
    if r.Ok? {
      SplitFirstPrefix(template, "{");
      if r.value != template {
        assert OccursAt(template, "{", |r.value|);
        assert template[|r.value|] == template[|r.value|..|r.value| + 1][0];
      }
    }
  }

  /** The invocation of the distribution: endpoints, operation id and parameters. */
  datatype Invocation = Invocation(
    endpoint: Option<string>,
    serviceEndpoint: Option<string>,
    operationId: Option<string>,
    parameters: seq<ServiceParameter>)

  /**
   `setParameters`: without an operation the endpoint stays the access URLs
   and there are no parameters; with one, the endpoint becomes the
   operation's template (even a null one), the service endpoint the part of
   the template before "{", and there is one parameter per resolved mapping.
   */
  function InvocationOf(op: Option<Operation>, accessEndpoint: Option<string>, mappings: seq<Mapping>): (r: Outcome<Invocation>)
    ensures op.None? ==> r == Ok(Invocation(accessEndpoint, None, None, []))
    ensures op.Some? ==> (r.Thrown? <==> op.value.template.Some? && ServiceEndpoint(op.value.template.value).Thrown?)
    ensures op.Some? && r.Ok? ==> (r.value.endpoint == op.value.template && r.value.operationId == op.value.uid
      && (r.value.serviceEndpoint.Some? <==> op.value.template.Some?)
      && (r.value.serviceEndpoint.Some? ==> r.value.serviceEndpoint.value == ServiceEndpoint(op.value.template.value).value)
      && |r.value.parameters| == |mappings|
      && forall i :: 0 <= i < |mappings| ==> r.value.parameters[i] == ServiceParameterOf(mappings[i]))
  {
    match op
    case None => Ok(Invocation(accessEndpoint, None, None, []))
    case Some(o) =>
      var params := seq(|mappings|, i requires 0 <= i < |mappings| => ServiceParameterOf(mappings[i]));
      if o.template.None? then Ok(Invocation(None, None, o.uid, params))
      else
        match ServiceEndpoint(o.template.value)
        case Thrown(e) => Thrown(e)
        case Ok(prefix) => Ok(Invocation(o.template, Some(prefix), o.uid, params))
  }

  // ---------------------------------------------------------------------
  // Discovery item for the category facets
  // ---------------------------------------------------------------------

  /** The item `setCategories` hands to the facet generation. */
  datatype FacetItem = FacetItem(
    id: Id,
    href: string,
    hrefExtended: string,
    uid: Option<string>,
    metaId: Option<Id>,
    title: Option<string>,
    description: Option<string>,
    availableFormats: seq<AvailableFormats.AvailableFormat>,
    sha256id: string,
    dataProvider: set<string>,
    serviceProvider: set<string>,
    categories: Option<seq<string>>,
    versioningStatus: Option<string>,
    editorId: Option<string>)

  /** The facet names of organisations whose legal-name list is present and not empty. */
  function ProviderNames(orgs: seq<Organization>): (r: set<string>)
    ensures forall n :: n in r <==> exists o :: o in orgs && o.legalName.Some? && |o.legalName.value| > 0 && Join(",", o.legalName.value) == n
  {
    set o | o in orgs && o.legalName.Some? && |o.legalName.value| > 0 :: Join(",", o.legalName.value)
  }

  /**
   The details and the search name data providers alike, except that the
   search also admits an organisation whose legal-name list is empty, which
   adds the empty name.
   */
  lemma ProviderNamesAgainstSearch(orgs: seq<Organization>)
    ensures ProviderNames(orgs) <= DistributionSearch.DataProviderNames(orgs)
    ensures DistributionSearch.DataProviderNames(orgs) - ProviderNames(orgs) <= {""}
  {
    forall n | n in DistributionSearch.DataProviderNames(orgs) && n !in ProviderNames(orgs) ensures n == "" {
      var o :| o in orgs && o.legalName.Some? && Join(",", o.legalName.value) == n;
    }
  }

  /**
   `setCategories`, up to the facet generation: the item carries the
   distribution's identity and links, the formats, the hash of its uid
   (`sha256Hex` of a null uid throws), the provider names, the `category:`
   uids of the data product's categories (null when there are none; a
   category with a null uid throws), and the name of the versioning status,
   which throws when the status is null.
   */
  function FacetItemOf(env: Env, basic: Basic, publishers: seq<Organization>, serviceProvider: Option<Organization>,
                       categories: seq<Category>, formats: seq<AvailableFormats.AvailableFormat>): (r: Outcome<FacetItem>)
    ensures r.Thrown? <==>
      (exists i :: 0 <= i < |categories| && categories[i].uid.None?) || basic.uid.None? || basic.versioningStatus.None?
    ensures r.Ok? ==> (r.value.categories.None? <==>
      forall i :: 0 <= i < |categories| ==> !Contains(categories[i].uid.value, DistributionSearch.CategoryMarker))
    ensures r.Ok? && r.value.categories.Some? ==> forall u :: u in r.value.categories.value <==>
      exists i :: 0 <= i < |categories| && categories[i].uid == Some(u) && Contains(u, DistributionSearch.CategoryMarker)
    ensures r.Ok? ==> r.value.sha256id == env.sha256(basic.uid.value)
    ensures r.Ok? ==> r.value.versioningStatus == basic.versioningStatus && r.value.editorId == basic.editorId
  {
    match FacetItemFields(env, basic, publishers, serviceProvider, categories, formats)
    case Thrown(e) => Thrown(e)
    case Ok(item) =>
      if basic.versioningStatus.None? then Thrown("NullPointerException") else Ok(item)
  }

  /** The facet item with the versioning status copied as it is, which is how the extended details build it. */
  function FacetItemFields(env: Env, basic: Basic, publishers: seq<Organization>, serviceProvider: Option<Organization>,
                           categories: seq<Category>, formats: seq<AvailableFormats.AvailableFormat>): (r: Outcome<FacetItem>)
    ensures r.Thrown? <==> (exists i :: 0 <= i < |categories| && categories[i].uid.None?) || basic.uid.None?
    ensures r.Ok? ==> (r.value.categories.None? <==>
      forall i :: 0 <= i < |categories| ==> !Contains(categories[i].uid.value, DistributionSearch.CategoryMarker))
    ensures r.Ok? && r.value.categories.Some? ==> forall u :: u in r.value.categories.value <==>
      exists i :: 0 <= i < |categories| && categories[i].uid == Some(u) && Contains(u, DistributionSearch.CategoryMarker)
    ensures r.Ok? ==> r.value.sha256id == env.sha256(basic.uid.value)
    ensures r.Ok? ==> (r.value.id == basic.id && r.value.metaId == basic.metaId
      && r.value.versioningStatus == basic.versioningStatus && r.value.editorId == basic.editorId)
  {
    match DistributionSearch.SplitCategories(categories)
    case Thrown(e) => Thrown(e)
    case Ok(parts) =>
      if basic.uid.None? then Thrown("NullPointerException")
      else
        var serviceNames := if serviceProvider.Some? then ProviderNames([serviceProvider.value]) else {};
        assert parts.list == [] <==> forall i :: 0 <= i < |categories| ==> !Contains(categories[i].uid.value, DistributionSearch.CategoryMarker) by {
          if parts.list != [] {
            assert parts.list[0] in parts.list;
          }
        }
        Ok(FacetItem(
          basic.id, basic.href, basic.hrefExtended, basic.uid, basic.metaId, basic.title, basic.description,
          formats, env.sha256(basic.uid.value), ProviderNames(publishers), serviceNames,
          if |parts.list| == 0 then None else Some(parts.list),
          basic.versioningStatus, basic.editorId))
  }

  // ---------------------------------------------------------------------
  // The details
  // ---------------------------------------------------------------------

  /** The details of a distribution. */
  datatype Details = Details(
    basic: Basic,
    dataset: DatasetIds,
    keywords: set<string>,
    spatial: seq<Location>,
    temporal: Coverage,
    dataProviders: Option<seq<Provider>>,
    scienceDomains: Option<seq<Option<string>>>,
    service: Option<ServiceInfo>,
    contacts: seq<ContactEntry>,
    invocation: Invocation,
    availableFormats: seq<AvailableFormats.AvailableFormat>,
    facet: FacetItem)

  /** The template has no text before its first "{". */
  predicate TemplateFails(op: Option<Operation>)
  {
    op.Some? && op.value.template.Some? && ServiceEndpoint(op.value.template.value).Thrown?
  }

  /** A resolved category of the data product has a null uid. */
  predicate NullCategoryUid(linked: Linked)
  {
    exists i :: 0 <= i < |linked.categories| && linked.categories[i].uid.None?
  }

  /**
   `buildDistribution`, given what the links resolve to and the formats.
   The first exception escapes: a type with no "/" segment, a template with
   no text before "{", the formats, a category with a null uid, a null uid,
   a null versioning status.
   */
  function Build(env: Env, loc: Located, op: Option<Operation>, linked: Linked,
                 formats: Outcome<seq<AvailableFormats.AvailableFormat>>): (r: Outcome<Details>)
    ensures r.Thrown? <==> (TypeName(loc.distribution.kind).Thrown? || TemplateFails(op) || formats.Thrown?
      || NullCategoryUid(linked) || loc.distribution.uid.None? || loc.distribution.status.None?)
    ensures r.Ok? ==> (r.value.basic.id == loc.distribution.instanceId
      && r.value.facet.id == r.value.basic.id && r.value.facet.href == r.value.basic.href
      && r.value.facet.hrefExtended == r.value.basic.hrefExtended
      && r.value.availableFormats == formats.value && r.value.facet.availableFormats == formats.value)
    ensures r.Ok? ==> r.value.invocation.endpoint == if op.Some? then op.value.template else Joined(loc.distribution.accessURL)
    ensures r.Ok? ==> (BasicFields(env.cfg, loc.distribution).Ok? && r.value.basic == BasicFields(env.cfg, loc.distribution).value
      && InvocationOf(op, r.value.basic.accessEndpoint, linked.mappings) == Ok(r.value.invocation))
    ensures r.Ok? ==> (r.value.dataset == DatasetInfo(linked.identifiers)
      && r.value.keywords == DetailsKeywords(loc.product, loc.service)
      && r.value.spatial == linked.locations
      && r.value.temporal == CoverageOf(env.timestamp, linked.temporal))
    ensures r.Ok? ==> (r.value.scienceDomains.Some? <==> loc.product.category.Some?)
    ensures r.Ok? && r.value.scienceDomains.Some? ==> r.value.scienceDomains.value == Names(linked.categories)
    ensures r.Ok? ==> (r.value.dataProviders.Some? <==> loc.product.publisher.Some?)
    ensures r.Ok? && r.value.dataProviders.Some? ==> r.value.dataProviders.value == env.providers(linked.publishers)
    ensures r.Ok? ==> (r.value.service.Some? <==> loc.service.Some? && linked.service.Some?)
    ensures r.Ok? && r.value.service.Some? ==> r.value.service.value == ServiceInfoOf(env, loc.service.value, linked.service.value)
    ensures r.Ok? ==> r.value.contacts == Contacts(env.cfg, loc.distribution, loc.product, loc.service)
    ensures r.Ok? ==> FacetItemOf(env, r.value.basic, linked.publishers,
      if linked.service.Some? then linked.service.value.provider else None, linked.categories, formats.value) == Ok(r.value.facet)
  {
    var d := loc.distribution;
    var dp := loc.product;
    match BasicFields(env.cfg, d)
    case Thrown(e) => Thrown(e)
    case Ok(basic) =>
      match InvocationOf(op, basic.accessEndpoint, linked.mappings)
      case Thrown(e) => Thrown(e)
      case Ok(invocation) =>
        match formats
        case Thrown(e) => Thrown(e)
        case Ok(fs) =>
          var serviceProvider := if linked.service.Some? then linked.service.value.provider else None;
          match FacetItemOf(env, basic, linked.publishers, serviceProvider, linked.categories, fs)
          case Thrown(e) => Thrown(e)
          case Ok(item) =>
            Ok(Details(
              basic,
              DatasetInfo(linked.identifiers),
              DetailsKeywords(dp, loc.service),
              linked.locations,
              CoverageOf(env.timestamp, linked.temporal),
              if dp.publisher.Some? then Some(env.providers(linked.publishers)) else None,
              if dp.category.Some? then Some(Names(linked.categories)) else None,
              if loc.service.Some? && linked.service.Some? then Some(ServiceInfoOf(env, loc.service.value, linked.service.value)) else None,
              Contacts(env.cfg, d, dp, loc.service),
              invocation,
              fs,
              item))
  }

  /**
   `generate(parameters)`: the "id" parameter is required (a missing one
   throws); null when the guards fail; otherwise the details built from the
   pre-fetched snapshot, which are the details built from the store.
   */
  function Generate(env: Env, params: Params, store: Tables, formats: DistributionSearch.Formats): (r: Outcome<Option<Details>>)
    ensures IdParam !in params ==> r.Thrown?
    ensures IdParam in params ==> (r == Ok(None) <==> Locate(params[IdParam], store).None?)
    ensures IdParam in params && Locate(params[IdParam], store).Some? ==>
      var loc := Locate(params[IdParam], store).value;
      var op := OperationOf(loc.service, loc.distribution, store);
      match Build(env, loc, op, LinkedOf(loc.product, loc.service, op, store), formats(loc.distribution))
      case Thrown(e) => r == Thrown(e)
      case Ok(details) => r == Ok(Some(details))
  {
    if IdParam !in params then Thrown("NullPointerException")
    else
      match Locate(params[IdParam], store)
      case None => Ok(None)
      case Some(loc) =>
        var op := OperationOf(loc.service, loc.distribution, store);
        var pre := PreFetch(loc.product, loc.service, op, store);
        SnapshotTransparent(loc.product, loc.service, op, store);
        match Build(env, loc, op, LinkedOf(loc.product, loc.service, op, pre.snapshot), formats(loc.distribution))
        case Thrown(e) => Thrown(e)
        case Ok(details) => Ok(Some(details))
  }
}
