/**
 The extended details of one distribution
 (DistributionDetailsExtendedGenerationJPA): the same guards as the details,
 a pre-fetch in two phases (the persons of the fetched contact points and the
 mappings of the fetched operations are only known after the first phase),
 and the related data product and web service written out with their
 contact points, temporal coverages and the operations the distribution
 lists.
 */
module DistributionExtended {
  import opened Nullable
  import opened JavaString
  import opened Seqs
  import opened Entities
  import opened Prefetch
  import opened Query
  import AvailableFormats
  import DistributionSearch
  import DistributionDetails

  const PlainScheme := "plain"

  // ---------------------------------------------------------------------
  // Pre-fetch in two phases
  // ---------------------------------------------------------------------

  /** The ids the first phase collects from the data product and the web service, per entity type. */
  datatype FirstPhase = FirstPhase(
    identifiers: set<Id>, locations: set<Id>, temporals: set<Id>, organizations: set<Id>,
    categories: set<Id>, contactPoints: set<Id>, documentations: set<Id>, operations: set<Id>)

  function FirstPhaseIds(dp: DataProduct, ws: Option<WebService>): FirstPhase
  {
    var none: set<Id> := {};
    FirstPhase(
      DistributionDetails.LinkSet(dp.identifier),
      DistributionDetails.LinkSet(dp.spatialExtent) + (if ws.Some? then DistributionDetails.LinkSet(ws.value.spatialExtent) else none),
      DistributionDetails.LinkSet(dp.temporalExtent) + (if ws.Some? then DistributionDetails.LinkSet(ws.value.temporalExtent) else none),
      DistributionDetails.LinkSet(dp.publisher) + (if ws.Some? && ws.value.provider.Some? then {ws.value.provider.value} else none),
      DistributionDetails.LinkSet(dp.category) + (if ws.Some? then DistributionDetails.LinkSet(ws.value.category) else none),
      DistributionDetails.LinkSet(dp.contactPoint) + (if ws.Some? then DistributionDetails.LinkSet(ws.value.contactPoint) else none),
      if ws.Some? then DistributionDetails.LinkSet(ws.value.documentation) else none,
      if ws.Some? then DistributionDetails.LinkSet(ws.value.supportedOperation) else none)
  }

  /** The second phase's person ids: the persons the fetched contact points name. */
  function PersonIds(cps: map<Id, ContactPoint>): (r: set<Id>)
    ensures forall id :: id in r <==> exists k :: k in cps && cps[k].person == Some(id)
  {
    set k | k in cps && cps[k].person.Some? :: cps[k].person.value
  }

  function MappingLinks(op: Operation): Links
  {
    op.mapping
  }

  /** The second phase's mapping ids: the mappings of every fetched operation. */
  function MappingIds(ops: map<Id, Operation>): set<Id>
  {
    ValueLinkIds(ops, MappingLinks)
  }

  /**
   The stored entities among the first phase's ids, and the persons and
   mappings that what the first phase found links to; the other tables are empty.
   */
  function Snapshot(dp: DataProduct, ws: Option<WebService>, store: Tables): Tables
  {
    var w := FirstPhaseIds(dp, ws);
    var cps := Restrict(store.contactPoints, w.contactPoints);
    var ops := Restrict(store.operations, w.operations);
    NoTables.(
      identifiers := Restrict(store.identifiers, w.identifiers),
      locations := Restrict(store.locations, w.locations),
      temporals := Restrict(store.temporals, w.temporals),
      organizations := Restrict(store.organizations, w.organizations),
      categories := Restrict(store.categories, w.categories),
      contactPoints := cps,
      documentations := Restrict(store.documentations, w.documentations),
      operations := ops,
      persons := Restrict(store.persons, PersonIds(cps)),
      mappings := Restrict(store.mappings, MappingIds(ops)))
  }

  /** The first phase: one batch per entity type the data product and the web service link to. */
  function FirstRound(w: FirstPhase, store: Tables): (p: DistributionDetails.PreFetched)
    ensures |p.requests| <= 8 && NoEmptyRequest(p.requests)
    ensures p.snapshot == NoTables.(
      identifiers := Restrict(store.identifiers, w.identifiers),
      locations := Restrict(store.locations, w.locations),
      temporals := Restrict(store.temporals, w.temporals),
      organizations := Restrict(store.organizations, w.organizations),
      categories := Restrict(store.categories, w.categories),
      contactPoints := Restrict(store.contactPoints, w.contactPoints),
      documentations := Restrict(store.documentations, w.documentations),
      operations := Restrict(store.operations, w.operations))
  {
    var ids := FetchEntityBatch(IdentifierKind, store.identifiers, w.identifiers);
    var locs := FetchEntityBatch(LocationKind, store.locations, w.locations);
    var temps := FetchEntityBatch(TemporalKind, store.temporals, w.temporals);
    var orgs := FetchEntityBatch(OrganizationKind, store.organizations, w.organizations);
    var cats := FetchEntityBatch(CategoryKind, store.categories, w.categories);
    var cps := FetchEntityBatch(ContactPointKind, store.contactPoints, w.contactPoints);
    var docs := FetchEntityBatch(DocumentationKind, store.documentations, w.documentations);
    var ops := FetchEntityBatch(OperationKind, store.operations, w.operations);
    DistributionDetails.PreFetched(
      NoTables.(
        identifiers := ids.found, locations := locs.found, temporals := temps.found,
        organizations := orgs.found, categories := cats.found, contactPoints := cps.found,
        documentations := docs.found, operations := ops.found),
      Calls(ids.requests, locs.requests, temps.requests, orgs.requests,
            cats.requests, cps.requests, docs.requests, ops.requests))
  }

  /** The calls of the first phase's eight batches, in the order they are made. */
  function Calls(a: seq<Request>, b: seq<Request>, c: seq<Request>, d: seq<Request>,
                 e: seq<Request>, f: seq<Request>, g: seq<Request>, h: seq<Request>): (r: seq<Request>)
    requires |a| <= 1 && NoEmptyRequest(a) && |b| <= 1 && NoEmptyRequest(b)
    requires |c| <= 1 && NoEmptyRequest(c) && |d| <= 1 && NoEmptyRequest(d)
    requires |e| <= 1 && NoEmptyRequest(e) && |f| <= 1 && NoEmptyRequest(f)
    requires |g| <= 1 && NoEmptyRequest(g) && |h| <= 1 && NoEmptyRequest(h)
    ensures |r| <= 8 && NoEmptyRequest(r)
  {
    var parts := [a, b, c, d, e, f, g, h];
    assert forall i :: 0 <= i < |parts| ==> |parts[i]| <= 1 && NoEmptyRequest(parts[i]);
    Trace(parts)
  }

  /**
   The second phase, from what the first found: one batch for the persons of
   the fetched contact points and one for the mappings of the fetched operations.
   */
  function SecondRound(first: Tables, store: Tables): (p: DistributionDetails.PreFetched)
    ensures |p.requests| <= 2 && NoEmptyRequest(p.requests)
    ensures p.snapshot == first.(
      persons := Restrict(store.persons, PersonIds(first.contactPoints)),
      mappings := Restrict(store.mappings, MappingIds(first.operations)))
  {
    var persons := FetchEntityBatch(PersonKind, store.persons, PersonIds(first.contactPoints));
    var maps := FetchEntityBatch(MappingKind, store.mappings, MappingIds(first.operations));
    NoEmptyAppend(persons.requests, maps.requests);
    DistributionDetails.PreFetched(
      first.(persons := persons.found, mappings := maps.found),
      persons.requests + maps.requests)
  }

  /**
   `preFetchLinkedEntities`: eight batches for the first phase, then one for
   the persons and one for the mappings, so at most ten calls to the store,
   none for an empty id set.
   */
  function PreFetch(dp: DataProduct, ws: Option<WebService>, store: Tables): (p: DistributionDetails.PreFetched)
    ensures |p.requests| <= 10 && NoEmptyRequest(p.requests)
    ensures p.snapshot == Snapshot(dp, ws, store)
  {
    var a := FirstRound(FirstPhaseIds(dp, ws), store);
    var b := SecondRound(a.snapshot, store);
    NoEmptyAppend(a.requests, b.requests);
    DistributionDetails.PreFetched(b.snapshot, a.requests + b.requests)
  }

  // ---------------------------------------------------------------------
  // What the extended details read through links
  // ---------------------------------------------------------------------

  datatype PersonRef = PersonRef(id: Id, metaId: Id, uid: Option<string>)

  /** A contact point as shown: its identity, and its person's when the person is found. */
  datatype ContactInfo = ContactInfo(id: Id, metaId: Id, uid: Option<string>, person: Option<PersonRef>)

  function ContactInfoOf(cp: ContactPoint, persons: map<Id, Person>): (r: ContactInfo)
    ensures r.id == cp.instanceId && r.metaId == cp.metaId && r.uid == cp.uid
    ensures r.person.Some? <==> cp.person.Some? && cp.person.value in persons
    ensures r.person.Some? ==> r.person.value.id == persons[cp.person.value].instanceId
  {
    var person := if cp.person.Some? then Lookup(persons, cp.person.value) else None;
    ContactInfo(cp.instanceId, cp.metaId, cp.uid,
      if person.Some? then Some(PersonRef(person.value.instanceId, person.value.metaId, person.value.uid)) else None)
  }

  /** The contact points a list of links resolves to, in link order, each with its person. */
  function ContactsOf(links: Links, t: Tables): seq<ContactInfo>
  {
    var cps := Resolve(t.contactPoints, links);
    seq(|cps|, i requires 0 <= i < |cps| => ContactInfoOf(cps[i], t.persons))
  }

  /** A fetched operation with its resolved mappings. */
  datatype OperationLinked = OperationLinked(op: Operation, mappings: seq<Mapping>)

  function OperationsOf(links: Links, t: Tables): seq<OperationLinked>
  {
    var ops := Resolve(t.operations, links);
    seq(|ops|, i requires 0 <= i < |ops| => OperationLinked(ops[i], Resolve(t.mappings, ops[i].mapping)))
  }

  /** What the web-service bean reads through the service's links. */
  datatype ServiceLinked = ServiceLinked(
    contacts: seq<ContactInfo>,
    documentations: seq<Documentation>,
    provider: Option<Organization>,
    locations: seq<Location>,
    temporals: seq<PeriodOfTime>,
    categories: seq<Category>,
    operations: seq<OperationLinked>)

  /** What the extended details read through links: resolved in link order, unresolved links skipped. */
  datatype Linked = Linked(
    identifiers: seq<Identifier>,
    locations: seq<Location>,
    temporal: Option<PeriodOfTime>,
    publishers: seq<Organization>,
    contacts: seq<ContactInfo>,
    categories: seq<Category>,
    service: Option<ServiceLinked>)

  function ServiceLinkedOf(ws: WebService, t: Tables): ServiceLinked
  {
    ServiceLinked(
      ContactsOf(ws.contactPoint, t),
      Resolve(t.documentations, ws.documentation),
      if ws.provider.Some? then Lookup(t.organizations, ws.provider.value) else None,
      Resolve(t.locations, ws.spatialExtent),
      Resolve(t.temporals, ws.temporalExtent),
      Resolve(t.categories, ws.category),
      OperationsOf(ws.supportedOperation, t))
  }

  function LinkedOf(dp: DataProduct, ws: Option<WebService>, t: Tables): Linked
  {
    Linked(
      Resolve(t.identifiers, dp.identifier),
      Resolve(t.locations, dp.spatialExtent),
      DistributionDetails.FirstLinked(t.temporals, dp.temporalExtent),
      Resolve(t.organizations, dp.publisher),
      ContactsOf(dp.contactPoint, t),
      Resolve(t.categories, dp.category),
      if ws.Some? then Some(ServiceLinkedOf(ws.value, t)) else None)
  }

  /**
   Contact points whose ids were fetched read the same from the snapshot as
   from the store, persons included: a resolved contact point is a fetched
   one, so its person was asked for in the second phase.
   */
  lemma ContactsTransparent(links: Links, cpIds: set<Id>, store: Tables, t: Tables)
    requires DistributionDetails.LinkSet(links) <= cpIds
    requires t.contactPoints == Restrict(store.contactPoints, cpIds)
    requires t.persons == Restrict(store.persons, PersonIds(t.contactPoints))
    ensures ContactsOf(links, t) == ContactsOf(links, store)
  {
    DistributionDetails.RestrictedReads(store.contactPoints, cpIds, links);
    var cps := Resolve(t.contactPoints, links);
    forall i | 0 <= i < |cps| ensures ContactInfoOf(cps[i], t.persons) == ContactInfoOf(cps[i], store.persons) {
      assert cps[i] in cps;
      var j :| 0 <= j < |Items(links)| && Items(links)[j] in t.contactPoints && t.contactPoints[Items(links)[j]] == cps[i];
      if cps[i].person.Some? {
        assert cps[i].person.value in PersonIds(t.contactPoints);
      }
    }
  }

  /**
   Operations whose ids were fetched read the same from the snapshot as from
   the store, mappings included: a resolved operation is a fetched one, so
   its mappings were asked for in the second phase.
   */
  lemma OperationsTransparent(links: Links, opIds: set<Id>, store: Tables, t: Tables)
    requires DistributionDetails.LinkSet(links) <= opIds
    requires t.operations == Restrict(store.operations, opIds)
    requires t.mappings == Restrict(store.mappings, MappingIds(t.operations))
    ensures OperationsOf(links, t) == OperationsOf(links, store)
  {
    DistributionDetails.RestrictedReads(store.operations, opIds, links);
    var ops := Resolve(t.operations, links);
    forall i | 0 <= i < |ops|
      ensures Resolve(t.mappings, ops[i].mapping) == Resolve(store.mappings, ops[i].mapping)
    {
      assert ops[i] in ops;
      var j :| 0 <= j < |Items(links)| && Items(links)[j] in t.operations && t.operations[Items(links)[j]] == ops[i];
      InValueLinkIds(t.operations, MappingLinks, Items(links)[j], ops[i].mapping);
      forall x | x in DistributionDetails.LinkSet(ops[i].mapping) ensures x in MappingIds(t.operations) {
        var k :| 0 <= k < |Items(ops[i].mapping)| && Items(ops[i].mapping)[k] == x;
      }
      DistributionDetails.RestrictedReads(store.mappings, MappingIds(t.operations), ops[i].mapping);
    }
  }

  lemma ServiceSnapshotTransparent(dp: DataProduct, ws: WebService, store: Tables)
    ensures ServiceLinkedOf(ws, Snapshot(dp, Some(ws), store)) == ServiceLinkedOf(ws, store)
  {
    var w := FirstPhaseIds(dp, Some(ws));
    var t := Snapshot(dp, Some(ws), store);
    ContactsTransparent(ws.contactPoint, w.contactPoints, store, t);
    DistributionDetails.RestrictedReads(store.documentations, w.documentations, ws.documentation);
    DistributionDetails.RestrictedReads(store.locations, w.locations, ws.spatialExtent);
    DistributionDetails.RestrictedReads(store.temporals, w.temporals, ws.temporalExtent);
    DistributionDetails.RestrictedReads(store.categories, w.categories, ws.category);
    OperationsTransparent(ws.supportedOperation, w.operations, store, t);
  }

  /** Reading the extended details through the two-phase snapshot is reading them from the store. */
  lemma SnapshotTransparent(dp: DataProduct, ws: Option<WebService>, store: Tables)
    ensures LinkedOf(dp, ws, Snapshot(dp, ws, store)) == LinkedOf(dp, ws, store)
  {
    var w := FirstPhaseIds(dp, ws);
    var t := Snapshot(dp, ws, store);
    DistributionDetails.RestrictedReads(store.identifiers, w.identifiers, dp.identifier);
    DistributionDetails.RestrictedReads(store.locations, w.locations, dp.spatialExtent);
    DistributionDetails.RestrictedReads(store.temporals, w.temporals, dp.temporalExtent);
    DistributionDetails.RestrictedReads(store.organizations, w.organizations, dp.publisher);
    DistributionDetails.RestrictedReads(store.categories, w.categories, dp.category);
    ContactsTransparent(dp.contactPoint, w.contactPoints, store, t);
    if ws.Some? {
      ServiceSnapshotTransparent(dp, ws.value, store);
    }
  }

  // ---------------------------------------------------------------------
  // Distribution fields
  // ---------------------------------------------------------------------

  /**
   `populateDistribution`, keywords aside: the details' basic fields without
   the meta id, the editor id and the access endpoint, which the extended
   bean never sets, and with the distribution's version text where the
   details show its status.
   */
  function ExtendedFields(cfg: AvailableFormats.Config, d: Distribution): (r: Outcome<DistributionDetails.Basic>)
    ensures r.Thrown? <==> DistributionDetails.BasicFields(cfg, d).Thrown?
    ensures r.Ok? ==> r.value == DistributionDetails.BasicFields(cfg, d).value.(
      metaId := None, versioningStatus := d.version, editorId := None, accessEndpoint := None)
  {
    match DistributionDetails.TypeName(d.kind)
    case Thrown(e) => Thrown(e)
    case Ok(kind) =>
      var href := DistributionSearch.DetailsHref(cfg, d.instanceId);
      Ok(DistributionDetails.Basic(d.instanceId, d.uid, None, DistributionDetails.Joined(d.title), kind,
        DistributionDetails.Joined(d.description), d.version, None, DistributionDetails.Joined(d.downloadURL), None,
        href, href + DistributionDetails.ExtendedSuffix))
  }

  // ---------------------------------------------------------------------
  // Data product
  // ---------------------------------------------------------------------

  /** An identifier as shown: its scheme and its value. */
  datatype IdentifierEntry = IdentifierEntry(kind: Option<string>, value: Option<string>)

  /**
   The identifiers of the data product: one "plain" entry carrying the uid
   when the product lists no identifier, otherwise one entry per resolved
   identifier.
   */
  function IdentifierEntries(dp: DataProduct, ids: seq<Identifier>): (r: seq<IdentifierEntry>)
    ensures !NonEmpty(dp.identifier) ==> r == [IdentifierEntry(Some(PlainScheme), dp.uid)]
    ensures NonEmpty(dp.identifier) ==> |r| == |ids| && forall i :: 0 <= i < |ids| ==> r[i].kind == ids[i].kind && r[i].value == ids[i].value
  {
    if !NonEmpty(dp.identifier) then [IdentifierEntry(Some(PlainScheme), dp.uid)]
    else seq(|ids|, i requires 0 <= i < |ids| => IdentifierEntry(ids[i].kind, ids[i].value))
  }

  /** The related data product as the extended details show it. */
  datatype ProductInfo = ProductInfo(
    id: Id,
    uid: Option<string>,
    identifiers: seq<IdentifierEntry>,
    spatial: seq<Location>,
    temporal: DistributionDetails.Coverage,
    dataProviders: Option<seq<Provider>>,
    contacts: seq<ContactInfo>,
    scienceDomains: Option<seq<Option<string>>>)

  /**
   `buildDataProduct`: the coverage of the first temporal extent, the
   providers of each resolved publisher in turn (present when the product has
   a publisher list), the resolved contact points, and the category names
   (present only when the category list is not empty).
   */
  function ProductInfoOf(env: DistributionDetails.Env, dp: DataProduct, linked: Linked): (r: ProductInfo)
    ensures r.id == dp.instanceId && r.uid == dp.uid
    ensures r.identifiers == IdentifierEntries(dp, linked.identifiers)
    ensures r.temporal == DistributionDetails.CoverageOf(env.timestamp, linked.temporal)
    ensures r.dataProviders.Some? <==> dp.publisher.Some?
    ensures r.dataProviders.Some? ==> forall p :: p in r.dataProviders.value <==>
      exists i :: 0 <= i < |linked.publishers| && p in env.providers([linked.publishers[i]])
    ensures r.contacts == linked.contacts
    ensures r.scienceDomains.Some? <==> NonEmpty(dp.category)
    ensures r.scienceDomains.Some? ==> r.scienceDomains.value == DistributionDetails.Names(linked.categories)
  {
    ProductInfo(
      dp.instanceId,
      dp.uid,
      IdentifierEntries(dp, linked.identifiers),
      linked.locations,
      DistributionDetails.CoverageOf(env.timestamp, linked.temporal),
      if dp.publisher.Some? then Some(FlatMap(linked.publishers, (o: Organization) => env.providers([o]))) else None,
      linked.contacts,
      if NonEmpty(dp.category) then Some(DistributionDetails.Names(linked.categories)) else None)
  }

  // ---------------------------------------------------------------------
  // Web service and operations
  // ---------------------------------------------------------------------

  /** A service parameter as the extended details fill it: `required` is always a flag. */
  datatype Parameter = Parameter(
    name: Option<string>,
    property: Option<string>,
    defaultValue: Option<string>,
    enumValue: seq<string>,
    labelText: Option<string>,
    required: bool,
    kind: Option<string>,
    readOnlyValue: Option<string>,
    multipleValue: Option<string>)

  /**
   The parameter of one mapping: the label without "@en", the type without
   "xsd:", `required` parsed (a null one reads false), and the read-only and
   multiple-value texts copied as they are.
   */
  function ParameterOf(m: Mapping): (p: Parameter)
    ensures p.name == m.variable && p.property == m.property && p.defaultValue == m.defaultValue
    ensures p.enumValue == Items(m.paramValue)
    ensures p.required <==> ParseBoolean(m.required)
    ensures p.readOnlyValue == m.readOnlyValue && p.multipleValue == m.multipleValues
    ensures p.labelText.Some? <==> m.labelText.Some?
    ensures p.kind.Some? <==> m.range.Some?
  {
    Parameter(
      m.variable, m.property, m.defaultValue, Items(m.paramValue),
      DistributionDetails.Untagged(m.labelText, DistributionDetails.LanguageTag),
      ParseBoolean(m.required),
      DistributionDetails.Untagged(m.range, DistributionDetails.SchemaPrefix),
      m.readOnlyValue,
      m.multipleValues)
  }

  /**
   The extended parameter and the details' parameter of the same mapping
   agree on name, property, default, enumeration, label and type; they
   differ in that a null `required` is false here and absent there, and in
   that the details keep the read-only and multiple-value texts only when
   they read as true.
   */
  lemma ParameterAgainstDetails(m: Mapping)
    ensures var p := ParameterOf(m); var q := DistributionDetails.ServiceParameterOf(m);
      && p.name == q.name && p.property == q.property && p.defaultValue == q.defaultValue
      && p.enumValue == q.enumValue && p.labelText == q.labelText && p.kind == q.kind
      && p.required == q.required.GetOr(false)
      && q.readOnlyValue == (if ParseBoolean(m.readOnlyValue) then p.readOnlyValue else None)
      && q.multipleValue == (if ParseBoolean(m.multipleValues) then p.multipleValue else None)
  {
  }

  /** An operation as shown: HTTP method, template, uid and one parameter per resolved mapping. */
  datatype OperationInfo = OperationInfo(
    httpMethod: Option<string>,
    endpoint: Option<string>,
    uid: Option<string>,
    parameters: seq<Parameter>)

  function OperationInfoOf(ol: OperationLinked): (r: OperationInfo)
    ensures r.httpMethod == ol.op.httpMethod && r.endpoint == ol.op.template && r.uid == ol.op.uid
    ensures |r.parameters| == |ol.mappings| && forall i :: 0 <= i < |ol.mappings| ==> r.parameters[i] == ParameterOf(ol.mappings[i])
  {
    OperationInfo(ol.op.httpMethod, ol.op.template, ol.op.uid,
      seq(|ol.mappings|, i requires 0 <= i < |ol.mappings| => ParameterOf(ol.mappings[i])))
  }

  /** The distribution lists the operation among its supported operations. */
  predicate Related(related: Links, ol: OperationLinked)
  {
    related.Some? && ol.op.instanceId in related.value
  }

  /**
   The service's fetched operations that the distribution lists, in the
   service's order; none when the distribution has no list.
   */
  function OperationsShown(ops: seq<OperationLinked>, related: Links): (r: seq<OperationInfo>)
    ensures |r| <= |ops|
    ensures related.None? ==> r == []
    ensures forall o :: o in r <==> exists i :: 0 <= i < |ops| && Related(related, ops[i]) && o == OperationInfoOf(ops[i])
  {
    if |ops| == 0 then []
    else
      var rest := OperationsShown(ops[1..], related);
      assert forall i :: 1 <= i < |ops| ==> ops[i] == ops[1..][i - 1];
      assert forall o :: (exists i :: 1 <= i < |ops| && Related(related, ops[i]) && o == OperationInfoOf(ops[i])) ==> o in rest by {
        forall o, i | 1 <= i < |ops| && Related(related, ops[i]) && o == OperationInfoOf(ops[i]) ensures o in rest {
          assert ops[1..][i - 1] == ops[i];
        }
      }
      (if Related(related, ops[0]) then [OperationInfoOf(ops[0])] else []) + rest
  }

  /** The related web service as the extended details show it. */
  datatype ServiceInfo = ServiceInfo(
    contacts: seq<ContactInfo>,
    description: Option<string>,
    documentation: Option<string>,
    name: Option<string>,
    provider: Option<Provider>,
    spatial: seq<Location>,
    temporal: seq<DistributionDetails.Coverage>,
    serviceTypes: Option<seq<Option<string>>>,
    operations: seq<OperationInfo>)

  /**
   `buildWebService`: the resolved contact points, the documentation uris
   joined with ".", the first provider of the resolved provider, one
   coverage per resolved temporal extent, the category names, and the
   operations the distribution lists.
   */
  function ServiceInfoOf(env: DistributionDetails.Env, ws: WebService, sl: ServiceLinked, related: Links): (r: ServiceInfo)
    ensures r.contacts == sl.contacts && r.description == ws.description && r.name == ws.name
    ensures r.documentation.Some? <==> ws.documentation.Some?
    ensures r.documentation.Some? ==> r.documentation.value == Join(".", DistributionDetails.UriTexts(sl.documentations))
    ensures r.provider.Some? <==> sl.provider.Some? && env.providers([sl.provider.value]) != []
    ensures r.provider.Some? ==> r.provider.value == env.providers([sl.provider.value])[0]
    ensures |r.temporal| == |sl.temporals|
    ensures forall i :: 0 <= i < |sl.temporals| ==> r.temporal[i] == DistributionDetails.CoverageOf(env.timestamp, Some(sl.temporals[i]))
    ensures r.serviceTypes.Some? <==> ws.category.Some?
    ensures r.serviceTypes.Some? ==> r.serviceTypes.value == DistributionDetails.Names(sl.categories)
    ensures r.operations == OperationsShown(sl.operations, related)
  {
    var candidates := if sl.provider.Some? then env.providers([sl.provider.value]) else [];
    ServiceInfo(
      sl.contacts,
      ws.description,
      if ws.documentation.Some? then Some(Join(".", DistributionDetails.UriTexts(sl.documentations))) else None,
      ws.name,
      if |candidates| > 0 then Some(candidates[0]) else None,
      sl.locations,
      seq(|sl.temporals|, i requires 0 <= i < |sl.temporals| => DistributionDetails.CoverageOf(env.timestamp, Some(sl.temporals[i]))),
      if ws.category.Some? then Some(DistributionDetails.Names(sl.categories)) else None,
      OperationsShown(sl.operations, related))
  }

  /**
   The extended web-service block and the details' agree on description,
   documentation, name, provider and service types; and when the service's
   first temporal link resolves, the details' coverage is the first of the
   extended coverages.
   */
  lemma ServiceAgainstDetails(env: DistributionDetails.Env, ws: WebService, t: Tables, related: Links)
    ensures var e := ServiceInfoOf(env, ws, ServiceLinkedOf(ws, t), related);
      var b := DistributionDetails.ServiceInfoOf(env, ws, DistributionDetails.ServiceLinkedOf(ws, t));
      && e.description == b.description && e.documentation == b.documentation && e.name == b.name
      && e.provider == b.provider && e.serviceTypes == b.serviceTypes
      && (NonEmpty(ws.temporalExtent) && ws.temporalExtent.value[0] in t.temporals ==> |e.temporal| > 0 && e.temporal[0] == b.temporal)
  {
    if NonEmpty(ws.temporalExtent) && ws.temporalExtent.value[0] in t.temporals {
      var ids := ws.temporalExtent.value;
      assert ResolveAll(t.temporals, ids) == [t.temporals[ids[0]]] + ResolveAll(t.temporals, ids[1..]);
    }
  }

  // ---------------------------------------------------------------------
  // Contact points and categories: as written, and null-safe
  // ---------------------------------------------------------------------

  /**
   `populateContactPoints` as written: unlike the details it tests neither
   the service's contact list nor, once the service has contacts, the data
   product's for null before asking whether they are empty. Whenever it does
   not throw, it gives the details' entries.
   */
  function ContactsAsWritten(cfg: AvailableFormats.Config, d: Distribution, dp: DataProduct, ws: Option<WebService>)
    : (r: Outcome<seq<DistributionDetails.ContactEntry>>)
    ensures r.Thrown? <==> ((ws.Some? && ws.value.contactPoint.None?)
      || (DistributionDetails.ServiceContacts(ws) && dp.contactPoint.None?))
    ensures r.Ok? ==> r.value == DistributionDetails.Contacts(cfg, d, dp, ws)
  {
    if ws.Some? && ws.value.contactPoint.None? then Thrown("NullPointerException")
    else
      var sc := ws.Some? && |ws.value.contactPoint.value| > 0;
      var serviceEntry := if sc then [DistributionDetails.ContactEntry(
        DistributionDetails.SenderHref(cfg, ws.value.instanceId, DistributionDetails.ServiceProviders),
        DistributionDetails.ServiceProviders)] else [];
      var productEntry := if NonEmpty(dp.contactPoint) then [DistributionDetails.ContactEntry(
        DistributionDetails.SenderHref(cfg, dp.instanceId, DistributionDetails.DataProviders),
        DistributionDetails.DataProviders)] else [];
      if sc && dp.contactPoint.None? then Thrown("NullPointerException")
      else
        var allEntry := if sc && |dp.contactPoint.value| > 0 then [DistributionDetails.ContactEntry(
          DistributionDetails.SenderHref(cfg, d.instanceId, DistributionDetails.All),
          DistributionDetails.All)] else [];
        Ok(serviceEntry + productEntry + allEntry)
  }

  /** A web service whose contact list is null makes the extended details throw where the details do not. */
  lemma NullServiceContactsThrow(cfg: AvailableFormats.Config, d: Distribution, dp: DataProduct, ws: WebService)
    requires ws.contactPoint.None?
    ensures ContactsAsWritten(cfg, d, dp, Some(ws)).Thrown?
    ensures DistributionDetails.Contacts(cfg, d, dp, Some(ws)) == (if NonEmpty(dp.contactPoint) then
      [DistributionDetails.ContactEntry(DistributionDetails.SenderHref(cfg, dp.instanceId, DistributionDetails.DataProviders),
        DistributionDetails.DataProviders)] else [])
  {
  }

  /**
   `populateCategories` as written, up to the facet generation: it streams
   the data product's category list without testing it for null.
   */
  function FacetItemAsWritten(env: DistributionDetails.Env, basic: DistributionDetails.Basic, dp: DataProduct,
                              linked: Linked, formats: seq<AvailableFormats.AvailableFormat>)
    : (r: Outcome<DistributionDetails.FacetItem>)
    ensures dp.category.None? ==> r.Thrown?
    ensures dp.category.Some? ==> r == FacetItemOf(env, basic, linked, formats)
  {
    if dp.category.None? then Thrown("NullPointerException")
    else FacetItemOf(env, basic, linked, formats)
  }

  /**
   The facet item, a null category list reading as an empty one: the
   details' item over the extended fields, so its meta id and editor id are
   absent and its versioning status is the version text, copied without a
   null test.
   */
  function FacetItemOf(env: DistributionDetails.Env, basic: DistributionDetails.Basic, linked: Linked,
                     formats: seq<AvailableFormats.AvailableFormat>): (r: Outcome<DistributionDetails.FacetItem>)
    ensures r.Thrown? <==> NullCategoryUid(linked) || basic.uid.None?
    ensures r.Ok? ==> (r.value.id == basic.id && r.value.metaId == basic.metaId && r.value.editorId == basic.editorId
      && r.value.versioningStatus == basic.versioningStatus)
    ensures r.Ok? ==> (r.value.categories.None? <==>
      forall i :: 0 <= i < |linked.categories| ==> !Contains(linked.categories[i].uid.value, DistributionSearch.CategoryMarker))
    ensures r.Ok? ==> r.value.sha256id == env.sha256(basic.uid.value)
  {
    var serviceProvider := if linked.service.Some? then linked.service.value.provider else None;
    DistributionDetails.FacetItemFields(env, basic, linked.publishers, serviceProvider, linked.categories, formats)
  }

  /** A resolved category of the data product has a null uid. */
  predicate NullCategoryUid(linked: Linked)
  {
    exists i :: 0 <= i < |linked.categories| && linked.categories[i].uid.None?
  }

  // ---------------------------------------------------------------------
  // The extended details
  // ---------------------------------------------------------------------

  /** The extended details of a distribution. */
  datatype Extended = Extended(
    basic: DistributionDetails.Basic,
    keywords: set<string>,
    product: ProductInfo,
    service: Option<ServiceInfo>,
    contacts: seq<DistributionDetails.ContactEntry>,
    availableFormats: seq<AvailableFormats.AvailableFormat>,
    facet: DistributionDetails.FacetItem)

  /**
   `buildDistributionExtended`, given what the links resolve to and the
   formats, with null contact and category lists read as empty. The first
   exception escapes: a type with no "/" segment, the formats, a category
   with a null uid, a null uid.
   */
  function Build(env: DistributionDetails.Env, loc: DistributionDetails.Located, linked: Linked,
                 formats: Outcome<seq<AvailableFormats.AvailableFormat>>): (r: Outcome<Extended>)
    ensures r.Thrown? <==> (DistributionDetails.TypeName(loc.distribution.kind).Thrown? || formats.Thrown?
      || NullCategoryUid(linked) || loc.distribution.uid.None?)
    ensures r.Ok? ==> (r.value.basic.id == loc.distribution.instanceId
      && r.value.basic.metaId.None? && r.value.basic.editorId.None?
      && r.value.facet.id == r.value.basic.id && r.value.facet.metaId.None?
      && r.value.availableFormats == formats.value)
    ensures r.Ok? ==> (r.value.basic == ExtendedFields(env.cfg, loc.distribution).value
      && r.value.facet.versioningStatus == loc.distribution.version)
    ensures r.Ok? ==> r.value.product == ProductInfoOf(env, loc.product, linked)
    ensures r.Ok? ==> r.value.keywords == DistributionDetails.DetailsKeywords(loc.product, loc.service)
    ensures r.Ok? ==> r.value.contacts == DistributionDetails.Contacts(env.cfg, loc.distribution, loc.product, loc.service)
    ensures r.Ok? ==> (r.value.service.Some? <==> loc.service.Some? && linked.service.Some?)
    ensures r.Ok? && r.value.service.Some? ==>
      r.value.service.value.operations == OperationsShown(linked.service.value.operations, loc.distribution.supportedOperation)
  {
    var d := loc.distribution;
    var dp := loc.product;
    match ExtendedFields(env.cfg, d)
    case Thrown(e) => Thrown(e)
    case Ok(basic) =>
      match formats
      case Thrown(e) => Thrown(e)
      case Ok(fs) =>
        match FacetItemOf(env, basic, linked, fs)
        case Thrown(e) => Thrown(e)
        case Ok(item) =>
          Ok(Extended(
            basic,
            DistributionDetails.DetailsKeywords(dp, loc.service),
            ProductInfoOf(env, dp, linked),
            if loc.service.Some? && linked.service.Some?
            then Some(ServiceInfoOf(env, loc.service.value, linked.service.value, d.supportedOperation)) else None,
            DistributionDetails.Contacts(env.cfg, d, dp, loc.service),
            fs,
            item))
  }

  /**
   `generate(parameters)` of the extended details: the "id" parameter is
   required (a missing one throws); null when the details' guards fail;
   otherwise the extended details built from the two-phase snapshot, which
   are those built from the store.
   */
  function Generate(env: DistributionDetails.Env, params: Params, store: Tables, formats: DistributionSearch.Formats)
    : (r: Outcome<Option<Extended>>)
    ensures DistributionDetails.IdParam !in params ==> r.Thrown?
    ensures DistributionDetails.IdParam in params ==>
      (r == Ok(None) <==> DistributionDetails.Locate(params[DistributionDetails.IdParam], store).None?)
    ensures DistributionDetails.IdParam in params && DistributionDetails.Locate(params[DistributionDetails.IdParam], store).Some? ==>
      var loc := DistributionDetails.Locate(params[DistributionDetails.IdParam], store).value;
      match Build(env, loc, LinkedOf(loc.product, loc.service, store), formats(loc.distribution))
      case Thrown(e) => r == Thrown(e)
      case Ok(x) => r == Ok(Some(x))
  {
    if DistributionDetails.IdParam !in params then Thrown("NullPointerException")
    else
      match DistributionDetails.Locate(params[DistributionDetails.IdParam], store)
      case None => Ok(None)
      case Some(loc) =>
        var pre := PreFetch(loc.product, loc.service, store);
        SnapshotTransparent(loc.product, loc.service, store);
        match Build(env, loc, LinkedOf(loc.product, loc.service, pre.snapshot), formats(loc.distribution))
        case Thrown(e) => Thrown(e)
        case Ok(x) => Ok(Some(x))
  }
}
