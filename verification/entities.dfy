/**
 The EPOS metadata entities the search backend reads, reduced to the fields
 its logic consults, and the per-type tables that hold them.

 A link to another entity (`LinkedEntity`) is represented by the linked
 entity's instance id. Lists and strings that the code tests for `null` are
 `Option`s. Dates are instants on a totally ordered integer time line.
 */
module Entities {
  import opened Nullable

  type Id = string
  type Links = Option<seq<Id>>

  /** `status` is the name of the record's versioning `StatusType` and `editorId` who last edited it; either may be null. */
  datatype DataProduct = DataProduct(
    instanceId: Id,
    metaId: Id,
    uid: Option<string>,
    keywords: Option<string>,
    distribution: Links,
    category: Links,
    identifier: Links,
    publisher: Links,
    spatialExtent: Links,
    temporalExtent: Links,
    contactPoint: Links,
    status: Option<string>,
    editorId: Option<string>)

  /** As for data products, `status` and `editorId`; `version` is the free-text version (`getVersion()`). */
  datatype Distribution = Distribution(
    instanceId: Id,
    metaId: Id,
    uid: Option<string>,
    title: Option<seq<string>>,
    description: Option<seq<string>>,
    accessService: Links,
    supportedOperation: Links,
    dataProduct: Links,
    downloadURL: Option<seq<string>>,
    accessURL: Option<seq<string>>,
    format: Option<string>,
    kind: Option<string>,
    status: Option<string>,
    editorId: Option<string>,
    version: Option<string>)

  datatype WebService = WebService(
    instanceId: Id,
    uid: Option<string>,
    name: Option<string>,
    description: Option<string>,
    keywords: Option<string>,
    provider: Option<Id>,
    spatialExtent: Links,
    temporalExtent: Links,
    category: Links,
    contactPoint: Links,
    documentation: Links,
    supportedOperation: Links)

  datatype Category = Category(instanceId: Id, uid: Option<string>, name: Option<string>)

  datatype Organization = Organization(
    instanceId: Id,
    uid: Option<string>,
    legalName: Option<seq<string>>,
    identifier: Links,
    address: Option<Id>,
    owns: Links,
    logo: Option<string>,
    url: Option<string>)

  /** `Identifier`: `kind` is the identifier scheme (`getType()`), `value` the identifier itself. */
  datatype Identifier = Identifier(instanceId: Id, kind: Option<string>, value: Option<string>)

  /** `Location`: a geometry written as Well-Known Text. */
  datatype Location = Location(instanceId: Id, wkt: Option<string>)

  datatype PeriodOfTime = PeriodOfTime(instanceId: Id, startDate: Option<int>, endDate: Option<int>)

  datatype Address = Address(instanceId: Id, country: Option<string>)

  datatype Operation = Operation(
    instanceId: Id,
    uid: Option<string>,
    httpMethod: Option<string>,
    template: Option<string>,
    mapping: Links,
    returnTypes: Option<seq<string>>)

  datatype Mapping = Mapping(
    instanceId: Id,
    property: Option<string>,
    variable: Option<string>,
    defaultValue: Option<string>,
    readOnlyValue: Option<string>,
    paramValue: Option<seq<string>>,
    labelText: Option<string>,
    range: Option<string>,
    required: Option<string>,
    multipleValues: Option<string>)

  datatype ContactPoint = ContactPoint(instanceId: Id, metaId: Id, uid: Option<string>, person: Option<Id>)

  datatype Person = Person(instanceId: Id, metaId: Id, uid: Option<string>)

  /** `Documentation`: `uri` is where the documentation lives. */
  datatype Documentation = Documentation(instanceId: Id, uri: Option<string>)

  /** `Facility`: `kind` is the uid of the facility-type category (`getType()`). */
  datatype Facility = Facility(
    instanceId: Id,
    uid: Option<string>,
    title: Option<string>,
    description: Option<string>,
    keywords: Option<string>,
    kind: Option<string>,
    spatialExtent: Links)

  /** `SoftwareApplication`, reduced to what its response projects. */
  datatype SoftwareApplication = SoftwareApplication(
    instanceId: Id,
    name: Option<string>,
    description: Option<string>,
    keywords: Option<string>,
    identifier: Links,
    contactPoint: Links,
    category: Links,
    downloadURL: Option<string>,
    mainEntityOfPage: Option<string>)

  /** `SoftwareSourceCode`, reduced to what its response projects. */
  datatype SoftwareSourceCode = SoftwareSourceCode(
    instanceId: Id,
    name: Option<string>,
    description: Option<string>,
    keywords: Option<string>,
    identifier: Links,
    contactPoint: Links,
    category: Links,
    downloadURL: Option<string>,
    codeRepository: Option<string>)

  /** A back-office user as the user service returns it. */
  datatype User = User(authIdentifier: Option<string>, firstName: string, lastName: string, isAdmin: bool)

  /** One conversion a plugin offers for a distribution. */
  datatype PluginRelation = PluginRelation(pluginId: string, inputFormat: string, outputFormat: string)

  datatype Plugin = Plugin(distributionId: string, relations: Option<seq<PluginRelation>>)

  /** `DataServiceProvider`, as the provider-group expansion returns it. */
  datatype Provider = Provider(
    instanceId: Id,
    legalName: string,
    relatedDataProviders: seq<Provider>,
    relatedServiceProviders: seq<Provider>)

  /**
   The entities of each type by instance id. The same shape serves as the
   metadata store (what a batch retrieval can return) and as the snapshot of
   pre-fetched entities an operation works from.
   */
  datatype Tables = Tables(
    addresses: map<Id, Address>,
    identifiers: map<Id, Identifier>,
    locations: map<Id, Location>,
    temporals: map<Id, PeriodOfTime>,
    organizations: map<Id, Organization>,
    categories: map<Id, Category>,
    contactPoints: map<Id, ContactPoint>,
    persons: map<Id, Person>,
    documentations: map<Id, Documentation>,
    operations: map<Id, Operation>,
    mappings: map<Id, Mapping>,
    distributions: map<Id, Distribution>,
    webServices: map<Id, WebService>,
    dataProducts: map<Id, DataProduct>)

  const NoTables := Tables(map[], map[], map[], map[], map[], map[], map[], map[], map[], map[], map[], map[], map[], map[])

  /** Every entity is stored under its own instance id. */
  predicate WellKeyed(t: Tables)
  {
    && (forall k :: k in t.addresses ==> t.addresses[k].instanceId == k)
    && (forall k :: k in t.identifiers ==> t.identifiers[k].instanceId == k)
    && (forall k :: k in t.locations ==> t.locations[k].instanceId == k)
    && (forall k :: k in t.temporals ==> t.temporals[k].instanceId == k)
    && (forall k :: k in t.organizations ==> t.organizations[k].instanceId == k)
    && (forall k :: k in t.categories ==> t.categories[k].instanceId == k)
    && (forall k :: k in t.contactPoints ==> t.contactPoints[k].instanceId == k)
    && (forall k :: k in t.persons ==> t.persons[k].instanceId == k)
    && (forall k :: k in t.documentations ==> t.documentations[k].instanceId == k)
    && (forall k :: k in t.operations ==> t.operations[k].instanceId == k)
    && (forall k :: k in t.mappings ==> t.mappings[k].instanceId == k)
    && (forall k :: k in t.distributions ==> t.distributions[k].instanceId == k)
    && (forall k :: k in t.webServices ==> t.webServices[k].instanceId == k)
    && (forall k :: k in t.dataProducts ==> t.dataProducts[k].instanceId == k)
  }

  /** The entities a list of links resolves to in `table`, in link order; unresolved links are skipped. */
  function Resolve<T(!new)>(table: map<Id, T>, links: Links): (r: seq<T>)
    ensures |r| <= |Items(links)|
    ensures forall x :: x in r <==> exists i :: 0 <= i < |Items(links)| && Items(links)[i] in table && table[Items(links)[i]] == x
  {
    ResolveAll(table, Items(links))
  }

  function ResolveAll<T(!new)>(table: map<Id, T>, ids: seq<Id>): (r: seq<T>)
    ensures |r| <= |ids|
    ensures forall x :: x in r <==> exists i :: 0 <= i < |ids| && ids[i] in table && table[ids[i]] == x
  {
    if |ids| == 0 then []
    else
      var rest := ResolveAll(table, ids[1..]);
      assert forall x :: x in rest <==> exists i :: 1 <= i < |ids| && ids[i] in table && table[ids[i]] == x by {
        forall x | x in rest ensures exists i :: 1 <= i < |ids| && ids[i] in table && table[ids[i]] == x {
          var j :| 0 <= j < |ids[1..]| && ids[1..][j] in table && table[ids[1..][j]] == x;
          assert ids[j + 1] == ids[1..][j];
        }
      }
      (if ids[0] in table then [table[ids[0]]] else []) + rest
  }
  /** Two tables agree on every link of a list. */
  ghost predicate AgreeOn<T>(t1: map<Id, T>, t2: map<Id, T>, links: Links)
  {
    forall i :: 0 <= i < |Items(links)| ==> Lookup(t1, Items(links)[i]) == Lookup(t2, Items(links)[i])
  }

  /** Resolving links depends only on what the table holds under those links. */
  lemma ResolveAgree<T(!new)>(t1: map<Id, T>, t2: map<Id, T>, links: Links)
    requires AgreeOn(t1, t2, links)
    ensures Resolve(t1, links) == Resolve(t2, links)
  {
    ResolveAllAgree(t1, t2, Items(links));
  }

  lemma {:induction false} ResolveAllAgree<T(!new)>(t1: map<Id, T>, t2: map<Id, T>, ids: seq<Id>)
    requires forall i :: 0 <= i < |ids| ==> Lookup(t1, ids[i]) == Lookup(t2, ids[i])
    ensures ResolveAll(t1, ids) == ResolveAll(t2, ids)
  {
    if |ids| > 0 {
      assert Lookup(t1, ids[0]) == Lookup(t2, ids[0]);
      ResolveAllAgree(t1, t2, ids[1..]);
    }
  }
}
