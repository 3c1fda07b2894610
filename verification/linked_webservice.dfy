/**
 The search for distributions whose web service accepts a given set of
 request parameters (LinkedEntityWebserviceSearch): a distribution qualifies
 when every parameter names the property of a mapping of its operation that
 accepts the parameter's value.
 */
module LinkedWebservice {
  import opened Nullable
  import opened JavaString
  import opened Seqs
  import opened Entities
  import opened Query
  import AvailableFormats

  /** `DiscoveryItem`, with the fields this search fills in. */
  datatype DiscoveryItem = DiscoveryItem(
    id: Id,
    href: string,
    hrefExtended: string,
    uid: Option<string>,
    metaId: Id,
    title: Option<string>,
    description: Option<string>,
    availableFormats: seq<AvailableFormats.AvailableFormat>,
    versioningStatus: Option<string>)

  // ---------------------------------------------------------------------
  // Mappings
  // ---------------------------------------------------------------------

  /** `params.getOrDefault(mapping.getProperty(), "")` */
  function ValueFor(m: Mapping, params: Params): (v: string)
    ensures m.property.Some? && m.property.value in params ==> v == params[m.property.value]
    ensures m.property.None? || m.property.value !in params ==> v == ""
  {
    if m.property.Some? && m.property.value in params then params[m.property.value] else ""
  }

  /** The mapping is read-only: its value is fixed to the default. */
  predicate ReadOnly(m: Mapping)
  {
    ParseBoolean(m.readOnlyValue)
  }

  /** The mapping enumerates its allowed values. */
  predicate IsEnum(m: Mapping)
  {
    m.paramValue.Some? && |m.paramValue.value| > 0
  }

  /**
   What a mapping accepts as its value: a read-only mapping only its default,
   an enumeration only its listed values, any other mapping anything.
   */
  predicate Accepts(m: Mapping, v: string)
  {
    if ReadOnly(m) then m.defaultValue == Some(v)
    else !IsEnum(m) || v in m.paramValue.value
  }

  /** `isMappingValid` */
  function MappingValid(m: Mapping, params: Params): (b: bool)
    ensures b <==> Accepts(m, ValueFor(m, params))
  {
    var v := ValueFor(m, params);
    if ParseBoolean(m.readOnlyValue) then m.defaultValue.Some? && m.defaultValue.value == v
    else if !(m.paramValue.Some? && |m.paramValue.value| > 0) then true
    else v in m.paramValue.value
  }

  /**
   A mapping whose property is not among the request parameters is judged on
   the empty value: a read-only mapping then passes only with an empty
   default, an enumeration only when it lists "".
   */
  lemma AbsentParameter(m: Mapping, params: Params)
    requires m.property.None? || m.property.value !in params
    ensures MappingValid(m, params) <==> Accepts(m, "")
    ensures ReadOnly(m) ==> (MappingValid(m, params) <==> m.defaultValue == Some(""))
  {
  }

  // ---------------------------------------------------------------------
  // Distributions
  // ---------------------------------------------------------------------

  /** The operation of the distribution's first supported-operation link, in the operation map. */
  function OperationOf(d: Distribution, operations: map<Id, Operation>): Option<Operation>
  {
    if NonEmpty(d.supportedOperation) then Lookup(operations, Items(d.supportedOperation)[0]) else None
  }

  /** The mappings the operation links that the mapping map holds, in link order. */
  function LinkedMappings(op: Operation, mappings: map<Id, Mapping>): seq<Mapping>
  {
    Resolve(mappings, op.mapping)
  }

  /** The properties of the operation's valid mappings (a `null` property included as None). */
  function MappingProps(op: Operation, mappings: map<Id, Mapping>, params: Params): (r: set<Option<string>>)
    ensures forall p :: p in r <==> exists m :: m in LinkedMappings(op, mappings) && MappingValid(m, params) && m.property == p
  {
    set m | m in LinkedMappings(op, mappings) && MappingValid(m, params) :: m.property
  }

  /** Some mapping the operation links has property `k` and accepts `v`. */
  predicate Covered(op: Operation, mappings: map<Id, Mapping>, k: string, v: string)
  {
    exists m :: m in LinkedMappings(op, mappings) && m.property == Some(k) && Accepts(m, v)
  }

  /**
   `isDistributionValid`: the first operation resolves and links mappings,
   and every request parameter is the property of one of them that accepts
   the parameter's value.
   */
  function DistributionValid(d: Distribution, operations: map<Id, Operation>, mappings: map<Id, Mapping>, params: Params)
    : (b: bool)
    ensures b <==> (OperationOf(d, operations).Some? && NonEmpty(OperationOf(d, operations).value.mapping)
      && forall k :: k in params ==> Covered(OperationOf(d, operations).value, mappings, k, params[k]))
  {
    match OperationOf(d, operations)
    case None => false
    case Some(op) =>
      var props := MappingProps(op, mappings, params);
      CoveredIff(op, mappings, params);
      NonEmpty(op.mapping) && forall k :: k in params ==> Some(k) in props
  }

  lemma CoveredIff(op: Operation, mappings: map<Id, Mapping>, params: Params)
    ensures forall k :: k in params ==> (Some(k) in MappingProps(op, mappings, params) <==> Covered(op, mappings, k, params[k]))
  {
    forall k | k in params
      ensures Some(k) in MappingProps(op, mappings, params) <==> Covered(op, mappings, k, params[k])
    {
      if Some(k) in MappingProps(op, mappings, params) {
        var m :| m in LinkedMappings(op, mappings) && MappingValid(m, params) && m.property == Some(k);
        assert Accepts(m, params[k]);
      }
      if Covered(op, mappings, k, params[k]) {
        var m :| m in LinkedMappings(op, mappings) && m.property == Some(k) && Accepts(m, params[k]);
        assert MappingValid(m, params);
      }
    }
  }

  /** Without request parameters every distribution whose operation resolves and links mappings qualifies. */
  lemma NoParametersAcceptAll(d: Distribution, operations: map<Id, Operation>, mappings: map<Id, Mapping>)
    ensures DistributionValid(d, operations, mappings, map[]) <==>
      (OperationOf(d, operations).Some? && NonEmpty(OperationOf(d, operations).value.mapping))
  {
  }

  /** Dropping a request parameter never drops a distribution from the results. */
  lemma FewerParameters(d: Distribution, operations: map<Id, Operation>, mappings: map<Id, Mapping>, params: Params, k: string)
    requires DistributionValid(d, operations, mappings, params)
    ensures DistributionValid(d, operations, mappings, params - {k})
  {
    var op := OperationOf(d, operations).value;
    forall j | j in params - {k} ensures Covered(op, mappings, j, (params - {k})[j]) {
      assert Covered(op, mappings, j, params[j]);
    }
  }

  // ---------------------------------------------------------------------
  // Discovery items
  // ---------------------------------------------------------------------

  function DetailsHref(cfg: AvailableFormats.Config, id: Id): string
  {
    cfg.host + cfg.context + "/resources/details/" + id
  }

  /** `String.join(";", xs)` of a nullable list. */
  function JoinedOrNull(xs: Option<seq<string>>): (r: Option<string>)
    ensures r.Some? <==> xs.Some?
    ensures xs.Some? ==> r.value == Join(";", xs.value)
  {
    if xs.Some? then Some(Join(";", xs.value)) else None
  }

  /** `createDiscoveryItem`: fails exactly when generating the available formats fails. */
  function CreateItem(cfg: AvailableFormats.Config, d: Distribution, store: Tables, plugins: AvailableFormats.Plugins)
    : (r: Outcome<DiscoveryItem>)
    ensures r.Thrown? <==> AvailableFormats.Generate(cfg, d, store, plugins).Thrown?
    ensures r.Ok? ==> (r.value.id == d.instanceId && r.value.metaId == d.metaId && r.value.uid == d.uid
      && r.value.href == DetailsHref(cfg, d.instanceId)
      && r.value.hrefExtended == r.value.href + "?extended=true"
      && r.value.title == JoinedOrNull(d.title) && r.value.description == JoinedOrNull(d.description)
      && r.value.availableFormats == AvailableFormats.Generate(cfg, d, store, plugins).value
      && r.value.versioningStatus == d.status)
  {
    match AvailableFormats.Generate(cfg, d, store, plugins)
    case Thrown(e) => Thrown(e)
    case Ok(formats) =>
      var href := DetailsHref(cfg, d.instanceId);
      Ok(DiscoveryItem(d.instanceId, href, href + "?extended=true", d.uid, d.metaId,
        JoinedOrNull(d.title), JoinedOrNull(d.description), formats, d.status))
  }

  /** The items of the listed distributions, in order; the first failure ends the stream. */
  function CreateItems(cfg: AvailableFormats.Config, ds: seq<Distribution>, store: Tables, plugins: AvailableFormats.Plugins)
    : Outcome<seq<DiscoveryItem>>
  {
    MapAll(ds, (d: Distribution) => CreateItem(cfg, d, store, plugins))
  }

  /**
   `generate(params)` through `generateDiscoveryItems`: the operation and mapping maps keep the first
   entity listed under each id; each qualifying distribution becomes an item
   of the result set.
   */
  function Generate(cfg: AvailableFormats.Config, distributions: seq<Distribution>, operationList: seq<Operation>,
                    mappingList: seq<Mapping>, params: Params, store: Tables, plugins: AvailableFormats.Plugins)
    : (r: Outcome<set<DiscoveryItem>>)
    ensures r.Ok? ==> forall item :: item in r.value <==> exists d :: (d in distributions
      && DistributionValid(d, FirstWins(operationList, (o: Operation) => o.instanceId), FirstWins(mappingList, (m: Mapping) => m.instanceId), params)
      && CreateItem(cfg, d, store, plugins) == Ok(item))
    ensures r.Thrown? <==> exists d :: (d in distributions
      && DistributionValid(d, FirstWins(operationList, (o: Operation) => o.instanceId), FirstWins(mappingList, (m: Mapping) => m.instanceId), params)
      && CreateItem(cfg, d, store, plugins).Thrown?)
    ensures r.Ok? ==> forall item :: item in r.value ==> item.hrefExtended == item.href + "?extended=true"
  {
    var operations := FirstWins(operationList, (o: Operation) => o.instanceId);
    var mappings := FirstWins(mappingList, (m: Mapping) => m.instanceId);
    var valid := Filter(distributions, (d: Distribution) => DistributionValid(d, operations, mappings, params));
    var r := CreateItems(cfg, valid, store, plugins);
    SearchMembers(cfg, valid, r, store, plugins);
    match r
    case Thrown(e) => Thrown(e)
    case Ok(items) => Ok(Elems(items))
  }

  lemma SearchMembers(cfg: AvailableFormats.Config, valid: seq<Distribution>, r: Outcome<seq<DiscoveryItem>>,
                      store: Tables, plugins: AvailableFormats.Plugins)
    requires r == CreateItems(cfg, valid, store, plugins)
    ensures r.Ok? ==> forall item :: item in r.value <==> exists d :: d in valid && CreateItem(cfg, d, store, plugins) == Ok(item)
    ensures r.Thrown? <==> exists d :: d in valid && CreateItem(cfg, d, store, plugins).Thrown?
  {
    if r.Ok? {
      forall item | item in r.value ensures exists d :: d in valid && CreateItem(cfg, d, store, plugins) == Ok(item) {
        var i :| 0 <= i < |r.value| && r.value[i] == item;
        assert CreateItem(cfg, valid[i], store, plugins) == Ok(item);
      }
      forall d | d in valid && CreateItem(cfg, d, store, plugins).Ok? ensures CreateItem(cfg, d, store, plugins).value in r.value {
        var i :| 0 <= i < |valid| && valid[i] == d;
        assert r.value[i] == CreateItem(cfg, d, store, plugins).value;
      }
    }
    if exists d :: d in valid && CreateItem(cfg, d, store, plugins).Thrown? {
      var d :| d in valid && CreateItem(cfg, d, store, plugins).Thrown?;
      var i :| 0 <= i < |valid| && valid[i] == d;
    }
  }

  /** `results.removeIf(d -> d.getId().equals(id))` */
  function Without(items: set<DiscoveryItem>, exclude: Option<Id>): (r: set<DiscoveryItem>)
    ensures forall item :: item in r <==> item in items && Some(item.id) != exclude
    ensures exclude.None? ==> r == items
  {
    set item | item in items && Some(item.id) != exclude
  }

  /** `generate(id, params)`: the same items without those whose id is the excluded one (a `null` id excludes nothing). */
  function GenerateExcluding(cfg: AvailableFormats.Config, exclude: Option<Id>, distributions: seq<Distribution>,
                             operationList: seq<Operation>, mappingList: seq<Mapping>, params: Params, store: Tables,
                             plugins: AvailableFormats.Plugins)
    : (r: Outcome<set<DiscoveryItem>>)
    ensures r.Thrown? <==> Generate(cfg, distributions, operationList, mappingList, params, store, plugins).Thrown?
    ensures r.Ok? ==> forall item :: item in r.value <==>
      item in Generate(cfg, distributions, operationList, mappingList, params, store, plugins).value && Some(item.id) != exclude
    ensures exclude.None? ==> r == Generate(cfg, distributions, operationList, mappingList, params, store, plugins)
  {
    match Generate(cfg, distributions, operationList, mappingList, params, store, plugins)
    case Thrown(e) => Thrown(e)
    case Ok(items) => Ok(Without(items, exclude))
  }
}
