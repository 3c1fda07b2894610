/**
 The organisation listing (OrganisationsGeneration): a single organisation by
 id, or every organisation narrowed by provider type, by the general
 organisation filters and by an exact country, then turned into beans.
 */
module Organisations {
  import opened Nullable
  import opened JavaString
  import opened Seqs
  import opened Entities
  import opened Prefetch
  import opened Query
  import OrganizationFilter
  import DistributionFilter

  const IdKey := "id"
  const TypeKey := "type"
  const CountryKey := "country"

  /** `OrganizationBean`: id, logo, URL, the legal names joined by ";", and the address country. */
  datatype OrganizationBean = OrganizationBean(id: Id, logo: Option<string>, url: Option<string>, title: string, country: Option<string>)

  // ---------------------------------------------------------------------
  // Provider type
  // ---------------------------------------------------------------------

  /** `o` publishes a data product some distribution links to. */
  predicate DataProvider(o: Organization, distributions: seq<Distribution>, store: Tables)
  {
    exists d, dp :: d in distributions && dp in Resolve(store.dataProducts, d.dataProduct)
      && o in Resolve(store.organizations, dp.publisher)
  }

  /** `o` provides a web service some distribution links to. */
  predicate ServiceProvider(o: Organization, distributions: seq<Distribution>, store: Tables)
  {
    exists d, w :: d in distributions && w in Resolve(store.webServices, d.accessService)
      && o in DistributionFilter.ProviderOf(w, store)
  }

  /**
   The organisations `filterByType` hands to the provider expansion: the kinds
   of provider the lower-cased type parameter names by substring, facility
   providers being the listed organisations that own something.
   */
  function Selected(orgs: seq<Organization>, kind: string, distributions: seq<Distribution>, store: Tables)
    : (r: set<Organization>)
    ensures forall o :: o in r <==>
      ((Contains(Lower(kind), "dataproviders") && DataProvider(o, distributions, store))
      || (Contains(Lower(kind), "serviceproviders") && ServiceProvider(o, distributions, store))
      || (Contains(Lower(kind), "facilitiesproviders") && o in orgs && o.owns.Some?))
  {
    var t := Lower(kind);
    var data := if Contains(t, "dataproviders") then DataProviders(distributions, store) else {};
    var service := if Contains(t, "serviceproviders") then ServiceProviders(distributions, store) else {};
    var facility := if Contains(t, "facilitiesproviders") then set o | o in orgs && o.owns.Some? else {};
    data + service + facility
  }

  /** The publishers of the data products the distributions belong to. */
  function DataProviders(distributions: seq<Distribution>, store: Tables): (r: set<Organization>)
    ensures forall o :: o in r <==> DataProvider(o, distributions, store)
  {
    set d, dp, o | d in distributions && dp in Resolve(store.dataProducts, d.dataProduct)
      && o in Resolve(store.organizations, dp.publisher) :: o
  }

  /** The providers of the web services the distributions are accessed through. */
  function ServiceProviders(distributions: seq<Distribution>, store: Tables): (r: set<Organization>)
    ensures forall o :: o in r <==> ServiceProvider(o, distributions, store)
  {
    set d, w, o | d in distributions && w in Resolve(store.webServices, d.accessService)
      && o in DistributionFilter.ProviderOf(w, store) :: o
  }

  /** Every id in the provider groups `providers` expands the selection into. */
  function GroupIdsOf(groups: seq<Provider>): (r: set<Id>)
    ensures forall id :: id in r <==> exists p :: p in groups && id in GroupIds(p)
  {
    set p, id | p in groups && id in GroupIds(p) :: id
  }

  /**
   `filterByType`: the listed organisations, in order, whose instance id is
   the id of a selected provider or of one of its related providers.
   */
  function TypeFilter(orgs: seq<Organization>, kind: string, distributions: seq<Distribution>, store: Tables,
                      providers: set<Organization> -> seq<Provider>): (r: seq<Organization>)
    ensures IsSubsequence(r, orgs)
    ensures forall o :: o in r <==> (o in orgs
      && exists p :: p in providers(Selected(orgs, kind, distributions, store)) && o.instanceId in GroupIds(p))
  {
    var ids := GroupIdsOf(providers(Selected(orgs, kind, distributions, store)));
    Filter(orgs, (o: Organization) => o.instanceId in ids)
  }

  /** The type parameter is read without regard to letter case. */
  lemma TypeIgnoresCase(orgs: seq<Organization>, kind: string, other: string, distributions: seq<Distribution>, store: Tables,
                        providers: set<Organization> -> seq<Provider>)
    requires EqualsIgnoreCase(kind, other)
    ensures TypeFilter(orgs, kind, distributions, store, providers) == TypeFilter(orgs, other, distributions, store, providers)
  {
    assert Selected(orgs, kind, distributions, store) == Selected(orgs, other, distributions, store);
  }

  // ---------------------------------------------------------------------
  // Exact country
  // ---------------------------------------------------------------------

  /** The addresses of the listed organisations, fetched in one batch. */
  function AddressBatch(orgs: seq<Organization>, store: Tables): (r: map<Id, Address>)
    ensures forall o :: o in orgs && o.address.Some? ==> Lookup(r, o.address.value) == Lookup(store.addresses, o.address.value)
  {
    FetchEntityBatch(AddressKind, store.addresses, OrganizationFilter.AddressIds(orgs)).found
  }

  /** The store's country for `o`, as the batch gives it for a listed organisation. */
  lemma BatchCountry(orgs: seq<Organization>, store: Tables, o: Organization)
    requires o in orgs
    ensures OrganizationFilter.CountryOf(o, AddressBatch(orgs, store)) == OrganizationFilter.CountryOf(o, store.addresses)
  {
    if o.address.Some? {
      assert Lookup(AddressBatch(orgs, store), o.address.value) == Lookup(store.addresses, o.address.value);
    }
  }

  /**
   `filterByCountry`: the organisations, in order, whose resolved address
   has exactly the requested country, letter case included.
   */
  function ExactCountry(orgs: seq<Organization>, country: string, store: Tables): (r: seq<Organization>)
    ensures IsSubsequence(r, orgs)
    ensures forall o :: o in r <==> (o in orgs && OrganizationFilter.CountryOf(o, store.addresses) == Some(country))
  {
    var batch := AddressBatch(orgs, store);
    forall o | o in orgs ensures OrganizationFilter.CountryOf(o, batch) == OrganizationFilter.CountryOf(o, store.addresses) {
      BatchCountry(orgs, store, o);
    }
    Filter(orgs, (o: Organization) => OrganizationFilter.CountryOf(o, AddressBatch(orgs, store)) == Some(country))
  }

  /**
   The general country stage followed by the exact one: a requested country
   with a comma leaves nobody, since no split piece holds a comma; otherwise
   the exact stage alone decides.
   */
  lemma CountryStagesCombined(orgs: seq<Organization>, params: Params, store: Tables)
    requires CountryKey in params
    ensures Contains(params[CountryKey], ",") ==>
      ExactCountry(OrganizationFilter.Country(orgs, params, store.addresses), params[CountryKey], store) == []
    ensures !Contains(params[CountryKey], ",") ==>
      (forall o :: o in ExactCountry(OrganizationFilter.Country(orgs, params, store.addresses), params[CountryKey], store)
        <==> o in ExactCountry(orgs, params[CountryKey], store))
  {
    var c := params[CountryKey];
    var a := OrganizationFilter.Country(orgs, params, store.addresses);
    if Contains(c, ",") {
      forall i | 0 <= i < |a| ensures OrganizationFilter.CountryOf(a[i], AddressBatch(a, store)) != Some(c) {
        assert a[i] in a;
        BatchCountry(a, store, a[i]);
        if OrganizationFilter.CountryOf(a[i], store.addresses) == Some(c) {
          CommaCountryRefused(a[i], store.addresses, c);
        }
      }
      FilterDropsAll(a, (o: Organization) => OrganizationFilter.CountryOf(o, AddressBatch(a, store)) == Some(c));
    } else {
      forall o | OrganizationFilter.CountryOf(o, store.addresses) == Some(c)
        ensures OrganizationFilter.CountryRequested(o, store.addresses, c)
      {
        LowerKeepsChar(c, ',');
        CommaFreeSplit(Lower(c));
      }
    }
  }

  /** An organisation whose country is exactly a list with a comma fails the general country stage for that list. */
  lemma CommaCountryRefused(o: Organization, addresses: map<Id, Address>, c: string)
    requires Contains(c, ",") && OrganizationFilter.CountryOf(o, addresses) == Some(c)
    ensures !OrganizationFilter.CountryRequested(o, addresses, c)
  {
    LowerKeepsChar(c, ',');
  }

  /** A text with no comma is its own comma-split. */
  lemma CommaFreeSplit(s: string)
    requires !Contains(s, ",")
    ensures CommaSet(s) == {s}
  {
    IndexFromContains(s, ",");
  }

  // ---------------------------------------------------------------------
  // Beans and the listing
  // ---------------------------------------------------------------------

  /** The bean of a named organisation, with the country its address has in `addresses`. */
  function Bean(o: Organization, addresses: map<Id, Address>): OrganizationBean
    requires o.legalName.Some?
  {
    OrganizationBean(o.instanceId, o.logo, o.url, Join(";", o.legalName.value), OrganizationFilter.CountryOf(o, addresses))
  }

  predicate Named(o: Organization)
  {
    o.legalName.Some?
  }

  /**
   `convertToOrganizationBeans`: one bean per organisation with a legal name,
   in order; the country comes from one batch of addresses and is what the
   store holds for the organisation's address.
   */
  function ToBeans(orgs: seq<Organization>, store: Tables): (r: seq<OrganizationBean>)
    ensures |r| == |Filter(orgs, Named)|
    ensures forall i :: 0 <= i < |r| ==> r[i].id == Filter(orgs, Named)[i].instanceId
    ensures forall b :: b in r <==> exists o :: o in orgs && o.legalName.Some? && b == Bean(o, store.addresses)
  {
    var batch := AddressBatch(orgs, store);
    var named := Filter(orgs, Named);
    NamedOnly(orgs, named);
    BeansFromBatch(orgs, store, named);
    BeansOfNamed(orgs, store.addresses, named);
    BeansFrom(named, batch)
  }

  /** The beans of a list of named organisations, in order. */
  function BeansFrom(named: seq<Organization>, addresses: map<Id, Address>): (r: seq<OrganizationBean>)
    requires forall i :: 0 <= i < |named| ==> named[i].legalName.Some?
    ensures |r| == |named|
    ensures forall i :: 0 <= i < |r| ==> r[i] == Bean(named[i], addresses)
  {
    seq(|named|, i requires 0 <= i < |named| => Bean(named[i], addresses))
  }

  lemma NamedOnly(orgs: seq<Organization>, named: seq<Organization>)
    requires named == Filter(orgs, Named)
    ensures forall i :: 0 <= i < |named| ==> named[i].legalName.Some? && named[i] in orgs
  {
    forall i | 0 <= i < |named| ensures named[i].legalName.Some? && named[i] in orgs {
      assert named[i] in named;
    }
  }

  lemma BeansFromBatch(orgs: seq<Organization>, store: Tables, named: seq<Organization>)
    requires named == Filter(orgs, Named)
    requires forall i :: 0 <= i < |named| ==> named[i].legalName.Some? && named[i] in orgs
    ensures BeansFrom(named, AddressBatch(orgs, store)) == BeansFrom(named, store.addresses)
  {
    forall i | 0 <= i < |named| ensures Bean(named[i], AddressBatch(orgs, store)) == Bean(named[i], store.addresses) {
      BatchCountry(orgs, store, named[i]);
    }
  }

  lemma BeansOfNamed(orgs: seq<Organization>, addresses: map<Id, Address>, named: seq<Organization>)
    requires named == Filter(orgs, Named)
    requires forall i :: 0 <= i < |named| ==> named[i].legalName.Some? && named[i] in orgs
    ensures forall b :: b in BeansFrom(named, addresses) <==> exists o :: o in orgs && o.legalName.Some? && b == Bean(o, addresses)
  {
    var r := BeansFrom(named, addresses);
    forall b | b in r ensures exists o :: o in orgs && o.legalName.Some? && b == Bean(o, addresses) {
      var i :| 0 <= i < |r| && r[i] == b;
      assert named[i] in named;
    }
    forall b | exists o :: o in orgs && o.legalName.Some? && b == Bean(o, addresses) ensures b in r {
      var o :| o in orgs && o.legalName.Some? && b == Bean(o, addresses);
      assert Named(o);
      var i :| 0 <= i < |named| && named[i] == o;
      assert r[i] == b;
    }
  }

  /** `o` is in the provider group of an organisation of the requested kind. */
  predicate OfType(o: Organization, all: seq<Organization>, kind: string, distributions: seq<Distribution>, store: Tables,
                   providers: set<Organization> -> seq<Provider>)
  {
    exists p :: p in providers(Selected(all, kind, distributions, store)) && o.instanceId in GroupIds(p)
  }

  /**
   The conditions a listed organisation meets to be kept when no id is
   given: of the requested provider type, every full-text term found among
   its fields, and its country among the requested ones and exactly the
   requested text.
   */
  predicate Kept(o: Organization, params: Params, store: Tables, all: seq<Organization>, distributions: seq<Distribution>,
                 providers: set<Organization> -> seq<Provider>)
  {
    && (TypeKey in params ==> OfType(o, all, params[TypeKey], distributions, store, providers))
    && ("q" in params ==> TermsFound(SearchTerms(params["q"]), OrganizationFilter.OrganizationFields(o, store.identifiers)))
    && (CountryKey in params ==>
          OrganizationFilter.CountryRequested(o, store.addresses, params[CountryKey])
          && OrganizationFilter.CountryOf(o, store.addresses) == Some(params[CountryKey]))
  }

  /**
   The organisations the listing keeps when no id is given: provider type,
   then the general organisation filters, then the exact country, each stage
   present only when its parameter is.
   */
  function Filtered(params: Params, store: Tables, all: seq<Organization>, distributions: seq<Distribution>,
                    providers: set<Organization> -> seq<Provider>): (r: seq<Organization>)
    ensures forall o :: o in r <==> o in all && Kept(o, params, store, all, distributions, providers)
    ensures CountryKey in params && Contains(params[CountryKey], ",") ==> r == []
  {
    var typed := if TypeKey in params then TypeFilter(all, params[TypeKey], distributions, store, providers) else all;
    var general := OrganizationFilter.DoFilters(typed, params, store);
    if CountryKey in params then
      var fullText := OrganizationFilter.FullText(typed, params, store.identifiers);
      CountryStagesCombined(fullText, params, store);
      ExactCountry(general, params[CountryKey], store)
    else general
  }

  /**
   `generate`: with an id, the one stored organisation under it and no
   filtering (a missing one is `List.of(null)`, which throws); without, every
   organisation (`all`, the store's `retrieveAll`) through the filters.
   */
  function Generate(params: Params, store: Tables, all: seq<Organization>, distributions: seq<Distribution>,
                    providers: set<Organization> -> seq<Provider>): (r: Outcome<seq<OrganizationBean>>)
    ensures IdKey in params ==> (r.Thrown? <==> params[IdKey] !in store.organizations)
    ensures IdKey in params && r.Ok? ==> (|r.value| <= 1
      && forall b :: b in r.value ==> b.id == store.organizations[params[IdKey]].instanceId)
    ensures IdKey in params && r.Ok? ==> var o := store.organizations[params[IdKey]];
      r.value == if o.legalName.Some? then [Bean(o, store.addresses)] else []
    ensures IdKey !in params ==> r.Ok? && forall b :: b in r.value <==>
      exists o :: o in all && Kept(o, params, store, all, distributions, providers) && o.legalName.Some? && b == Bean(o, store.addresses)
    ensures IdKey !in params && CountryKey in params ==> forall b :: b in r.value ==> b.country == Some(params[CountryKey])
    ensures IdKey !in params && CountryKey in params && Contains(params[CountryKey], ",") ==> r == Ok([])
  {
    if IdKey in params then
      if params[IdKey] in store.organizations then Ok(ToBeans([store.organizations[params[IdKey]]], store))
      else Thrown("NullPointerException")
    else
      var kept := Filtered(params, store, all, distributions, providers);
      var beans := ToBeans(kept, store);
      Ok(beans)
  }
}
