/**
 The filter pipeline over organisations (OrganizationFilterSearch): a
 pre-fetch of the organisations' identifiers and addresses, then a full-text
 stage and a country stage, both working from the pre-fetched snapshot.
 */
module OrganizationFilter {
  import opened Nullable
  import opened JavaString
  import opened Seqs
  import opened Entities
  import opened Prefetch
  import opened Query

  const CountryKey := "country"

  // ---------------------------------------------------------------------
  // Pre-fetch
  // ---------------------------------------------------------------------

  /** The identifiers and addresses an organisation pipeline works from, and the store calls that fetched them. */
  datatype Snapshot = Snapshot(identifiers: map<Id, Identifier>, addresses: map<Id, Address>, requests: seq<Request>)

  function IdentifierIds(orgs: seq<Organization>): set<Id>
  {
    LinkIds(orgs, (o: Organization) => o.identifier)
  }

  /** The address ids of the organisations that have an address. */
  function AddressIds(orgs: seq<Organization>): (r: set<Id>)
    ensures forall o :: o in orgs && o.address.Some? ==> o.address.value in r
  {
    set o | o in orgs && o.address.Some? :: o.address.value
  }

  /**
   `preFetchLinkedEntities`: one batch of identifiers and one of addresses,
   each skipped when no organisation links one.
   */
  function PreFetch(orgs: seq<Organization>, store: Tables): (s: Snapshot)
    ensures |s.requests| <= 2 && NoEmptyRequest(s.requests) && DistinctKinds(s.requests)
    ensures s.identifiers == Restrict(store.identifiers, IdentifierIds(orgs))
    ensures s.addresses == Restrict(store.addresses, AddressIds(orgs))
    ensures forall o :: o in orgs ==> AgreeOn(s.identifiers, store.identifiers, o.identifier)
    ensures forall o :: o in orgs && o.address.Some? ==>
      Lookup(s.addresses, o.address.value) == Lookup(store.addresses, o.address.value)
  {
    var identifiers := FetchEntityBatch(IdentifierKind, store.identifiers, IdentifierIds(orgs));
    var addresses := FetchEntityBatch(AddressKind, store.addresses, AddressIds(orgs));
    LinkedFetched(orgs, store);
    OneCallKinds(identifiers.requests, IdentifierKind);
    OneCallKinds(addresses.requests, AddressKind);
    DistinctKindsAppend(identifiers.requests, addresses.requests);
    Snapshot(identifiers.found, addresses.found, identifiers.requests + addresses.requests)
  }

  /** Restricting the store to the collected ids keeps every identifier and address an organisation links. */
  lemma LinkedFetched(orgs: seq<Organization>, store: Tables)
    ensures forall o :: o in orgs ==> AgreeOn(Restrict(store.identifiers, IdentifierIds(orgs)), store.identifiers, o.identifier)
    ensures forall o :: o in orgs && o.address.Some? ==>
      Lookup(Restrict(store.addresses, AddressIds(orgs)), o.address.value) == Lookup(store.addresses, o.address.value)
  {
    forall o | o in orgs ensures AgreeOn(Restrict(store.identifiers, IdentifierIds(orgs)), store.identifiers, o.identifier) {
      InLinkIds(orgs, (o: Organization) => o.identifier, o, o.identifier);
    }
  }

  // ---------------------------------------------------------------------
  // Full text
  // ---------------------------------------------------------------------

  /** The texts of one identifier: its value, its scheme, and the scheme followed by the value when both are present. */
  function IdentifierFields(i: Identifier): seq<Field>
  {
    TextField(i.value) + TextField(i.kind)
      + (if i.kind.Some? && i.value.Some? then [TextOf(Lower(i.kind.value + i.value.value))] else [])
  }

  /** The fields the full-text stage examines, all by substring: legal names, resolved identifiers, uid. */
  function OrganizationFields(o: Organization, identifiers: map<Id, Identifier>): seq<Field>
  {
    TextFields(o.legalName)
      + FlatMap(Resolve(identifiers, o.identifier), IdentifierFields)
      + TextField(o.uid)
  }

  /** `filterOrganisationsByFullText` */
  function FullText(orgs: seq<Organization>, params: Params, identifiers: map<Id, Identifier>): (r: seq<Organization>)
    ensures "q" !in params ==> r == orgs
    ensures IsSubsequence(r, orgs)
    ensures "q" in params ==>
      forall o :: o in r <==> (o in orgs && TermsFound(SearchTerms(params["q"]), OrganizationFields(o, identifiers)))
  {
    if "q" !in params then IsSubsequenceRefl(orgs); orgs
    else
      var terms := SearchTerms(params["q"]);
      forall o: Organization {
        AllMarkedIff(terms, OrganizationFields(o, identifiers));
      }
      Filter(orgs, (o: Organization) => AllMarked(terms, OrganizationFields(o, identifiers)))
  }

  /** Every field of the list is matched by substring. */
  predicate AllText(fields: seq<Field>)
  {
    forall i :: 0 <= i < |fields| ==> fields[i].TextOf?
  }

  lemma {:induction false} IdentifierFieldsText(ids: seq<Identifier>)
    ensures AllText(FlatMap(ids, IdentifierFields))
  {
    if |ids| > 0 {
      IdentifierFieldsText(ids[1..]);
      assert FlatMap(ids, IdentifierFields) == IdentifierFields(ids[0]) + FlatMap(ids[1..], IdentifierFields);
    }
  }

  /** No field of an organisation is an exact-match field: every term, uid included, is matched by substring. */
  lemma OnlySubstringFields(o: Organization, identifiers: map<Id, Identifier>)
    ensures AllText(OrganizationFields(o, identifiers))
  {
    IdentifierFieldsText(Resolve(identifiers, o.identifier));
  }

  // ---------------------------------------------------------------------
  // Country
  // ---------------------------------------------------------------------

  /** The country of the organisation's address, looked up in `addresses`; None when any link is missing. */
  function CountryOf(o: Organization, addresses: map<Id, Address>): Option<string>
  {
    if o.address.Some? && o.address.value in addresses then addresses[o.address.value].country else None
  }

  /** The country, lower-cased, is one of the lower-cased comma-separated requested countries. */
  predicate CountryRequested(o: Organization, addresses: map<Id, Address>, wanted: string)
  {
    CountryOf(o, addresses).Some? && Lower(CountryOf(o, addresses).value) in CommaSet(Lower(wanted))
  }

  /** `filterOrganisationsByCountry` */
  function Country(orgs: seq<Organization>, params: Params, addresses: map<Id, Address>): (r: seq<Organization>)
    ensures CountryKey !in params ==> r == orgs
    ensures IsSubsequence(r, orgs)
    ensures CountryKey in params ==>
      forall o :: o in r <==> (o in orgs && CountryRequested(o, addresses, params[CountryKey]))
  {
    if CountryKey !in params then IsSubsequenceRefl(orgs); orgs
    else Filter(orgs, (o: Organization) => CountryRequested(o, addresses, params[CountryKey]))
  }

  /** The country stage ignores letter case on both sides. */
  lemma CountryIgnoresCase(o: Organization, p: Organization, addresses: map<Id, Address>, wanted: string, other: string)
    requires CountryOf(o, addresses).Some? && CountryOf(p, addresses).Some?
    requires EqualsIgnoreCase(CountryOf(o, addresses).value, CountryOf(p, addresses).value)
    requires EqualsIgnoreCase(wanted, other)
    ensures CountryRequested(o, addresses, wanted) <==> CountryRequested(p, addresses, other)
  {
  }

  // ---------------------------------------------------------------------
  // Pipeline
  // ---------------------------------------------------------------------

  /** The stages in the order `doFilters` applies them: full text, then country. */
  function Stages(orgs: seq<Organization>, params: Params, identifiers: map<Id, Identifier>, addresses: map<Id, Address>)
    : (r: seq<Organization>)
    ensures forall o :: o in r <==> (o in orgs
      && ("q" in params ==> TermsFound(SearchTerms(params["q"]), OrganizationFields(o, identifiers)))
      && (CountryKey in params ==> CountryRequested(o, addresses, params[CountryKey])))
  {
    Country(FullText(orgs, params, identifiers), params, addresses)
  }

  lemma FullTextTransparent(orgs: seq<Organization>, params: Params, s: map<Id, Identifier>, t: map<Id, Identifier>)
    requires forall o :: o in orgs ==> AgreeOn(s, t, o.identifier)
    ensures FullText(orgs, params, s) == FullText(orgs, params, t)
  {
    if "q" in params {
      var terms := SearchTerms(params["q"]);
      forall i | 0 <= i < |orgs| ensures AllMarked(terms, OrganizationFields(orgs[i], s)) == AllMarked(terms, OrganizationFields(orgs[i], t)) {
        assert orgs[i] in orgs;
        ResolveAgree(s, t, orgs[i].identifier);
      }
      FilterCongruent(orgs, (o: Organization) => AllMarked(terms, OrganizationFields(o, s)),
        (o: Organization) => AllMarked(terms, OrganizationFields(o, t)));
    }
  }

  lemma CountryTransparent(orgs: seq<Organization>, params: Params, s: map<Id, Address>, t: map<Id, Address>)
    requires forall o :: o in orgs && o.address.Some? ==> Lookup(s, o.address.value) == Lookup(t, o.address.value)
    ensures Country(orgs, params, s) == Country(orgs, params, t)
  {
    if CountryKey in params {
      var wanted := params[CountryKey];
      forall i | 0 <= i < |orgs| ensures CountryRequested(orgs[i], s, wanted) == CountryRequested(orgs[i], t, wanted) {
        assert orgs[i] in orgs;
      }
      FilterCongruent(orgs, (o: Organization) => CountryRequested(o, s, wanted),
        (o: Organization) => CountryRequested(o, t, wanted));
    }
  }

  /**
   `doFilters`: working from the pre-fetched identifiers and addresses gives
   what looking every link up in the store would.
   */
  function DoFilters(orgs: seq<Organization>, params: Params, store: Tables): (r: seq<Organization>)
    ensures r == Stages(orgs, params, store.identifiers, store.addresses)
  {
    var s := PreFetch(orgs, store);
    FullTextTransparent(orgs, params, s.identifiers, store.identifiers);
    var a := FullText(orgs, params, store.identifiers);
    CountryTransparent(a, params, s.addresses, store.addresses);
    Country(FullText(orgs, params, s.identifiers), params, s.addresses)
  }
}
