/**
 Batch retrieval from the metadata store. An operation collects the ids it
 will need, asks the store for each entity type once per round
 (`retrieveBunch`), and works from the resulting snapshot instead of looking
 links up one by one. Each call to the store is recorded as a `Request`, so
 that the number of round trips and the ids asked for can be stated.
 */
module Prefetch {
  import opened Nullable
  import opened Entities

  datatype Kind =
    | AddressKind | IdentifierKind | LocationKind | TemporalKind | OrganizationKind | CategoryKind
    | ContactPointKind | PersonKind | DocumentationKind | OperationKind | MappingKind
    | DistributionKind | WebServiceKind

  /** One `retrieveBunch` call. */
  datatype Request = Request(kind: Kind, ids: set<Id>)

  /** What one retrieval round of one entity type produced. */
  datatype Batch<T> = Batch(found: map<Id, T>, requests: seq<Request>)

  /** The stored entities among `ids`, keyed by instance id. */
  function Restrict<T>(table: map<Id, T>, ids: set<Id>): (r: map<Id, T>)
    ensures forall k :: k in r <==> k in ids && k in table
    ensures forall k :: k in r ==> r[k] == table[k]
  {
    map k | k in ids && k in table :: table[k]
  }

  /**
   `fetchEntityBatch(kind, ids)`: an empty id set gives an empty map without a
   call to the store; otherwise one call returns the stored entities among the ids.
   */
  function FetchEntityBatch<T>(kind: Kind, table: map<Id, T>, ids: set<Id>): (b: Batch<T>)
    ensures b.found == Restrict(table, ids)
    ensures ids == {} <==> b.requests == []
    ensures forall i :: 0 <= i < |b.requests| ==> b.requests[i] == Request(kind, ids)
    ensures OneCall(b.requests, kind)
    ensures |b.requests| <= 1 && NoEmptyRequest(b.requests)
  {
    if ids == {} then Batch(map[], []) else Batch(Restrict(table, ids), [Request(kind, ids)])
  }

  /** `map.putAll(more)`: entries of `more` replace those under the same key. */
  function PutAll<T>(m: map<Id, T>, more: map<Id, T>): (r: map<Id, T>)
    ensures r.Keys == m.Keys + more.Keys
    ensures forall k :: k in more ==> r[k] == more[k]
    ensures forall k :: k in m && k !in more ==> r[k] == m[k]
  {
    m + more
  }

  /** Two rounds against the same store give what one round for all the ids would. */
  lemma RestrictTwice<T>(table: map<Id, T>, a: set<Id>, b: set<Id>)
    ensures PutAll(Restrict(table, a), Restrict(table, b)) == Restrict(table, a + b)
  {
    var lhs := PutAll(Restrict(table, a), Restrict(table, b));
    assert forall k :: k in lhs ==> lhs[k] == table[k];
  }

  /** Merging a snapshot table into itself changes nothing. */
  lemma PutAllIdempotent<T>(m: map<Id, T>)
    ensures PutAll(m, m) == m
  {
  }

  /** No request in the trace is empty: every call to the store asks for at least one id. */
  predicate NoEmptyRequest(rs: seq<Request>)
  {
    forall i :: 0 <= i < |rs| ==> rs[i].ids != {}
  }

  /** A trace of two parts makes no empty request exactly when neither part does. */
  lemma NoEmptyAppend(a: seq<Request>, b: seq<Request>)
    ensures NoEmptyRequest(a + b) <==> NoEmptyRequest(a) && NoEmptyRequest(b)
  {
    if NoEmptyRequest(a + b) {
      forall i | 0 <= i < |a| ensures a[i].ids != {} {
        assert a[i] == (a + b)[i];
      }
      forall i | 0 <= i < |b| ensures b[i].ids != {} {
        assert b[i] == (a + b)[|a| + i];
      }
    }
    if NoEmptyRequest(a) && NoEmptyRequest(b) {
      forall i | 0 <= i < |a + b| ensures (a + b)[i].ids != {} {
        if i >= |a| { assert (a + b)[i] == b[i - |a|]; }
      }
    }
  }

  /** The ids requested for entities of type `k`, over the whole trace. */
  function RequestedIds(rs: seq<Request>, k: Kind): (r: set<Id>)
    ensures forall id :: id in r <==> exists i :: 0 <= i < |rs| && rs[i].kind == k && id in rs[i].ids
  {
    if |rs| == 0 then {}
    else
      var rest := RequestedIds(rs[1..], k);
      assert forall id :: id in rest <==> exists i :: 1 <= i < |rs| && rs[i].kind == k && id in rs[i].ids by {
        forall id | id in rest ensures exists i :: 1 <= i < |rs| && rs[i].kind == k && id in rs[i].ids {
          var j :| 0 <= j < |rs[1..]| && rs[1..][j].kind == k && id in rs[1..][j].ids;
          assert rs[j + 1] == rs[1..][j];
        }
      }
      (if rs[0].kind == k then rs[0].ids else {}) + rest
  }

  /** The ids a list of entities links to through one field (`forEach(le -> ids.add(le.getInstanceId()))`). */
  function LinkIds<T>(xs: seq<T>, f: T -> Links): (r: set<Id>)
    ensures forall j, i :: 0 <= j < |xs| && 0 <= i < |Items(f(xs[j]))| ==> Items(f(xs[j]))[i] in r
    ensures forall id :: id in r ==> exists j :: 0 <= j < |xs| && id in Items(f(xs[j]))
  {
    var r := set j, id | 0 <= j < |xs| && id in Items(f(xs[j])) :: id;
    assert forall j, i :: 0 <= j < |xs| && 0 <= i < |Items(f(xs[j]))| ==> Items(f(xs[j]))[i] in r by {
      forall j, i | 0 <= j < |xs| && 0 <= i < |Items(f(xs[j]))| ensures Items(f(xs[j]))[i] in r {
        var id := Items(f(xs[j]))[i];
        assert id in Items(f(xs[j]));
      }
    }
    r
  }

  /** The ids the entities of a fetched table link to through one field. */
  function ValueLinkIds<T>(m: map<Id, T>, f: T -> Links): (r: set<Id>)
    ensures forall k, i :: k in m && 0 <= i < |Items(f(m[k]))| ==> Items(f(m[k]))[i] in r
    ensures forall id :: id in r ==> exists k :: k in m && id in Items(f(m[k]))
  {
    var r := set k, id | k in m && id in Items(f(m[k])) :: id;
    assert forall k, i :: k in m && 0 <= i < |Items(f(m[k]))| ==> Items(f(m[k]))[i] in r by {
      forall k, i | k in m && 0 <= i < |Items(f(m[k]))| ensures Items(f(m[k]))[i] in r {
        var id := Items(f(m[k]))[i];
        assert id in Items(f(m[k]));
      }
    }
    r
  }

  /** Every link of a listed entity is among the collected ids. */
  lemma InLinkIds<T>(xs: seq<T>, f: T -> Links, x: T, links: Links)
    requires x in xs && f(x) == links
    ensures forall i :: 0 <= i < |Items(links)| ==> Items(links)[i] in LinkIds(xs, f)
  {
    var j :| 0 <= j < |xs| && xs[j] == x;
  }

  /** Every link of a fetched entity is among the collected ids. */
  lemma InValueLinkIds<T>(m: map<Id, T>, f: T -> Links, k: Id, links: Links)
    requires k in m && f(m[k]) == links
    ensures forall i :: 0 <= i < |Items(links)| ==> Items(links)[i] in ValueLinkIds(m, f)
  {
  }

  /** The calls of a round's batches, in the order they are made. */
  function Trace(parts: seq<seq<Request>>): (r: seq<Request>)
    requires forall i :: 0 <= i < |parts| ==> |parts[i]| <= 1 && NoEmptyRequest(parts[i])
    ensures |r| <= |parts| && NoEmptyRequest(r)
  {
    if |parts| == 0 then []
    else
      var rest := Trace(parts[1..]);
      NoEmptyAppend(parts[0], rest);
      parts[0] + rest
  }

  /** The instance ids the store holds for one entity type. */
  function Stored(t: Tables, k: Kind): set<Id>
  {
    match k
    case AddressKind => t.addresses.Keys
    case IdentifierKind => t.identifiers.Keys
    case LocationKind => t.locations.Keys
    case TemporalKind => t.temporals.Keys
    case OrganizationKind => t.organizations.Keys
    case CategoryKind => t.categories.Keys
    case ContactPointKind => t.contactPoints.Keys
    case PersonKind => t.persons.Keys
    case DocumentationKind => t.documentations.Keys
    case OperationKind => t.operations.Keys
    case MappingKind => t.mappings.Keys
    case DistributionKind => t.distributions.Keys
    case WebServiceKind => t.webServices.Keys
  }

  /** A link among the fetched ids resolves in the snapshot exactly as it does in the store. */
  lemma RestrictAgrees<T>(table: map<Id, T>, ids: set<Id>, links: Links)
    requires forall i :: 0 <= i < |Items(links)| ==> Items(links)[i] in ids
    ensures AgreeOn(Restrict(table, ids), table, links)
  {
  }

  /**
   A second round for the ids the first round did not find completes the first:
   together they hold every stored entity among all the ids.
   */
  lemma SecondRound<T>(table: map<Id, T>, first: set<Id>, wanted: set<Id>)
    ensures PutAll(Restrict(table, first), Restrict(table, wanted - Restrict(table, first).Keys)) == Restrict(table, first + wanted)
  {
    RestrictTwice(table, first, wanted - Restrict(table, first).Keys);
    assert first + (wanted - Restrict(table, first).Keys) == first + wanted;
  }

  /** Each entity type is asked for at most once in a round. */
  predicate DistinctKinds(rs: seq<Request>)
  {
    forall i, j :: 0 <= i < j < |rs| ==> rs[i].kind != rs[j].kind
  }

  function Kinds(rs: seq<Request>): (r: set<Kind>)
    ensures forall i :: 0 <= i < |rs| ==> rs[i].kind in r
    ensures forall k :: k in r ==> exists i :: 0 <= i < |rs| && rs[i].kind == k
  {
    set i | 0 <= i < |rs| :: rs[i].kind
  }

  /** Two rounds asking for different entity types still ask for each type once. */
  lemma DistinctKindsAppend(a: seq<Request>, b: seq<Request>)
    requires DistinctKinds(a) && DistinctKinds(b) && Kinds(a) * Kinds(b) == {}
    ensures DistinctKinds(a + b)
    ensures Kinds(a + b) == Kinds(a) + Kinds(b)
  {
    forall i, j | 0 <= i < j < |a + b| ensures (a + b)[i].kind != (a + b)[j].kind {
      if j < |a| {
        assert (a + b)[i] == a[i] && (a + b)[j] == a[j];
      } else if i >= |a| {
        assert (a + b)[i] == b[i - |a|] && (a + b)[j] == b[j - |a|];
      } else {
        assert (a + b)[i] == a[i] && (a + b)[j] == b[j - |a|];
        assert a[i].kind in Kinds(a) && a[i].kind !in Kinds(a) * Kinds(b);
        assert b[j - |a|].kind in Kinds(b);
      }
    }
    forall k | k in Kinds(a + b) ensures k in Kinds(a) + Kinds(b) {
      var i :| 0 <= i < |a + b| && (a + b)[i].kind == k;
      if i >= |a| {
        assert (a + b)[i] == b[i - |a|];
      }
    }
    forall k | k in Kinds(a) + Kinds(b) ensures k in Kinds(a + b) {
      if k in Kinds(b) {
        var i :| 0 <= i < |b| && b[i].kind == k;
        assert (a + b)[|a| + i] == b[i];
      } else {
        var i :| 0 <= i < |a| && a[i].kind == k;
        assert (a + b)[i] == a[i];
      }
    }
  }

  /** At most one call, for entities of type `k`, asking for at least one id. */
  predicate OneCall(rs: seq<Request>, k: Kind)
  {
    |rs| <= 1 && forall r :: r in rs ==> r.kind == k && r.ids != {}
  }

  lemma OneCallKinds(rs: seq<Request>, k: Kind)
    requires OneCall(rs, k)
    ensures DistinctKinds(rs) && Kinds(rs) <= {k}
  {
    forall x | x in Kinds(rs) ensures x == k {
      var i :| 0 <= i < |rs| && rs[i].kind == x;
      assert rs[i] in rs;
    }
  }

  /** The ids requested over a trace are those of its parts. */
  lemma {:induction false} RequestedIdsAppend(a: seq<Request>, b: seq<Request>, k: Kind)
    ensures RequestedIds(a + b, k) == RequestedIds(a, k) + RequestedIds(b, k)
  {
    var ab := RequestedIds(a + b, k);
    forall id | id in ab ensures id in RequestedIds(a, k) + RequestedIds(b, k) {
      var i :| 0 <= i < |a + b| && (a + b)[i].kind == k && id in (a + b)[i].ids;
      if i >= |a| {
        assert (a + b)[i] == b[i - |a|];
      } else {
        assert (a + b)[i] == a[i];
      }
    }
    forall id | id in RequestedIds(a, k) ensures id in ab {
      var i :| 0 <= i < |a| && a[i].kind == k && id in a[i].ids;
      assert (a + b)[i] == a[i];
    }
    forall id | id in RequestedIds(b, k) ensures id in ab {
      var i :| 0 <= i < |b| && b[i].kind == k && id in b[i].ids;
      assert (a + b)[|a| + i] == b[i];
    }
  }

  /**
   No id the store holds is asked for twice: within a round each type is asked
   for once, and a follow-up round asks only for ids the first round did not find.
   */
  lemma NeverTwice(first: seq<Request>, second: seq<Request>, store: Tables)
    requires DistinctKinds(first) && DistinctKinds(second)
    requires forall i, j :: 0 <= i < |first| && 0 <= j < |second| && first[i].kind == second[j].kind ==>
      first[i].ids * second[j].ids * Stored(store, first[i].kind) == {}
    ensures forall i, j :: 0 <= i < j < |first + second| && (first + second)[i].kind == (first + second)[j].kind ==>
      (first + second)[i].ids * (first + second)[j].ids * Stored(store, (first + second)[i].kind) == {}
  {
    var rs := first + second;
    forall i, j | 0 <= i < j < |rs| && rs[i].kind == rs[j].kind
      ensures rs[i].ids * rs[j].ids * Stored(store, rs[i].kind) == {}
    {
      assert i < |first| && j >= |first|;
      assert rs[j] == second[j - |first|];
    }
  }

  /** Every entry of `a` is an entry of `b`. */
  ghost predicate SubMap<T>(a: map<Id, T>, b: map<Id, T>)
  {
    forall k :: k in a ==> k in b && a[k] == b[k]
  }

  /** Every entity of the snapshot is the store's entity under the same id. */
  ghost predicate SubTables(s: Tables, t: Tables)
  {
    && SubMap(s.addresses, t.addresses) && SubMap(s.identifiers, t.identifiers) && SubMap(s.locations, t.locations)
    && SubMap(s.temporals, t.temporals) && SubMap(s.organizations, t.organizations) && SubMap(s.categories, t.categories)
    && SubMap(s.contactPoints, t.contactPoints) && SubMap(s.persons, t.persons) && SubMap(s.documentations, t.documentations)
    && SubMap(s.operations, t.operations) && SubMap(s.mappings, t.mappings) && SubMap(s.distributions, t.distributions)
    && SubMap(s.webServices, t.webServices) && SubMap(s.dataProducts, t.dataProducts)
  }
}
