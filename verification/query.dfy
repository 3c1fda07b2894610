/**
 What the filter stages share: request parameters, the collaborators the
 backend calls but does not implement, the normalisation of comma-separated
 keyword lists, and the term-marking scheme of the full-text stages.
 */
module Query {
  import opened Nullable
  import opened JavaString
  import opened Seqs
  import opened Entities

  /** Request parameters, each value as its `toString()`. */
  type Params = map<string, string>

  const NorthernLat := "epos:northernmostLatitude"
  const SouthernLat := "epos:southernmostLatitude"
  const WesternLon := "epos:westernmostLongitude"
  const EasternLon := "epos:easternmostLongitude"

  /** All four corners of a bounding box are present. */
  predicate HasBoundingBox(params: Params)
  {
    NorthernLat in params && SouthernLat in params && WesternLon in params && EasternLon in params
  }

  /**
   The collaborators the filters call without implementing them:
   `bbox` is `reader.read(BBoxToPolygon.transform(parameters))` (None when it
   throws ParseException or yields null), `read` is `WKTReader.read` (None on
   ParseException), `intersects` is JTS `Geometry.intersects`, `providers` is
   `DataServiceProviderGeneration.getProviders`, and `parseDate` is the
   `SimpleDateFormat("yyyy-MM-dd hh:mm:ss")` parse (None on ParseException).
   */
  datatype Collaborators<!G> = Collaborators(
    bbox: Params -> Option<G>,
    read: string -> Option<G>,
    intersects: (G, G) -> bool,
    providers: set<Organization> -> seq<Provider>,
    parseDate: string -> Option<int>)

  /** The values of a comma-separated parameter as a set, exactly as split: `new HashSet<>(Arrays.asList(v.split(",")))`. */
  function CommaSet(v: string): (r: set<string>)
    ensures forall p :: p in r ==> !Contains(p, ",")
  {
    SplitAvoidsDelimiter(v, ",");
    Elems(Split(v, ","))
  }

  /** One keyword as the filters compare it: lower-cased, then trimmed. */
  function NormaliseKeyword(k: string): string
  {
    Trim(Lower(k))
  }

  /** A comma-separated keyword string as the filters read it: split on ",", each piece lower-cased and trimmed. */
  function KeywordList(s: string): (r: seq<string>)
    ensures |r| == |Split(s, ",")|
    ensures forall i :: 0 <= i < |r| ==> r[i] == NormaliseKeyword(Split(s, ",")[i])
  {
    var parts := Split(s, ",");
    seq(|parts|, i requires 0 <= i < |parts| => NormaliseKeyword(parts[i]))
  }

  /** Normalising a normalised keyword changes nothing, so stored and requested keywords meet on equal terms. */
  lemma NormaliseKeywordIdempotent(k: string)
    ensures NormaliseKeyword(NormaliseKeyword(k)) == NormaliseKeyword(k)
  {
    var t := Trim(Lower(k));
    assert Lower(t) == t by {
      forall i | 0 <= i < |t| ensures LowerChar(t[i]) == t[i] {
        var a := FirstNonBlank(Lower(k), 0);
        var b := EndOfNonBlank(Lower(k), a, |Lower(k)|);
        assert t[i] == Lower(k)[a + i];
      }
    }
    TrimIdempotent(Lower(k));
  }

  /** The search terms of a full-text query: the lower-cased query split on ",", not trimmed. */
  function SearchTerms(q: string): set<string>
  {
    Elems(Split(Lower(q), ","))
  }

  // ---------------------------------------------------------------------
  // Full-text term marking
  // ---------------------------------------------------------------------

  /**
   A searchable field of a record: a list of keywords matched exactly, or a
   text (already lower-cased) matched by substring.
   */
  datatype Field = ExactAmong(values: seq<string>) | TextOf(text: string)

  predicate Satisfies(f: Field, term: string)
  {
    match f
    case ExactAmong(values) => term in values
    case TextOf(text) => Contains(text, term)
  }

  /**
   The terms marked true in the `qSMap` after the fields are examined in
   order: a term is marked when the field being examined satisfies it, and a
   mark is never cleared.
   */
  function Marked(terms: set<string>, fields: seq<Field>): (r: set<string>)
    ensures r <= terms
  {
    if |fields| == 0 then {}
    else Marked(terms, fields[..|fields| - 1]) + set t | t in terms && Satisfies(fields[|fields| - 1], t)
  }

  /** `qSMap.values().stream().allMatch(b -> b)` */
  predicate AllMarked(terms: set<string>, fields: seq<Field>)
  {
    Marked(terms, fields) == terms
  }

  /** A term ends up marked exactly when some field satisfies it. */
  lemma {:induction false} MarkedIff(terms: set<string>, fields: seq<Field>, t: string)
    ensures t in Marked(terms, fields) <==> t in terms && exists i :: 0 <= i < |fields| && Satisfies(fields[i], t)
  {
    if |fields| > 0 {
      var init := fields[..|fields| - 1];
      MarkedIff(terms, init, t);
      if exists i :: 0 <= i < |fields| && Satisfies(fields[i], t) {
        var i :| 0 <= i < |fields| && Satisfies(fields[i], t);
        if i < |fields| - 1 {
          assert Satisfies(init[i], t);
        }
      }
      forall i | 0 <= i < |init| && Satisfies(init[i], t)
        ensures Satisfies(fields[i], t)
      {
        assert init[i] == fields[i];
      }
    }
  }

  /** Every search term is satisfied by at least one of the fields. */
  predicate TermsFound(terms: set<string>, fields: seq<Field>)
  {
    forall t :: t in terms ==> exists i :: 0 <= i < |fields| && Satisfies(fields[i], t)
  }

  /** A record passes a full-text stage exactly when every search term is satisfied by one of its fields. */
  lemma AllMarkedIff(terms: set<string>, fields: seq<Field>)
    ensures AllMarked(terms, fields) <==> TermsFound(terms, fields)
  {
    forall t {
      MarkedIff(terms, fields, t);
    }
  }

  /** A nullable keyword string as a searchable field: its keyword list, matched exactly. */
  function KeywordField(kw: Option<string>): seq<Field>
  {
    if kw.Some? then [ExactAmong(KeywordList(kw.value))] else []
  }

  /** A nullable text as a searchable field, lower-cased and matched by substring. */
  function TextField(s: Option<string>): seq<Field>
  {
    if s.Some? then [TextOf(Lower(s.value))] else []
  }

  /** Each text of a nullable list as a searchable field. */
  function TextFields(xs: Option<seq<string>>): seq<Field>
  {
    seq(|Items(xs)|, i requires 0 <= i < |Items(xs)| => TextOf(Lower(Items(xs)[i])))
  }

  /** Two keyword lists share a keyword: `!Collections.disjoint(a, b)`. */
  predicate Share(a: seq<string>, b: seq<string>)
  {
    exists k :: k in a && k in b
  }

  /** A location whose geometry is present, reads, and intersects the box. */
  predicate Hits<G>(env: Collaborators<G>, box: G, loc: Location)
  {
    loc.wkt.Some? && env.read(loc.wkt.value).Some? && env.intersects(box, env.read(loc.wkt.value).value)
  }

  // ---------------------------------------------------------------------
  // Provider groups
  // ---------------------------------------------------------------------

  /** A provider's own id followed by the ids of its related data providers and related service providers. */
  function GroupIds(p: Provider): (r: seq<Id>)
    ensures |r| == 1 + |p.relatedDataProviders| + |p.relatedServiceProviders|
    ensures r[0] == p.instanceId
  {
    [p.instanceId]
      + seq(|p.relatedDataProviders|, i requires 0 <= i < |p.relatedDataProviders| => p.relatedDataProviders[i].instanceId)
      + seq(|p.relatedServiceProviders|, i requires 0 <= i < |p.relatedServiceProviders| => p.relatedServiceProviders[i].instanceId)
  }

  /**
   `buildProviderIds(orgs, null)`: every id in the provider groups of each
   organisation, each organisation expanded on its own (`getProviders(List.of(org))`).
   */
  function ProviderIds(providers: set<Organization> -> seq<Provider>, orgs: seq<Organization>): set<Id>
  {
    set o, p, id | o in orgs && p in providers({o}) && id in GroupIds(p) :: id
  }
}
