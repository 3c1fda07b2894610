/**
 The filter pipeline over facilities (FacilityFilterSearch): a pre-fetch of
 the facilities' locations, then six stages in a fixed order. Two stages are
 placeholders in the source (organisations, equipment type) and keep every
 facility.
 */
module FacilityFilter {
  import opened Nullable
  import opened Seqs
  import opened Entities
  import opened Prefetch
  import opened Query

  const FacilityTypesKey := "facilitytypes"
  const EquipmentTypesKey := "equipmenttypes"

  // ---------------------------------------------------------------------
  // Full text and keywords
  // ---------------------------------------------------------------------

  /** The fields the full-text stage examines: keywords exactly, then title, description and uid by substring. */
  function FacilityFields(f: Facility): seq<Field>
  {
    KeywordField(f.keywords) + TextField(f.title) + TextField(f.description) + TextField(f.uid)
  }

  /** `filterFacilityByFullText` */
  function FullText(fs: seq<Facility>, params: Params): (r: seq<Facility>)
    ensures "q" !in params ==> r == fs
    ensures "q" in params ==>
      forall f :: f in r <==> (f in fs && TermsFound(SearchTerms(params["q"]), FacilityFields(f)))
  {
    if "q" !in params then fs
    else
      var terms := SearchTerms(params["q"]);
      forall f: Facility {
        AllMarkedIff(terms, FacilityFields(f));
      }
      Filter(fs, (f: Facility) => AllMarked(terms, FacilityFields(f)))
  }

  /** `filterFacilityByKeywords` */
  function Keywords(fs: seq<Facility>, params: Params): (r: seq<Facility>)
    ensures "keywords" !in params ==> r == fs
    ensures IsSubsequence(r, fs)
    ensures "keywords" in params ==>
      forall f :: f in r <==> (f in fs && f.keywords.Some?
        && exists k :: k in KeywordList(f.keywords.value) && k in KeywordList(params["keywords"]))
  {
    if "keywords" !in params then IsSubsequenceRefl(fs); fs
    else Filter(fs, (f: Facility) => f.keywords.Some? && Share(KeywordList(f.keywords.value), KeywordList(params["keywords"])))
  }

  // ---------------------------------------------------------------------
  // Bounding box
  // ---------------------------------------------------------------------

  /**
   The `anyMatch` over a facility's resolved locations as written: the
   locations are read in order, a parse failure reads as no match, and a
   location without geometry makes the reader dereference null, which only
   a `ParseException` handler stands between and so escapes the stage.
   */
  function ScanAsWritten<G>(env: Collaborators<G>, box: G, locs: seq<Location>): (r: Outcome<bool>)
    ensures r.Ok? && r.value ==> exists i :: 0 <= i < |locs| && Hits(env, box, locs[i])
    ensures r.Ok? && !r.value ==> forall i :: 0 <= i < |locs| ==> locs[i].wkt.Some? && !Hits(env, box, locs[i])
    ensures r.Thrown? <==> NullBeforeHit(env, box, locs)
  {
    if |locs| == 0 then Ok(false)
    else if locs[0].wkt.None? then Thrown("NullPointerException")
    else if Hits(env, box, locs[0]) then Ok(true)
    else
      var rest := ScanAsWritten(env, box, locs[1..]);
      NullBeforeHitStep(env, box, locs);
      ScanStep(env, box, locs, rest);
      rest
  }

  /** Some location lacks a geometry, and every location before it has one that misses the box. */
  predicate NullBeforeHit<G>(env: Collaborators<G>, box: G, locs: seq<Location>)
  {
    exists i :: 0 <= i < |locs| && locs[i].wkt.None?
      && forall j :: 0 <= j < i ==> locs[j].wkt.Some? && !Hits(env, box, locs[j])
  }

  lemma NullBeforeHitStep<G>(env: Collaborators<G>, box: G, locs: seq<Location>)
    requires |locs| > 0 && locs[0].wkt.Some? && !Hits(env, box, locs[0])
    ensures NullBeforeHit(env, box, locs) <==> NullBeforeHit(env, box, locs[1..])
  {
    if NullBeforeHit(env, box, locs[1..]) {
      var k :| 0 <= k < |locs[1..]| && locs[1..][k].wkt.None?
        && forall j :: 0 <= j < k ==> locs[1..][j].wkt.Some? && !Hits(env, box, locs[1..][j]);
      assert locs[k + 1].wkt.None?;
      forall j | 0 <= j < k + 1 ensures locs[j].wkt.Some? && !Hits(env, box, locs[j]) {
        if j > 0 {
          assert locs[j] == locs[1..][j - 1];
        }
      }
    }
    if NullBeforeHit(env, box, locs) {
      var i :| 0 <= i < |locs| && locs[i].wkt.None?
        && forall j :: 0 <= j < i ==> locs[j].wkt.Some? && !Hits(env, box, locs[j]);
      assert locs[1..][i - 1].wkt.None?;
      forall j | 0 <= j < i - 1 ensures locs[1..][j].wkt.Some? && !Hits(env, box, locs[1..][j]) {
        assert locs[1..][j] == locs[j + 1];
      }
    }
  }

  lemma ScanStep<G>(env: Collaborators<G>, box: G, locs: seq<Location>, rest: Outcome<bool>)
    requires |locs| > 0 && locs[0].wkt.Some? && !Hits(env, box, locs[0])
    requires rest.Ok? && rest.value ==> exists i :: 0 <= i < |locs[1..]| && Hits(env, box, locs[1..][i])
    requires rest.Ok? && !rest.value ==> forall i :: 0 <= i < |locs[1..]| ==> locs[1..][i].wkt.Some? && !Hits(env, box, locs[1..][i])
    ensures rest.Ok? && rest.value ==> exists i :: 0 <= i < |locs| && Hits(env, box, locs[i])
    ensures rest.Ok? && !rest.value ==> forall i :: 0 <= i < |locs| ==> locs[i].wkt.Some? && !Hits(env, box, locs[i])
  {
    if rest.Ok? && rest.value {
      var k :| 0 <= k < |locs[1..]| && Hits(env, box, locs[1..][k]);
      assert locs[k + 1] == locs[1..][k];
    }
    if rest.Ok? && !rest.value {
      forall i | 0 <= i < |locs| ensures locs[i].wkt.Some? && !Hits(env, box, locs[i]) {
        if i > 0 {
          assert locs[i] == locs[1..][i - 1];
        }
      }
    }
  }

  /** Some location of the facility, looked up in `locations`, hits the box. */
  predicate FacilityHit<G>(env: Collaborators<G>, box: G, f: Facility, locations: map<Id, Location>)
  {
    exists loc :: loc in Resolve(locations, f.spatialExtent) && Hits(env, box, loc)
  }

  /** The scan of one facility escapes with a null dereference. */
  predicate ScanThrows<G>(env: Collaborators<G>, box: G, f: Facility, locations: map<Id, Location>)
  {
    f.spatialExtent.Some? && ScanAsWritten(env, box, Resolve(locations, f.spatialExtent)).Thrown?
  }

  /**
   `filterFacilityByBoundingBox` with a location lacking geometry read as no
   match, as the data-product bounding-box stage does.
   */
  function BoundingBox<G>(fs: seq<Facility>, params: Params, locations: map<Id, Location>, env: Collaborators<G>)
    : (r: seq<Facility>)
    ensures !HasBoundingBox(params) || env.bbox(params).None? ==> r == fs
    ensures IsSubsequence(r, fs)
    ensures HasBoundingBox(params) && env.bbox(params).Some? ==>
      forall f :: f in r <==> (f in fs && FacilityHit(env, env.bbox(params).value, f, locations))
  {
    if !HasBoundingBox(params) || env.bbox(params).None? then IsSubsequenceRefl(fs); fs
    else Filter(fs, (f: Facility) => FacilityHit(env, env.bbox(params).value, f, locations))
  }

  /** `filterFacilityByBoundingBox` as written: one facility whose scan reaches a location without geometry fails the stage. */
  function BoundingBoxAsWritten<G>(fs: seq<Facility>, params: Params, locations: map<Id, Location>, env: Collaborators<G>)
    : (r: Outcome<seq<Facility>>)
    ensures !HasBoundingBox(params) || env.bbox(params).None? ==> r == Ok(fs)
    ensures r.Thrown? <==> (HasBoundingBox(params) && env.bbox(params).Some?
      && exists i :: 0 <= i < |fs| && ScanThrows(env, env.bbox(params).value, fs[i], locations))
    ensures r.Ok? ==> r.value == BoundingBox(fs, params, locations, env)
    decreases |fs|
  {
    if !HasBoundingBox(params) || env.bbox(params).None? then Ok(fs)
    else if |fs| == 0 then Ok([])
    else
      var box := env.bbox(params).value;
      var f := fs[0];
      var head: Outcome<bool> :=
        if f.spatialExtent.Some? then ScanAsWritten(env, box, Resolve(locations, f.spatialExtent)) else Ok(false);
      var rest := BoundingBoxAsWritten(fs[1..], params, locations, env);
      ScanThrowsStep(env, box, fs, locations);
      if head.Thrown? then Thrown(head.exception)
      else if rest.Thrown? then rest
      else
        assert head.value == FacilityHit(env, box, f, locations) by {
          if head.value {
            var locs := Resolve(locations, f.spatialExtent);
            var i :| 0 <= i < |locs| && Hits(env, box, locs[i]);
          }
        }
        Ok(if head.value then [f] + rest.value else rest.value)
  }

  lemma ScanThrowsStep<G>(env: Collaborators<G>, box: G, fs: seq<Facility>, locations: map<Id, Location>)
    requires |fs| > 0
    ensures (exists i :: 0 <= i < |fs| && ScanThrows(env, box, fs[i], locations))
      <==> ScanThrows(env, box, fs[0], locations) || exists i :: 0 <= i < |fs[1..]| && ScanThrows(env, box, fs[1..][i], locations)
  {
    if exists i :: 0 <= i < |fs| && ScanThrows(env, box, fs[i], locations) {
      var i :| 0 <= i < |fs| && ScanThrows(env, box, fs[i], locations);
      if i > 0 {
        assert fs[1..][i - 1] == fs[i];
      }
    }
    if exists i :: 0 <= i < |fs[1..]| && ScanThrows(env, box, fs[1..][i], locations) {
      var i :| 0 <= i < |fs[1..]| && ScanThrows(env, box, fs[1..][i], locations);
      assert fs[i + 1] == fs[1..][i];
    }
  }

  /**
   A facility whose one location has no geometry, searched with a box: as
   written the stage fails; corrected, the facility is dropped.
   */
  lemma BoundingBoxMissingGeometry<G>(params: Params, env: Collaborators<G>)
    requires HasBoundingBox(params) && env.bbox(params).Some?
    ensures var f := Facility("f", None, None, None, None, None, Some(["l"]));
      var locations := map["l" := Location("l", None)];
      && BoundingBoxAsWritten([f], params, locations, env) == Thrown("NullPointerException")
      && BoundingBox([f], params, locations, env) == []
  {
    var f := Facility("f", None, None, None, None, None, Some(["l"]));
    var locations := map["l" := Location("l", None)];
    assert Resolve(locations, f.spatialExtent) == [Location("l", None)];
    assert !FacilityHit(env, env.bbox(params).value, f, locations);
  }

  // ---------------------------------------------------------------------
  // Facility type
  // ---------------------------------------------------------------------

  /** Two categories with a uid share it. */
  predicate DuplicateUid(cats: seq<Category>)
  {
    exists i, j :: 0 <= i < j < |cats| && cats[i].uid.Some? && cats[i].uid == cats[j].uid
  }

  /**
   `categories.stream().filter(uid != null).collect(toMap(uid, instanceId))`:
   the map from category uid to instance id, which fails with an
   `IllegalStateException` when two categories share a uid.
   */
  function UidIndex(cats: seq<Category>): (r: Outcome<map<string, Id>>)
    ensures r.Thrown? <==> DuplicateUid(cats)
    ensures r.Ok? ==> forall i :: 0 <= i < |cats| && cats[i].uid.Some? ==>
      cats[i].uid.value in r.value && r.value[cats[i].uid.value] == cats[i].instanceId
    ensures r.Ok? ==> forall u :: u in r.value ==> exists i :: 0 <= i < |cats| && cats[i].uid == Some(u)
  {
    if |cats| == 0 then Ok(map[])
    else
      var rest := UidIndex(cats[1..]);
      DuplicateUidStep(cats);
      if rest.Thrown? then rest
      else if cats[0].uid.None? then
        assert forall u :: u in rest.value ==> exists i :: 0 <= i < |cats| && cats[i].uid == Some(u) by {
          forall u | u in rest.value ensures exists i :: 0 <= i < |cats| && cats[i].uid == Some(u) {
            var i :| 0 <= i < |cats[1..]| && cats[1..][i].uid == Some(u);
            assert cats[i + 1] == cats[1..][i];
          }
        }
        rest
      else if cats[0].uid.value in rest.value then
        var i :| 0 <= i < |cats[1..]| && cats[1..][i].uid == cats[0].uid;
        assert cats[i + 1] == cats[1..][i];
        Thrown("IllegalStateException")
      else
        var m := rest.value[cats[0].uid.value := cats[0].instanceId];
        assert forall u :: u in m ==> exists i :: 0 <= i < |cats| && cats[i].uid == Some(u) by {
          forall u | u in m ensures exists i :: 0 <= i < |cats| && cats[i].uid == Some(u) {
            if u != cats[0].uid.value {
              var i :| 0 <= i < |cats[1..]| && cats[1..][i].uid == Some(u);
              assert cats[i + 1] == cats[1..][i];
            }
          }
        }
        assert forall i :: 0 <= i < |cats| && cats[i].uid.Some? ==> cats[i].uid.value in m && m[cats[i].uid.value] == cats[i].instanceId by {
          forall i | 0 <= i < |cats| && cats[i].uid.Some? ensures cats[i].uid.value in m && m[cats[i].uid.value] == cats[i].instanceId {
            if i > 0 {
              assert cats[i] == cats[1..][i - 1];
            }
          }
        }
        Ok(m)
  }

  lemma DuplicateUidStep(cats: seq<Category>)
    requires |cats| > 0
    ensures DuplicateUid(cats) <==> (DuplicateUid(cats[1..])
      || (cats[0].uid.Some? && exists j :: 0 <= j < |cats[1..]| && cats[1..][j].uid == cats[0].uid))
  {
    if DuplicateUid(cats) {
      var i, j :| 0 <= i < j < |cats| && cats[i].uid.Some? && cats[i].uid == cats[j].uid;
      if i > 0 {
        assert cats[1..][i - 1] == cats[i] && cats[1..][j - 1] == cats[j];
      } else {
        assert cats[1..][j - 1] == cats[j];
      }
    }
    if DuplicateUid(cats[1..]) {
      var i, j :| 0 <= i < j < |cats[1..]| && cats[1..][i].uid.Some? && cats[1..][i].uid == cats[1..][j].uid;
      assert cats[i + 1] == cats[1..][i] && cats[j + 1] == cats[1..][j];
    }
    if cats[0].uid.Some? && exists j :: 0 <= j < |cats[1..]| && cats[1..][j].uid == cats[0].uid {
      var j :| 0 <= j < |cats[1..]| && cats[1..][j].uid == cats[0].uid;
      assert cats[j + 1] == cats[1..][j];
    }
  }

  /** The facility's type uid names a category whose instance id was requested. */
  predicate TypeRequested(f: Facility, cats: seq<Category>, wanted: set<Id>)
  {
    f.kind.Some? && exists c :: c in cats && c.uid == f.kind && c.instanceId in wanted
  }

  /**
   `filterByFacilityType`: a facility is kept when its type uid maps to the
   instance id of a requested category; a facility without a type is dropped.
   */
  function FacilityType(fs: seq<Facility>, params: Params, cats: seq<Category>): (r: Outcome<seq<Facility>>)
    ensures FacilityTypesKey !in params ==> r == Ok(fs)
    ensures FacilityTypesKey in params ==> (r.Thrown? <==> DuplicateUid(cats))
    ensures r.Ok? ==> IsSubsequence(r.value, fs)
    ensures FacilityTypesKey in params && r.Ok? ==>
      forall f :: f in r.value <==> (f in fs && TypeRequested(f, cats, CommaSet(params[FacilityTypesKey])))
  {
    if FacilityTypesKey !in params then IsSubsequenceRefl(fs); Ok(fs)
    else
      var wanted := CommaSet(params[FacilityTypesKey]);
      match UidIndex(cats)
      case Thrown(e) => Thrown(e)
      case Ok(index) =>
        assert forall f: Facility ::
          (f.kind.Some? && f.kind.value in index && index[f.kind.value] in wanted) <==> TypeRequested(f, cats, wanted) by {
          forall f: Facility ensures (f.kind.Some? && f.kind.value in index && index[f.kind.value] in wanted)
            <==> TypeRequested(f, cats, wanted) {
            if f.kind.Some? && f.kind.value in index {
              var i :| 0 <= i < |cats| && cats[i].uid == f.kind;
              assert cats[i] in cats;
            }
            if TypeRequested(f, cats, wanted) {
              var c :| c in cats && c.uid == f.kind && c.instanceId in wanted;
              var i :| 0 <= i < |cats| && cats[i] == c;
            }
          }
        }
        Ok(Filter(fs, (f: Facility) => f.kind.Some? && f.kind.value in index && index[f.kind.value] in wanted))
  }

  // ---------------------------------------------------------------------
  // Pre-fetch and pipeline
  // ---------------------------------------------------------------------

  /** `preFetchLinkedEntities`: one batch for every location any facility links to. */
  function PreFetch(fs: seq<Facility>, store: Tables): (b: Batch<Location>)
    ensures |b.requests| <= 1
    ensures forall id :: id in b.found ==> id in store.locations && b.found[id] == store.locations[id]
    ensures forall f, i :: f in fs && 0 <= i < |Items(f.spatialExtent)| ==> Lookup(b.found, Items(f.spatialExtent)[i]) == Lookup(store.locations, Items(f.spatialExtent)[i])
  {
    var ids := LinkIds(fs, (f: Facility) => f.spatialExtent);
    forall f | f in fs ensures forall i :: 0 <= i < |Items(f.spatialExtent)| ==> Items(f.spatialExtent)[i] in ids {
      InLinkIds(fs, (f: Facility) => f.spatialExtent, f, f.spatialExtent);
    }
    FetchEntityBatch(LocationKind, store.locations, ids)
  }

  /** A facility meets every requested condition of the pipeline. */
  predicate Kept<G>(f: Facility, fs: seq<Facility>, params: Params, locations: map<Id, Location>, cats: seq<Category>,
                    env: Collaborators<G>)
  {
    && f in fs
    && ("q" in params ==> TermsFound(SearchTerms(params["q"]), FacilityFields(f)))
    && ("keywords" in params ==>
          (f.keywords.Some? && exists k :: k in KeywordList(f.keywords.value) && k in KeywordList(params["keywords"])))
    && (HasBoundingBox(params) && env.bbox(params).Some? ==> FacilityHit(env, env.bbox(params).value, f, locations))
    && (FacilityTypesKey in params ==> TypeRequested(f, cats, CommaSet(params[FacilityTypesKey])))
  }

  /**
   The stages in the order `doFilters` applies them, with the corrected
   bounding-box stage: a facility survives exactly when it meets every
   requested condition.
   */
  function Stages<G>(fs: seq<Facility>, params: Params, locations: map<Id, Location>, cats: seq<Category>, env: Collaborators<G>)
    : (r: Outcome<seq<Facility>>)
    ensures FacilityTypesKey in params ==> (r.Thrown? <==> DuplicateUid(cats))
    ensures FacilityTypesKey !in params ==> r.Ok?
    ensures r.Ok? ==> forall f :: f in r.value <==> Kept(f, fs, params, locations, cats, env)
  {
    var a := FullText(fs, params);
    var b := Keywords(a, params);
    // `filterFacilityByOrganizations` and `filterByEquipmentType` keep every facility.
    var c := BoundingBox(b, params, locations, env);
    FacilityType(c, params, cats)
  }

  lemma BoundingBoxTransparent<G>(fs: seq<Facility>, params: Params, s: map<Id, Location>, t: map<Id, Location>, env: Collaborators<G>)
    requires forall f, i :: f in fs && 0 <= i < |Items(f.spatialExtent)| ==> Lookup(s, Items(f.spatialExtent)[i]) == Lookup(t, Items(f.spatialExtent)[i])
    ensures BoundingBox(fs, params, s, env) == BoundingBox(fs, params, t, env)
  {
    if HasBoundingBox(params) && env.bbox(params).Some? {
      var box := env.bbox(params).value;
      forall i | 0 <= i < |fs| ensures FacilityHit(env, box, fs[i], s) == FacilityHit(env, box, fs[i], t) {
        assert fs[i] in fs;
        ResolveAgree(s, t, fs[i].spatialExtent);
      }
      FilterCongruent(fs, (f: Facility) => FacilityHit(env, box, f, s), (f: Facility) => FacilityHit(env, box, f, t));
    }
  }

  /**
   `doFilters` with the corrected bounding-box stage: working from the
   pre-fetched locations gives what looking every location up in the store would.
   */
  function DoFilters<G>(fs: seq<Facility>, params: Params, store: Tables, cats: seq<Category>, env: Collaborators<G>)
    : (r: Outcome<seq<Facility>>)
    ensures r == Stages(fs, params, store.locations, cats, env)
  {
    var snapshot := PreFetch(fs, store).found;
    var b := Keywords(FullText(fs, params), params);
    BoundingBoxTransparent(b, params, snapshot, store.locations, env);
    Stages(fs, params, snapshot, cats, env)
  }

  /** `doFilters` as written: the bounding-box stage can fail as well as the facility-type stage. */
  function DoFiltersAsWritten<G>(fs: seq<Facility>, params: Params, store: Tables, cats: seq<Category>, env: Collaborators<G>)
    : (r: Outcome<seq<Facility>>)
    ensures r.Ok? ==> r == DoFilters(fs, params, store, cats, env)
    ensures DoFilters(fs, params, store, cats, env).Thrown? ==> r.Thrown?
  {
    var snapshot := PreFetch(fs, store).found;
    var b := Keywords(FullText(fs, params), params);
    match BoundingBoxAsWritten(b, params, snapshot, env)
    case Thrown(e) => Thrown(e)
    case Ok(c) => FacilityType(c, params, cats)
  }
}
