/**
 The formats a distribution can be obtained in (AvailableFormatsGeneration):
 a downloadable file offers its own media type; a web service offers the
 conversions its plugins provide, the encodings its operation's mappings
 list, and otherwise the media types the operation returns.
 */
module AvailableFormats {
  import opened Nullable
  import opened JavaString
  import opened Seqs
  import opened Entities

  /** `EnvironmentVariables.API_HOST` and `EnvironmentVariables.API_CONTEXT`. */
  datatype Config = Config(host: string, context: string)

  datatype FormatType = Original | Converted

  /** What a CONVERTED format adds (`AvailableFormatConverted`): the plugin's input format and id. */
  datatype Conversion = Conversion(inputFormat: string, pluginId: string)

  datatype AvailableFormat = AvailableFormat(
    originalFormat: string,
    format: string,
    href: string,
    caption: string,
    kind: FormatType,
    conversion: Option<Conversion>)

  /** The plugin cache: each distribution's plugin relations; a `null` list is None. */
  type Plugins = map<Id, Option<seq<PluginRelation>>>

  const GeoJson := "application/epos.geo+json"
  const GeoJsonOutputs: set<string> := {"application/epos.geo+json", "application/epos.table.geo+json", "application/epos.map.geo+json"}
  const CovJsonOutputs: set<string> := {"application/epos.graph.covjson", "application/epos.covjson"}

  // ---------------------------------------------------------------------
  // Links
  // ---------------------------------------------------------------------

  function ExecutePrefix(cfg: Config, id: Id): string
  {
    cfg.host + cfg.context + "/execute/" + id
  }

  /** `buildHref` */
  function Href(cfg: Config, id: Id, format: string): string
  {
    ExecutePrefix(cfg, id) + "?format=" + format
  }

  /** `buildHrefConverted` */
  function HrefConverted(cfg: Config, id: Id, output: string, input: string, plugin: string): string
  {
    Href(cfg, id, output) + "&inputFormat=" + input + "&pluginId=" + plugin
  }

  /** `buildHrefOgc` */
  function HrefOgc(cfg: Config, id: Id): string
  {
    cfg.host + cfg.context + "/ogcexecute/" + id
  }

  /** A format link that runs the distribution's service: the execute path, or the OGC execute path. */
  predicate RunsService(cfg: Config, id: Id, f: AvailableFormat)
  {
    StartsWith(f.href, ExecutePrefix(cfg, id)) || f.href == HrefOgc(cfg, id)
  }

  /** Both execute links extend the distribution's execute path. */
  lemma HrefRunsService(cfg: Config, id: Id, output: string, input: string, plugin: string)
    ensures StartsWith(Href(cfg, id, output), ExecutePrefix(cfg, id))
    ensures StartsWith(HrefConverted(cfg, id, output, input, plugin), ExecutePrefix(cfg, id))
  {
    var p := ExecutePrefix(cfg, id);
    assert Href(cfg, id, output) == p + ("?format=" + output);
    assert HrefConverted(cfg, id, output, input, plugin) == p + ("?format=" + output + "&inputFormat=" + input + "&pluginId=" + plugin);
  }

  function OriginalFormat(original: string, format: string, href: string, caption: string): AvailableFormat
  {
    AvailableFormat(original, format, href, caption, Original, None)
  }

  // ---------------------------------------------------------------------
  // Downloadable file
  // ---------------------------------------------------------------------

  /** A file to download: download URLs, no access service, and a media type. */
  predicate Downloadable(d: Distribution)
  {
    d.downloadURL.Some? && d.accessService.None? && |d.downloadURL.value| > 0 && d.format.Some?
  }

  /**
   The one format of a downloadable file: the last "/" segment of its media
   type, labelled in upper case, linking the download URLs joined by ",". A
   media type made only of "/" leaves no segment and the index fails.
   */
  function DownloadFormat(d: Distribution): (r: Outcome<AvailableFormat>)
    requires Downloadable(d)
    ensures r.Thrown? <==> (d.format.value != "" && exists k: nat :: d.format.value == Repeat("/", k))
    ensures r.Ok? ==> (r.value.kind == Original && r.value.conversion == None
      && r.value.originalFormat == r.value.format && r.value.caption == Upper(r.value.format)
      && r.value.href == Join(",", d.downloadURL.value))
    ensures r.Ok? ==> (!Contains(r.value.format, "/")
      && exists pre: string, k: nat :: d.format.value == pre + r.value.format + Repeat("/", k) && (pre == "" || EndsWith(pre, "/")))
  {
    SplitEmptyIff(d.format.value, "/");
    match SplitLast(d.format.value, "/")
    case Thrown(e) => Thrown(e)
    case Ok(segment) =>
      LastSegment(d.format.value);
      Ok(OriginalFormat(segment, segment, Join(",", d.downloadURL.value), Upper(segment)))
  }

  /** The last "/" segment of a media type is a suffix free of "/", followed only by "/"s. */
  lemma LastSegment(s: string)
    requires SplitLast(s, "/").Ok?
    ensures !Contains(SplitLast(s, "/").value, "/")
    ensures exists pre: string, k: nat :: s == pre + SplitLast(s, "/").value + Repeat("/", k) && (pre == "" || EndsWith(pre, "/"))
  {
    var pre, k := SplitLastSegment(s, "/");
  }

  // ---------------------------------------------------------------------
  // Plugin conversions
  // ---------------------------------------------------------------------

  /** `processPluginRelation`: a GeoJSON or CoverageJSON output becomes one CONVERTED format; any other output adds nothing. */
  function PluginFormat(cfg: Config, id: Id, rel: PluginRelation): (r: seq<AvailableFormat>)
    ensures |r| <= 1
    ensures |r| == 1 <==> rel.outputFormat in GeoJsonOutputs + CovJsonOutputs
    ensures forall f :: f in r ==> (f.kind == Converted
      && f.conversion == Some(Conversion(rel.inputFormat, rel.pluginId))
      && f.originalFormat == rel.inputFormat && f.format == rel.outputFormat
      && f.caption == (if rel.outputFormat in GeoJsonOutputs then "GEOJSON" else "COVJSON")
      && f.href == HrefConverted(cfg, id, rel.outputFormat, rel.inputFormat, rel.pluginId)
      && StartsWith(f.href, ExecutePrefix(cfg, id)))
  {
    HrefRunsService(cfg, id, rel.outputFormat, rel.inputFormat, rel.pluginId);
    var href := HrefConverted(cfg, id, rel.outputFormat, rel.inputFormat, rel.pluginId);
    var conversion := Some(Conversion(rel.inputFormat, rel.pluginId));
    if rel.outputFormat in GeoJsonOutputs then
      [AvailableFormat(rel.inputFormat, rel.outputFormat, href, "GEOJSON", Converted, conversion)]
    else if rel.outputFormat in CovJsonOutputs then
      [AvailableFormat(rel.inputFormat, rel.outputFormat, href, "COVJSON", Converted, conversion)]
    else []
  }

  /**
   The conversions the plugin cache lists for the distribution, in order; a
   distribution listed with a `null` relation list makes the loop dereference null.
   */
  function PluginFormats(cfg: Config, id: Id, plugins: Plugins): (r: Outcome<seq<AvailableFormat>>)
    ensures r.Thrown? <==> id in plugins && plugins[id].None?
    ensures id !in plugins ==> r == Ok([])
    ensures r.Ok? ==> forall f :: f in r.value ==> (f.kind == Converted && f.conversion.Some?
      && exists rel :: rel in plugins[id].value && f.conversion.value == Conversion(rel.inputFormat, rel.pluginId))
    ensures r.Ok? && id in plugins ==> forall rel :: rel in plugins[id].value && rel.outputFormat in GeoJsonOutputs ==>
      exists f :: f in r.value && f.format == rel.outputFormat && f.caption == "GEOJSON"
    ensures r.Ok? ==> forall f :: f in r.value ==> StartsWith(f.href, ExecutePrefix(cfg, id))
  {
    if id !in plugins then Ok([])
    else if plugins[id].None? then Thrown("NullPointerException")
    else
      var rels := plugins[id].value;
      var r := FlatMap(rels, (rel: PluginRelation) => PluginFormat(cfg, id, rel));
      assert forall rel :: rel in rels && rel.outputFormat in GeoJsonOutputs ==>
        exists f :: f in r && f.format == rel.outputFormat && f.caption == "GEOJSON" by {
        forall rel | rel in rels && rel.outputFormat in GeoJsonOutputs
          ensures exists f :: f in r && f.format == rel.outputFormat && f.caption == "GEOJSON" {
          var i :| 0 <= i < |rels| && rels[i] == rel;
          var f := PluginFormat(cfg, id, rel)[0];
          assert f in PluginFormat(cfg, id, rels[i]);
        }
      }
      assert forall f :: f in r ==> (f.kind == Converted && f.conversion.Some? && StartsWith(f.href, ExecutePrefix(cfg, id))
        && exists rel :: rel in rels && f.conversion.value == Conversion(rel.inputFormat, rel.pluginId)) by {
        forall f | f in r ensures f.kind == Converted && f.conversion.Some? && StartsWith(f.href, ExecutePrefix(cfg, id))
          && exists rel :: rel in rels && f.conversion.value == Conversion(rel.inputFormat, rel.pluginId) {
          var i :| 0 <= i < |rels| && f in PluginFormat(cfg, id, rels[i]);
          assert rels[i] in rels;
        }
      }
      Ok(r)
  }

  // ---------------------------------------------------------------------
  // Mappings
  // ---------------------------------------------------------------------

  /** A mapping whose property mentions the encoding format. */
  predicate Encoding(m: Mapping)
  {
    m.property.Some? && Contains(m.property.value, "encodingFormat")
  }

  /**
   `containsServiceInMappings`: some mapping names the `service` variable, and
   either the current mapping's values list the service or that mapping's
   default value mentions it, ignoring case.
   */
  predicate ServiceIn(mappings: seq<Mapping>, service: string, current: Mapping)
  {
    exists e :: e in mappings && e.variable.Some? && EqualsIgnoreCase(e.variable.value, "service")
      && ((current.paramValue.Some? && service in current.paramValue.value)
        || (e.defaultValue.Some? && Contains(Lower(e.defaultValue.value), Lower(service))))
  }

  /** The template asks for the OGC service (`service=wms` and the like, ignoring case), or the mappings name it. */
  predicate OgcService(template: string, mappings: seq<Mapping>, service: string, current: Mapping)
  {
    Contains(Lower(template), "service=" + Lower(service)) || ServiceIn(mappings, service, current)
  }

  /**
   `pv.contains("geo%2Bjson") || pv.toLowerCase().matches(".*geo(?:json|\\+json|-json).*")`.
   `matches` needs the whole text to match, and neither `.*` nor the
   alternatives cross a line terminator, so the pattern holds exactly for a
   single-line text containing one of the three spellings.
   */
  predicate GeoJsonVariant(pv: string)
  {
    Contains(pv, "geo%2Bjson")
      || (SingleLine(Lower(pv))
          && (Contains(Lower(pv), "geojson") || Contains(Lower(pv), "geo+json") || Contains(Lower(pv), "geo-json")))
  }

  /**
   The formats one encoding value yields. An `image/` value yields WMS when the
   template or the mappings name that service, else WMTS by the same test, else
   nothing. Any other value yields exactly one format.
   */
  function ValueFormats(cfg: Config, id: Id, template: string, mappings: seq<Mapping>, current: Mapping, pv: string)
    : (r: seq<AvailableFormat>)
    ensures forall f :: f in r ==> f.originalFormat == pv && f.kind == Original
    ensures StartsWith(pv, "image/") ==> (
      && |r| <= 1
      && (|r| == 1 <==> OgcService(template, mappings, "WMS", current) || OgcService(template, mappings, "WMTS", current))
      && forall f :: f in r ==> f.href == HrefOgc(cfg, id) && f.caption in {"WMS", "WMTS"})
    ensures !StartsWith(pv, "image/") ==> (
      && |r| == 1
      && (r[0].format == GeoJson <==> (pv == "json" && OgcService(template, mappings, "WFS", current)) || GeoJsonVariant(pv) || pv == GeoJson)
      && (r[0].format != GeoJson ==> r[0].format == pv && r[0].caption == Upper(pv))
      && StartsWith(r[0].href, ExecutePrefix(cfg, id)))
  {
    HrefRunsService(cfg, id, pv, pv, pv);
    HrefRunsService(cfg, id, "json", pv, pv);
    if StartsWith(pv, "image/") then
      if OgcService(template, mappings, "WMS", current) then
        [OriginalFormat(pv, "application/vnd.ogc.wms_xml", HrefOgc(cfg, id), "WMS")]
      else if OgcService(template, mappings, "WMTS", current) then
        [OriginalFormat(pv, "application/vnd.ogc.wmts_xml", HrefOgc(cfg, id), "WMTS")]
      else []
    else if pv == "json" && OgcService(template, mappings, "WFS", current) then
      [OriginalFormat(pv, GeoJson, Href(cfg, id, "json"), "GEOJSON (" + pv + ")")]
    else if GeoJsonVariant(pv) then
      [OriginalFormat(pv, GeoJson, Href(cfg, id, pv), "GEOJSON (" + pv + ")")]
    else
      [OriginalFormat(pv, pv, Href(cfg, id, pv), Upper(pv))]
  }

  /** Some encoding mapping among `ms` has a `null` value list. */
  predicate NullEncodingValues(ms: seq<Mapping>)
  {
    exists i :: 0 <= i < |ms| && Encoding(ms[i]) && ms[i].paramValue.None?
  }

  /** `pv` is a value of `m`, an encoding mapping among `ms`. */
  predicate EncodedValue(ms: seq<Mapping>, m: Mapping, pv: string)
  {
    m in ms && Encoding(m) && m.paramValue.Some? && pv in m.paramValue.value
  }

  /** The format was produced from a value of an encoding mapping among `ms`. */
  predicate FromEncodingValue(f: AvailableFormat, ms: seq<Mapping>)
  {
    exists m :: m in ms && Encoding(m) && m.paramValue.Some? && f.originalFormat in m.paramValue.value
  }

  /**
   `processMappings` over `ms` (the list being scanned; `all` is the whole list
   the service test consults): only encoding mappings contribute, each value
   in order; an encoding mapping without a value list makes the loop
   dereference null.
   */
  function MappingFormats(cfg: Config, id: Id, template: string, all: seq<Mapping>, ms: seq<Mapping>)
    : (r: Outcome<seq<AvailableFormat>>)
    ensures r.Thrown? <==> NullEncodingValues(ms)
    ensures r.Ok? ==> forall f :: f in r.value ==> f.kind == Original && FromEncodingValue(f, ms)
    ensures r.Ok? ==> forall f :: f in r.value ==> RunsService(cfg, id, f)
    ensures r.Ok? ==> forall m, pv :: EncodedValue(ms, m, pv) && !StartsWith(pv, "image/") ==>
      exists f :: f in r.value && f.originalFormat == pv
    decreases |ms|
  {
    if |ms| == 0 then Ok([])
    else
      var rest := MappingFormats(cfg, id, template, all, ms[1..]);
      NullEncodingStep(ms);
      if !Encoding(ms[0]) then
        MappingsTail(cfg, id, ms, rest, []);
        rest
      else if ms[0].paramValue.None? then Thrown("NullPointerException")
      else if rest.Thrown? then rest
      else
        var values := ms[0].paramValue.value;
        var head := FlatMap(values, (pv: string) => ValueFormats(cfg, id, template, all, ms[0], pv));
        HeadFormats(cfg, id, template, all, ms[0], head);
        MappingsTail(cfg, id, ms, rest, head);
        Ok(head + rest.value)
  }

  lemma NullEncodingStep(ms: seq<Mapping>)
    requires |ms| > 0
    ensures NullEncodingValues(ms) <==> (Encoding(ms[0]) && ms[0].paramValue.None?) || NullEncodingValues(ms[1..])
  {
    if NullEncodingValues(ms) {
      var i :| 0 <= i < |ms| && Encoding(ms[i]) && ms[i].paramValue.None?;
      if i > 0 {
        assert ms[1..][i - 1] == ms[i];
      }
    }
    if NullEncodingValues(ms[1..]) {
      var i :| 0 <= i < |ms[1..]| && Encoding(ms[1..][i]) && ms[1..][i].paramValue.None?;
      assert ms[i + 1] == ms[1..][i];
    }
  }

  /** The formats of one encoding mapping's values. */
  lemma HeadFormats(cfg: Config, id: Id, template: string, all: seq<Mapping>, m: Mapping, head: seq<AvailableFormat>)
    requires Encoding(m) && m.paramValue.Some?
    requires head == FlatMap(m.paramValue.value, (pv: string) => ValueFormats(cfg, id, template, all, m, pv))
    ensures forall f :: f in head ==> f.kind == Original && f.originalFormat in m.paramValue.value && RunsService(cfg, id, f)
    ensures forall pv :: pv in m.paramValue.value && !StartsWith(pv, "image/") ==> exists f :: f in head && f.originalFormat == pv
  {
    var values := m.paramValue.value;
    forall f | f in head ensures f.kind == Original && f.originalFormat in values && RunsService(cfg, id, f) {
      var i :| 0 <= i < |values| && f in ValueFormats(cfg, id, template, all, m, values[i]);
    }
    forall pv | pv in values && !StartsWith(pv, "image/") ensures exists f :: f in head && f.originalFormat == pv {
      var i :| 0 <= i < |values| && values[i] == pv;
      var f := ValueFormats(cfg, id, template, all, m, pv)[0];
      assert f in ValueFormats(cfg, id, template, all, m, values[i]);
    }
  }

  /** The formats of the first mapping put in front of those of the rest keep the contract. */
  lemma MappingsTail(cfg: Config, id: Id, ms: seq<Mapping>, rest: Outcome<seq<AvailableFormat>>, head: seq<AvailableFormat>)
    requires |ms| > 0
    requires rest.Ok? ==> forall f :: f in rest.value ==> f.kind == Original && FromEncodingValue(f, ms[1..])
    requires rest.Ok? ==> forall f :: f in rest.value ==> RunsService(cfg, id, f)
    requires rest.Ok? ==> forall m, pv :: EncodedValue(ms[1..], m, pv) && !StartsWith(pv, "image/") ==>
      exists f :: f in rest.value && f.originalFormat == pv
    requires head != [] ==> Encoding(ms[0]) && ms[0].paramValue.Some?
    requires forall f :: f in head ==> (f.kind == Original && RunsService(cfg, id, f)
      && ms[0].paramValue.Some? && f.originalFormat in ms[0].paramValue.value)
    requires forall pv :: EncodedValue(ms[..1], ms[0], pv) && !StartsWith(pv, "image/") ==>
      exists f :: f in head && f.originalFormat == pv
    ensures rest.Ok? ==> forall f :: f in head + rest.value ==> f.kind == Original && FromEncodingValue(f, ms)
    ensures rest.Ok? ==> forall f :: f in head + rest.value ==> RunsService(cfg, id, f)
    ensures rest.Ok? ==> forall m, pv :: EncodedValue(ms, m, pv) && !StartsWith(pv, "image/") ==>
      exists f :: f in head + rest.value && f.originalFormat == pv
  {
    if rest.Ok? {
      forall f | f in head + rest.value ensures f.kind == Original && FromEncodingValue(f, ms) {
        if f in head {
          assert ms[0] in ms;
        } else {
          var m :| m in ms[1..] && Encoding(m) && m.paramValue.Some? && f.originalFormat in m.paramValue.value;
          assert m in ms;
        }
      }
      forall m, pv | EncodedValue(ms, m, pv) && !StartsWith(pv, "image/")
        ensures exists f :: f in head + rest.value && f.originalFormat == pv
      {
        if m == ms[0] {
          assert ms[0] in ms[..1];
          var f :| f in head && f.originalFormat == pv;
          assert f in head + rest.value;
        } else {
          var i :| 0 <= i < |ms| && ms[i] == m;
          assert ms[1..][i - 1] == m;
          assert EncodedValue(ms[1..], m, pv);
          var f :| f in rest.value && f.originalFormat == pv;
          assert f in head + rest.value;
        }
      }
    }
  }

  // ---------------------------------------------------------------------
  // Operation returns
  // ---------------------------------------------------------------------

  /** One format per media type the operation returns; GeoJSON types are relabelled. */
  function ReturnFormats(cfg: Config, id: Id, types: seq<string>): (r: seq<AvailableFormat>)
    ensures |r| == |types|
    ensures forall i :: 0 <= i < |r| ==> (
      && r[i].originalFormat == types[i] && r[i].kind == Original
      && r[i].href == Href(cfg, id, types[i])
      && (if Contains(types[i], "geojson") || Contains(types[i], "geo+json")
          then r[i].format == GeoJson && r[i].caption == "GEOJSON"
          else r[i].format == types[i] && r[i].caption == Upper(types[i])))
  {
    seq(|types|, i requires 0 <= i < |types| =>
      if Contains(types[i], "geojson") || Contains(types[i], "geo+json")
      then OriginalFormat(types[i], GeoJson, Href(cfg, id, types[i]), "GEOJSON")
      else OriginalFormat(types[i], types[i], Href(cfg, id, types[i]), Upper(types[i])))
  }

  // ---------------------------------------------------------------------
  // Generation
  // ---------------------------------------------------------------------

  /** The distribution's first supported operation, looked up in the store. */
  function FirstOperation(d: Distribution, store: Tables): Option<Operation>
  {
    if NonEmpty(d.supportedOperation) then Lookup(store.operations, Items(d.supportedOperation)[0]) else None
  }

  /** The mappings the operation's links resolve to (one batch), consulted only with a template. */
  function OperationMappings(op: Operation, store: Tables): seq<Mapping>
  {
    if NonEmpty(op.mapping) && op.template.Some? then ResolveAll(store.mappings, Items(op.mapping)) else []
  }

  /** The plugin conversions followed by the mapping encodings. */
  function Derived(cfg: Config, id: Id, op: Operation, store: Tables, plugins: Plugins): (r: Outcome<seq<AvailableFormat>>)
    ensures r.Thrown? <==> (id in plugins && plugins[id].None?) || NullEncodingValues(OperationMappings(op, store))
    ensures r.Ok? ==> forall f :: f in r.value ==> RunsService(cfg, id, f)
    ensures r.Ok? ==> forall f :: f in r.value && f.kind == Original ==> FromEncodingValue(f, OperationMappings(op, store))
  {
    var ms := OperationMappings(op, store);
    var fromPlugins := PluginFormats(cfg, id, plugins);
    if fromPlugins.Thrown? then fromPlugins
    else
      var fromMappings := if |ms| > 0 then MappingFormats(cfg, id, op.template.value, ms, ms) else Ok([]);
      if fromMappings.Thrown? then fromMappings
      else
        Ok(fromPlugins.value + fromMappings.value)
  }

  /**
   `generate(Distribution)`: the downloadable-file format alone; nothing
   without a resolvable first operation; otherwise the plugin and mapping
   formats, and the operation's return types only when those gave nothing.
   */
  function Generate(cfg: Config, d: Distribution, store: Tables, plugins: Plugins): (r: Outcome<seq<AvailableFormat>>)
    ensures Downloadable(d) ==> r.Thrown? == DownloadFormat(d).Thrown? && (r.Ok? ==> r.value == [DownloadFormat(d).value])
    ensures !Downloadable(d) && FirstOperation(d, store).None? ==> r == Ok([])
    ensures !Downloadable(d) && FirstOperation(d, store).Some? ==> (
      var op := FirstOperation(d, store).value;
      var derived := Derived(cfg, d.instanceId, op, store, plugins);
      && (derived.Thrown? <==> r.Thrown?)
      && (derived.Ok? && derived.value != [] ==> r == derived)
      && (derived.Ok? && derived.value == [] && op.returnTypes.None? ==> r == Ok([]))
      && (derived.Ok? && derived.value == [] && op.returnTypes.Some? ==> r == Ok(ReturnFormats(cfg, d.instanceId, op.returnTypes.value))))
    ensures !Downloadable(d) && r.Ok? ==> forall f :: f in r.value ==> RunsService(cfg, d.instanceId, f)
  {
    if Downloadable(d) then
      match DownloadFormat(d)
      case Thrown(e) => Thrown(e)
      case Ok(f) => Ok([f])
    else
      match FirstOperation(d, store)
      case None => Ok([])
      case Some(op) =>
        match Derived(cfg, d.instanceId, op, store, plugins)
        case Thrown(e) => Thrown(e)
        case Ok(formats) =>
          if op.returnTypes.Some? && formats == [] then
            var r := ReturnFormats(cfg, d.instanceId, op.returnTypes.value);
            forall f | f in r ensures RunsService(cfg, d.instanceId, f) {
              var i :| 0 <= i < |r| && r[i] == f;
              HrefRunsService(cfg, d.instanceId, op.returnTypes.value[i], "", "");
            }
            Ok(r)
          else Ok(formats)
  }

  /**
   `generate(List<Distribution>)`: each distribution's formats put under its
   instance id, in list order, so a later distribution with the same id
   replaces an earlier one; the first failure ends the loop.
   */
  function GenerateAll(cfg: Config, ds: seq<Distribution>, store: Tables, plugins: Plugins)
    : (r: Outcome<map<Id, seq<AvailableFormat>>>)
    ensures r.Thrown? <==> exists i :: 0 <= i < |ds| && Generate(cfg, ds[i], store, plugins).Thrown?
    ensures r.Ok? ==> forall k :: k in r.value <==> exists i :: 0 <= i < |ds| && ds[i].instanceId == k
    ensures r.Ok? ==> forall i :: 0 <= i < |ds| && LastWithId(ds, i) ==> Generate(cfg, ds[i], store, plugins) == Ok(r.value[ds[i].instanceId])
    decreases |ds|
  {
    if |ds| == 0 then Ok(map[])
    else
      var init := ds[..|ds| - 1];
      var last := ds[|ds| - 1];
      var g := (d: Distribution) => Generate(cfg, d, store, plugins);
      var before := GenerateAll(cfg, init, store, plugins);
      ThrowsStep(ds, init, g);
      if before.Thrown? then before
      else
        match g(last)
        case Thrown(e) => Thrown(e)
        case Ok(formats) =>
          var after := before.value[last.instanceId := formats];
          PutLastKeys(ds, init, before.value, after, formats);
          PutLastValues(ds, init, g, before.value, after, formats);
          Ok(after)
  }

  /** No later distribution of the list has the same instance id as `ds[i]`. */
  predicate LastWithId(ds: seq<Distribution>, i: int)
    requires 0 <= i < |ds|
  {
    forall j :: i < j < |ds| ==> ds[j].instanceId != ds[i].instanceId
  }

  /** Some element of the list fails. */
  predicate SomeThrows<V>(ds: seq<Distribution>, g: Distribution -> Outcome<V>)
  {
    exists i :: 0 <= i < |ds| && g(ds[i]).Thrown?
  }

  lemma ThrowsStep<V>(ds: seq<Distribution>, init: seq<Distribution>, g: Distribution -> Outcome<V>)
    requires |ds| > 0 && init == ds[..|ds| - 1]
    ensures SomeThrows(ds, g) <==> SomeThrows(init, g) || g(ds[|ds| - 1]).Thrown?
  {
    if SomeThrows(ds, g) {
      var i :| 0 <= i < |ds| && g(ds[i]).Thrown?;
      if i < |ds| - 1 {
        assert init[i] == ds[i];
      }
    }
  }

  /** Putting the last element's value over the map built from the others covers exactly the ids of the list. */
  lemma PutLastKeys<V>(ds: seq<Distribution>, init: seq<Distribution>, before: map<Id, V>, after: map<Id, V>, v: V)
    requires |ds| > 0 && init == ds[..|ds| - 1] && after == before[ds[|ds| - 1].instanceId := v]
    requires forall k :: k in before <==> exists i :: 0 <= i < |init| && init[i].instanceId == k
    ensures forall k :: k in after <==> exists i :: 0 <= i < |ds| && ds[i].instanceId == k
  {
    var last := ds[|ds| - 1];
    forall k | k in after ensures exists i :: 0 <= i < |ds| && ds[i].instanceId == k {
      if k != last.instanceId {
        var i :| 0 <= i < |init| && init[i].instanceId == k;
        assert ds[i] == init[i];
      }
    }
    forall k | exists i :: 0 <= i < |ds| && ds[i].instanceId == k ensures k in after {
      var i :| 0 <= i < |ds| && ds[i].instanceId == k;
      if i < |ds| - 1 {
        assert init[i] == ds[i];
      }
    }
  }

  /** ... and holds, under each id, the value of the last element with that id. */
  lemma PutLastValues<V>(ds: seq<Distribution>, init: seq<Distribution>, g: Distribution -> Outcome<V>,
                         before: map<Id, V>, after: map<Id, V>, v: V)
    requires |ds| > 0 && init == ds[..|ds| - 1] && after == before[ds[|ds| - 1].instanceId := v]
    requires g(ds[|ds| - 1]) == Ok(v)
    requires forall i :: 0 <= i < |init| ==> init[i].instanceId in before
    requires forall i :: 0 <= i < |init| && LastWithId(init, i) ==> g(init[i]) == Ok(before[init[i].instanceId])
    ensures forall i :: 0 <= i < |ds| && LastWithId(ds, i) ==> ds[i].instanceId in after && g(ds[i]) == Ok(after[ds[i].instanceId])
  {
    forall i | 0 <= i < |ds| && LastWithId(ds, i) ensures ds[i].instanceId in after && g(ds[i]) == Ok(after[ds[i].instanceId]) {
      if i < |ds| - 1 {
        var k := ds[i].instanceId;
        assert ds[|ds| - 1].instanceId != k;
        assert init[i] == ds[i];
        assert k in before;
        assert after[k] == before[k];
        LastWithIdInit(ds, init, i);
      }
    }
  }

  lemma LastWithIdInit(ds: seq<Distribution>, init: seq<Distribution>, i: int)
    requires |ds| > 0 && init == ds[..|ds| - 1] && 0 <= i < |init|
    requires LastWithId(ds, i)
    ensures LastWithId(init, i)
  {
    forall j | i < j < |init| ensures init[j].instanceId != init[i].instanceId {
      assert init[j] == ds[j];
    }
  }
}
