/**
 The software records (SoftwareApplicationGenerationJPA and
 SoftwareSourceCodeGenerationJPA): both project a software entity onto a
 response the same way. Keywords are comma-split and trimmed, DOI and DDSS-ID
 identifiers are collected apart, any contact point gives one DATAPROVIDERS
 sender link, `category:` uids feed the categories facet, and the offered
 format is the upper-cased file extension of the download link (or, failing
 that, the page or repository link).
 */
module Software {
  import opened Nullable
  import opened JavaString
  import opened Entities
  import AvailableFormats
  import DistributionSearch
  import DistributionDetails

  const KeywordSeparator := ','

  // ---------------------------------------------------------------------
  // The two entity kinds
  // ---------------------------------------------------------------------

  /** What the projection reads of a software entity; `formatSource` is the link its format is taken from. */
  datatype SoftwareView = SoftwareView(
    instanceId: Id,
    name: Option<string>,
    description: Option<string>,
    keywords: Option<string>,
    identifier: Links,
    contactPoint: Links,
    category: Links,
    formatSource: Option<string>)

  /** `createFormatsForApplication`: the download link, else the main page, else none. */
  function ApplicationView(a: SoftwareApplication): (v: SoftwareView)
    ensures a.downloadURL.Some? ==> v.formatSource == a.downloadURL
    ensures a.downloadURL.None? ==> v.formatSource == a.mainEntityOfPage
    ensures v.instanceId == a.instanceId && v.keywords == a.keywords
    ensures v.identifier == a.identifier && v.contactPoint == a.contactPoint && v.category == a.category
  {
    SoftwareView(a.instanceId, a.name, a.description, a.keywords, a.identifier, a.contactPoint, a.category,
      if a.downloadURL.Some? then a.downloadURL else a.mainEntityOfPage)
  }

  /**
   `createFormatsForSourceCode`: the download link, else the code repository,
   else none. The download link is still consulted although the response no
   longer carries it.
   */
  function SourceCodeView(s: SoftwareSourceCode): (v: SoftwareView)
    ensures s.downloadURL.Some? ==> v.formatSource == s.downloadURL
    ensures s.downloadURL.None? ==> v.formatSource == s.codeRepository
    ensures v.instanceId == s.instanceId && v.keywords == s.keywords
    ensures v.identifier == s.identifier && v.contactPoint == s.contactPoint && v.category == s.category
  {
    SoftwareView(s.instanceId, s.name, s.description, s.keywords, s.identifier, s.contactPoint, s.category,
      if s.downloadURL.Some? then s.downloadURL else s.codeRepository)
  }

  // ---------------------------------------------------------------------
  // Keywords
  // ---------------------------------------------------------------------

  /** Each text trimmed, the empty ones dropped, in order. */
  function TrimmedNonEmpty(ps: seq<string>): (r: seq<string>)
    ensures |r| <= |ps|
    ensures forall i :: 0 <= i < |r| ==> r[i] != "" && Trim(r[i]) == r[i]
    ensures forall k :: k in r <==> k != "" && exists i :: 0 <= i < |ps| && Trim(ps[i]) == k
  {
    if |ps| == 0 then []
    else
      var rest := TrimmedNonEmpty(ps[1..]);
      TrimmedStep(ps, rest);
      (if Trim(ps[0]) != "" then [Trim(ps[0])] else []) + rest
  }

  /** Putting the head's trim, if non-empty, in front of the tail's keeps the three promises. */
  lemma TrimmedStep(ps: seq<string>, rest: seq<string>)
    requires |ps| > 0
    requires forall i :: 0 <= i < |rest| ==> rest[i] != "" && Trim(rest[i]) == rest[i]
    requires forall k :: k in rest <==> k != "" && exists i :: 0 <= i < |ps[1..]| && Trim(ps[1..][i]) == k
    ensures var r := (if Trim(ps[0]) != "" then [Trim(ps[0])] else []) + rest;
      && (forall i :: 0 <= i < |r| ==> r[i] != "" && Trim(r[i]) == r[i])
      && (forall k :: k in r <==> k != "" && exists i :: 0 <= i < |ps| && Trim(ps[i]) == k)
  {
    TrimIdempotent(ps[0]);
    forall i | 1 <= i < |ps| && Trim(ps[i]) != "" ensures Trim(ps[i]) in rest {
      assert ps[1..][i - 1] == ps[i];
    }
    assert forall j :: 0 <= j < |ps[1..]| ==> ps[1..][j] == ps[j + 1];
  }

  /** Nothing is left exactly when every text is blank. */
  lemma TrimmedNonEmptyNone(ps: seq<string>)
    ensures TrimmedNonEmpty(ps) == [] <==> forall i :: 0 <= i < |ps| ==> IsBlankText(ps[i])
  {
    var r := TrimmedNonEmpty(ps);
    if r != [] {
      assert r[0] in r;
    }
    if exists i :: 0 <= i < |ps| && !IsBlankText(ps[i]) {
      var i :| 0 <= i < |ps| && !IsBlankText(ps[i]);
      assert Trim(ps[i]) in r;
    }
  }

  /**
   The keyword list: none for a missing or blank text; otherwise the
   comma-separated pieces trimmed, the empty ones dropped, and none again
   when nothing is left.
   */
  function SoftwareKeywords(kw: Option<string>): (r: Option<seq<string>>)
    ensures r.None? <==> (kw.None? || IsBlankText(kw.value)
      || forall i :: 0 <= i < |Split(kw.value, [KeywordSeparator])| ==> IsBlankText(Split(kw.value, [KeywordSeparator])[i]))
    ensures r.Some? ==> |r.value| > 0 && forall i :: 0 <= i < |r.value| ==> r.value[i] != "" && Trim(r.value[i]) == r.value[i]
    ensures r.Some? ==> forall k :: k in r.value <==>
      k != "" && exists p :: p in Split(kw.value, [KeywordSeparator]) && Trim(p) == k
  {
    if kw.None? || IsBlankText(kw.value) then None
    else
      var ps := Split(kw.value, [KeywordSeparator]);
      var ks := TrimmedNonEmpty(ps);
      TrimmedNonEmptyNone(ps);
      if |ks| == 0 then None else Some(ks)
  }

  /** Trimmed, non-empty texts come through unchanged. */
  lemma {:induction false} TrimmedNonEmptyKeeps(ks: seq<string>)
    requires forall i :: 0 <= i < |ks| ==> ks[i] != "" && Trim(ks[i]) == ks[i]
    ensures TrimmedNonEmpty(ks) == ks
  {
    if |ks| > 0 {
      TrimmedNonEmptyKeeps(ks[1..]);
      assert ks == [ks[0]] + ks[1..];
    }
  }

  /** A joined text starts with the first of its parts. */
  lemma JoinHead(sep: string, ks: seq<string>)
    requires |ks| > 0 && |ks[0]| > 0
    ensures |Join(sep, ks)| > 0 && Join(sep, ks)[0] == ks[0][0]
  {
  }

  /**
   Keywords written out comma-separated come back as the same list, when
   none is empty, none has surrounding blanks and none holds a comma.
   */
  lemma KeywordsRoundTrip(ks: seq<string>)
    requires |ks| > 0
    requires forall i :: 0 <= i < |ks| ==> ks[i] != "" && Trim(ks[i]) == ks[i] && KeywordSeparator !in ks[i]
    ensures SoftwareKeywords(Some(Join([KeywordSeparator], ks))) == Some(ks)
  {
    var s := Join([KeywordSeparator], ks);
    SplitOfJoin(KeywordSeparator, ks);
    TrimmedNonEmptyKeeps(ks);
    JoinHead([KeywordSeparator], ks);
    assert !Blank(Trim(ks[0])[0]);
    TrimEmptyAllBlank(s);
  }

  // ---------------------------------------------------------------------
  // Identifiers
  // ---------------------------------------------------------------------

  /** The DOI values (null ones kept) and the non-null DDSS ids; each list is none when empty. */
  datatype SoftwareIds = SoftwareIds(doi: Option<seq<Option<string>>>, identifiers: Option<seq<string>>)

  /**
   The identifier loop. A resolved identifier without a type throws, since
   its type is compared with `equals` before anything else.
   */
  function SoftwareIdentifiers(ids: seq<Identifier>): (r: Outcome<SoftwareIds>)
    ensures r.Thrown? <==> exists i :: 0 <= i < |ids| && ids[i].kind.None?
    ensures r.Ok? ==> (r.value.doi.Some? <==> exists i :: 0 <= i < |ids| && ids[i].kind == Some(DistributionDetails.DoiScheme))
    ensures r.Ok? && r.value.doi.Some? ==> forall v :: v in r.value.doi.value <==>
      exists i :: 0 <= i < |ids| && ids[i].kind == Some(DistributionDetails.DoiScheme) && ids[i].value == v
    ensures r.Ok? ==> (r.value.identifiers.Some? <==>
      exists i :: 0 <= i < |ids| && ids[i].kind == Some(DistributionDetails.DdssScheme) && ids[i].value.Some?)
    ensures r.Ok? && r.value.identifiers.Some? ==> forall x :: x in r.value.identifiers.value <==>
      exists i :: 0 <= i < |ids| && ids[i].kind == Some(DistributionDetails.DdssScheme) && ids[i].value == Some(x)
  {
    if exists i :: 0 <= i < |ids| && ids[i].kind.None? then Thrown("NullPointerException")
    else
      var dois := DistributionDetails.DoiValues(ids);
      var ddss := DistributionDetails.DdssValues(ids);
      assert |ddss| > 0 ==> ddss[0] in ddss;
      assert (exists i :: 0 <= i < |ids| && DistributionDetails.IsDdss(ids[i])) ==> |ddss| > 0 by {
        if exists i :: 0 <= i < |ids| && DistributionDetails.IsDdss(ids[i]) {
          var i :| 0 <= i < |ids| && DistributionDetails.IsDdss(ids[i]);
          assert ids[i].value.value in ddss;
        }
      }
      Ok(SoftwareIds(if |dois| > 0 then Some(dois) else None, if |ddss| > 0 then Some(ddss) else None))
  }

  /**
   When every identifier has a type, the software lists are the dataset
   identifiers of the distribution details, the DDSS list shown as none
   instead of empty.
   */
  lemma IdentifiersAgainstDetails(ids: seq<Identifier>)
    requires forall i :: 0 <= i < |ids| ==> ids[i].kind.Some?
    ensures SoftwareIdentifiers(ids).Ok?
    ensures SoftwareIdentifiers(ids).value.doi == DistributionDetails.DatasetInfo(ids).doi
    ensures SoftwareIdentifiers(ids).value.identifiers ==
      (var internal := DistributionDetails.DatasetInfo(ids).internalIds; if |internal| > 0 then Some(internal) else None)
  {
  }

  // ---------------------------------------------------------------------
  // Contact points and categories
  // ---------------------------------------------------------------------

  /** One DATAPROVIDERS entry linking the sender for the entity when it has contact points; none otherwise. */
  function SoftwareContacts(cfg: AvailableFormats.Config, id: Id, links: Links): (r: Option<seq<DistributionDetails.ContactEntry>>)
    ensures r.Some? <==> NonEmpty(links)
    ensures r.Some? ==> |r.value| == 1 && DistributionDetails.KindsOf(r.value) == {DistributionDetails.DataProviders}
    ensures r.Some? ==> r.value[0].href == DistributionDetails.SenderHref(cfg, id, DistributionDetails.DataProviders)
  {
    if NonEmpty(links) then
      var e := DistributionDetails.ContactEntry(DistributionDetails.SenderHref(cfg, id, DistributionDetails.DataProviders), DistributionDetails.DataProviders);
      assert DistributionDetails.KindsOf([e]) == {e.kind};
      Some([e])
    else None
  }

  /**
   The software contact points are what the distribution details show for a
   data product without a web service, none standing for the empty list.
   */
  lemma ContactsAgainstDetails(cfg: AvailableFormats.Config, d: Distribution, dp: DataProduct)
    ensures var details := DistributionDetails.Contacts(cfg, d, dp, None);
      SoftwareContacts(cfg, dp.instanceId, dp.contactPoint) == if |details| > 0 then Some(details) else None
  {
  }

  /**
   The category uids that feed the categories facet: the resolved categories'
   `category:` uids in order, none when the entity lists no categories or no
   uid qualifies. A resolved category without a uid throws.
   */
  function SoftwareCategories(category: Links, cats: seq<Category>): (r: Outcome<Option<seq<string>>>)
    ensures r.Thrown? <==> category.Some? && exists i :: 0 <= i < |cats| && cats[i].uid.None?
    ensures r.Ok? ==> (r.value.Some? <==> (category.Some? &&
      exists i :: 0 <= i < |cats| && cats[i].uid.Some? && Contains(cats[i].uid.value, DistributionSearch.CategoryMarker)))
    ensures r.Ok? && r.value.Some? ==> forall u :: u in r.value.value <==>
      exists i :: 0 <= i < |cats| && cats[i].uid == Some(u) && Contains(u, DistributionSearch.CategoryMarker)
  {
    if category.None? then Ok(None)
    else
      match DistributionSearch.SplitCategories(cats)
      case Thrown(e) => Thrown(e)
      case Ok(parts) =>
        assert |parts.list| > 0 ==> parts.list[0] in parts.list;
        assert forall i :: 0 <= i < |cats| && cats[i].uid.Some? && Contains(cats[i].uid.value, DistributionSearch.CategoryMarker) ==> cats[i].uid.value in parts.list;
        if |parts.list| > 0 then Ok(Some(parts.list)) else Ok(None)
  }

  // ---------------------------------------------------------------------
  // File extension and format
  // ---------------------------------------------------------------------

  predicate IsAlnum(c: char)
  {
    'a' <= c <= 'z' || 'A' <= c <= 'Z' || '0' <= c <= '9'
  }

  /** The end of the run of letters and digits that starts at `j`. */
  function RunEnd(url: string, j: nat): (e: nat)
    requires j <= |url|
    ensures j <= e <= |url|
    ensures forall k :: j <= k < e ==> IsAlnum(url[k])
    ensures e < |url| ==> !IsAlnum(url[e])
    decreases |url| - j
  {
    if j == |url| || !IsAlnum(url[j]) then j else RunEnd(url, j + 1)
  }

  /**
   Where `$` matches without the MULTILINE flag: at the end of the input, or
   just before a line terminator that ends it.
   */
  predicate AtInputEnd(url: string, e: nat)
    requires e <= |url|
  {
    var t := url[e..];
    t == "" || t == "\n" || t == "\r" || t == "\r\n" || t == "\U{85}" || t == "\U{2028}" || t == "\U{2029}"
  }

  /** What may follow the extension: `/`, `?` or the end of the input. */
  predicate Closes(url: string, e: nat)
    requires e <= |url|
  {
    AtInputEnd(url, e) || (e < |url| && (url[e] == '/' || url[e] == '?'))
  }

  /**
   The pattern `\.([a-zA-Z0-9]+)(?:/|$|\?)` matches at `i`: a dot, then a
   run of letters and digits that closes. The greedy group takes the whole
   run; a shorter one would be followed by a letter or digit, which cannot
   close, so backtracking finds no other match at `i`.
   */
  predicate ExtensionAt(url: string, i: nat)
  {
    i < |url| && url[i] == '.' && RunEnd(url, i + 1) > i + 1 && Closes(url, RunEnd(url, i + 1))
  }

  /** The extension a match at `i` captures. */
  function ExtensionOf(url: string, i: nat): string
    requires i < |url|
  {
    url[i + 1..RunEnd(url, i + 1)]
  }

  /** The last position below `n` where the pattern matches. */
  function LastExtension(url: string, n: nat): (r: Option<nat>)
    requires n <= |url|
    ensures r.Some? ==> r.value < n && ExtensionAt(url, r.value)
    ensures r.Some? ==> forall j :: r.value < j < n ==> !ExtensionAt(url, j)
    ensures r.None? ==> forall j :: 0 <= j < n ==> !ExtensionAt(url, j)
  {
    if n == 0 then None
    else if ExtensionAt(url, n - 1) then Some(n - 1)
    else LastExtension(url, n - 1)
  }

  /** `extractFormatFromUrl`: the extension the last match captures, or none. */
  function ExtractFormat(url: string): (r: Option<string>)
    ensures r.Some? ==> |r.value| > 0 && forall k :: 0 <= k < |r.value| ==> IsAlnum(r.value[k])
  {
    match LastExtension(url, |url|)
    case None => None
    case Some(i) => Some(ExtensionOf(url, i))
  }

  /** Positions without a match leave the last match unchanged. */
  lemma {:induction false} LastExtensionSkip(url: string, lo: nat, n: nat)
    requires lo <= n <= |url|
    requires forall j :: lo <= j < n ==> !ExtensionAt(url, j)
    ensures LastExtension(url, n) == LastExtension(url, lo)
    decreases n
  {
    if n > lo {
      LastExtensionSkip(url, lo, n - 1);
    }
  }

  /** Where the search resumes after a match at `i`: past the run and past a `/` or `?` the match consumed. */
  function MatchEnd(url: string, i: nat): (m: nat)
    requires i < |url|
    ensures i < m <= |url|
  {
    var e := RunEnd(url, i + 1);
    if e < |url| && (url[e] == '/' || url[e] == '?') then e + 1 else e
  }

  /** No match starts inside a match, so the one at `i` is the last one before its end. */
  lemma MatchIsLastBeforeEnd(url: string, i: nat)
    requires ExtensionAt(url, i)
    ensures LastExtension(url, MatchEnd(url, i)) == Some(i)
  {
    var m := MatchEnd(url, i);
    forall j | i + 1 <= j < m ensures !ExtensionAt(url, j) {
      assert url[j] != '.';
    }
    LastExtensionSkip(url, i + 1, m);
  }

  /**
   The `while (matcher.find())` loop of `extractFormatFromUrl`: each find
   resumes where the previous match ended, and the last capture is kept.
   */
  method ScanFormat(url: string) returns (format: Option<string>)
    ensures format == ExtractFormat(url)
  {
    format := None;
    var from := 0;
    while from < |url|
      invariant from <= |url|
      invariant format == match LastExtension(url, from) case None => None case Some(i) => Some(ExtensionOf(url, i))
    {
      if ExtensionAt(url, from) {
        format := Some(ExtensionOf(url, from));
        MatchIsLastBeforeEnd(url, from);
        from := MatchEnd(url, from);
      } else {
        from := from + 1;
      }
    }
  }

  /**
   A link ending in a dot, letters and digits, and then nothing, or a path or
   query without dots, yields those letters and digits.
   */
  lemma ExtractFormatOfName(base: string, ext: string, tail: string)
    requires |ext| > 0 && forall k :: 0 <= k < |ext| ==> IsAlnum(ext[k])
    requires tail == "" || tail[0] == '/' || tail[0] == '?'
    requires '.' !in tail
    ensures ExtractFormat(base + "." + ext + tail) == Some(ext)
  {
    var url := base + "." + ext + tail;
    var i := |base|;
    var end := i + 1 + |ext|;
    forall k | i + 1 <= k < end ensures IsAlnum(url[k]) {
      assert url[k] == ext[k - i - 1];
    }
    if end < |url| {
      assert url[end] == tail[0];
    }
    assert url[end..] == tail;
    assert RunEnd(url, i + 1) == end;
    assert url[i] == '.';
    assert ExtensionAt(url, i);
    forall j | i + 1 <= j < |url| ensures !ExtensionAt(url, j) {
      if j >= end {
        assert url[j] == tail[j - end];
      }
    }
    LastExtensionSkip(url, i + 1, |url|);
    assert url[i + 1..end] == ext;
  }

  /**
   `createFormatsFromUrl`: one ORIGINAL format named by the upper-cased
   extension (as format, original format and label) and linking the URL
   itself; none when the URL has no extension.
   */
  function FormatsFromUrl(url: string): (r: Option<seq<AvailableFormats.AvailableFormat>>)
    ensures r.None? <==> ExtractFormat(url).None?
    ensures r.Some? ==> |r.value| == 1 && r.value[0].kind == AvailableFormats.Original && r.value[0].href == url
    ensures r.Some? ==> r.value[0].conversion.None? && r.value[0].format == Upper(ExtractFormat(url).value)
    ensures r.Some? ==> r.value[0].originalFormat == r.value[0].format && r.value[0].caption == r.value[0].format
  {
    match ExtractFormat(url)
    case None => None
    case Some(ext) =>
      var f := Upper(ext);
      Some([AvailableFormats.AvailableFormat(f, f, url, f, AvailableFormats.Original, None)])
  }

  /** A file link offers its upper-cased extension. */
  lemma FormatOfFileLink(base: string, ext: string, tail: string)
    requires |ext| > 0 && forall k :: 0 <= k < |ext| ==> IsAlnum(ext[k])
    requires tail == "" || tail[0] == '/' || tail[0] == '?'
    requires '.' !in tail
    ensures FormatsFromUrl(base + "." + ext + tail) ==
      Some([AvailableFormats.AvailableFormat(Upper(ext), Upper(ext), base + "." + ext + tail, Upper(ext), AvailableFormats.Original, None)])
  {
    ExtractFormatOfName(base, ext, tail);
  }

  // ---------------------------------------------------------------------
  // Response
  // ---------------------------------------------------------------------

  /** The fields the projection computes (the others are copied from the entity). */
  datatype SoftwareResponse = SoftwareResponse(
    id: Id,
    name: Option<string>,
    description: Option<string>,
    availableFormats: Option<seq<AvailableFormats.AvailableFormat>>,
    keywords: Option<seq<string>>,
    doi: Option<seq<Option<string>>>,
    identifiers: Option<seq<string>>,
    contacts: Option<seq<DistributionDetails.ContactEntry>>,
    categories: Option<seq<string>>)

  /** The formats of the entity's format source; none without one. */
  function FormatsFor(source: Option<string>): (r: Option<seq<AvailableFormats.AvailableFormat>>)
    ensures source.None? ==> r.None?
    ensures source.Some? ==> (r.Some? <==> ExtractFormat(source.value).Some?)
    ensures r.Some? ==> |r.value| == 1 && r.value[0].href == source.value
  {
    if source.None? then None else FormatsFromUrl(source.value)
  }

  /** Some listed identifier resolves to a DOI. */
  predicate HasDoi(links: Links, store: Tables)
  {
    exists x :: x in Items(links) && x in store.identifiers && store.identifiers[x].kind == Some(DistributionDetails.DoiScheme)
  }

  /** The listed identifiers hold a DOI exactly when their resolved entities do. */
  lemma DoiLinked(links: Links, store: Tables)
    ensures HasDoi(links, store) <==>
      exists i :: 0 <= i < |Resolve(store.identifiers, links)| && Resolve(store.identifiers, links)[i].kind == Some(DistributionDetails.DoiScheme)
  {
    var ids := Resolve(store.identifiers, links);
    if exists i :: 0 <= i < |ids| && ids[i].kind == Some(DistributionDetails.DoiScheme) {
      var i :| 0 <= i < |ids| && ids[i].kind == Some(DistributionDetails.DoiScheme);
      assert ids[i] in ids;
      var j :| 0 <= j < |Items(links)| && Items(links)[j] in store.identifiers && store.identifiers[Items(links)[j]] == ids[i];
      assert Items(links)[j] in Items(links);
    }
    if HasDoi(links, store) {
      var x :| x in Items(links) && x in store.identifiers && store.identifiers[x].kind == Some(DistributionDetails.DoiScheme);
      var j :| 0 <= j < |Items(links)| && Items(links)[j] == x;
      assert store.identifiers[x] in ids;
    }
  }

  /**
   `generate`: the response of a software entity over the store. It throws
   when a resolved identifier has no type, or when the entity lists
   categories and a resolved category has no uid.
   */
  function Project(cfg: AvailableFormats.Config, v: SoftwareView, store: Tables): (r: Outcome<SoftwareResponse>)
    ensures r.Thrown? <==>
      (|| (exists i :: 0 <= i < |Resolve(store.identifiers, v.identifier)| && Resolve(store.identifiers, v.identifier)[i].kind.None?)
       || (v.category.Some? && exists i :: 0 <= i < |Resolve(store.categories, v.category)| && Resolve(store.categories, v.category)[i].uid.None?))
    ensures r.Ok? ==> r.value.id == v.instanceId && r.value.name == v.name && r.value.description == v.description
    ensures r.Ok? ==> r.value.keywords == SoftwareKeywords(v.keywords)
    ensures r.Ok? ==> r.value.availableFormats == FormatsFor(v.formatSource)
    ensures r.Ok? ==> (r.value.contacts.Some? <==> NonEmpty(v.contactPoint))
    ensures r.Ok? ==> (r.value.doi.Some? <==> HasDoi(v.identifier, store))
    ensures r.Ok? ==> (SoftwareIdentifiers(Resolve(store.identifiers, v.identifier)).Ok?
      && r.value.doi == SoftwareIdentifiers(Resolve(store.identifiers, v.identifier)).value.doi
      && r.value.identifiers == SoftwareIdentifiers(Resolve(store.identifiers, v.identifier)).value.identifiers)
    ensures r.Ok? ==> (SoftwareCategories(v.category, Resolve(store.categories, v.category)).Ok?
      && r.value.categories == SoftwareCategories(v.category, Resolve(store.categories, v.category)).value)
    ensures r.Ok? ==> r.value.contacts == SoftwareContacts(cfg, v.instanceId, v.contactPoint)
  {
    var ids := Resolve(store.identifiers, v.identifier);
    var cats := Resolve(store.categories, v.category);
    match (SoftwareIdentifiers(ids), SoftwareCategories(v.category, cats))
    case (Thrown(e), _) => Thrown(e)
    case (_, Thrown(e)) => Thrown(e)
    case (Ok(idv), Ok(categories)) =>
      DoiLinked(v.identifier, store);
      Ok(SoftwareResponse(v.instanceId, v.name, v.description, FormatsFor(v.formatSource), SoftwareKeywords(v.keywords),
        idv.doi, idv.identifiers, SoftwareContacts(cfg, v.instanceId, v.contactPoint), categories))
  }

  /** `SoftwareApplicationGenerationJPA.generate` */
  function GenerateApplication(cfg: AvailableFormats.Config, a: SoftwareApplication, store: Tables): (r: Outcome<SoftwareResponse>)
    ensures r.Ok? ==> r.value.id == a.instanceId && r.value.keywords == SoftwareKeywords(a.keywords)
    ensures r.Ok? && a.downloadURL.Some? ==> r.value.availableFormats == FormatsFromUrl(a.downloadURL.value)
    ensures r.Ok? && a.downloadURL.None? && a.mainEntityOfPage.Some? ==> r.value.availableFormats == FormatsFromUrl(a.mainEntityOfPage.value)
    ensures r.Ok? && a.downloadURL.None? && a.mainEntityOfPage.None? ==> r.value.availableFormats.None?
    ensures r.Ok? ==> (r.value.contacts.Some? <==> NonEmpty(a.contactPoint))
    ensures r.Ok? ==> (SoftwareIdentifiers(Resolve(store.identifiers, a.identifier)).Ok?
      && r.value.doi == SoftwareIdentifiers(Resolve(store.identifiers, a.identifier)).value.doi
      && r.value.identifiers == SoftwareIdentifiers(Resolve(store.identifiers, a.identifier)).value.identifiers)
    ensures r.Ok? ==> (SoftwareCategories(a.category, Resolve(store.categories, a.category)).Ok?
      && r.value.categories == SoftwareCategories(a.category, Resolve(store.categories, a.category)).value)
    ensures r.Ok? ==> r.value.contacts == SoftwareContacts(cfg, a.instanceId, a.contactPoint)
  {
    Project(cfg, ApplicationView(a), store)
  }

  /** `SoftwareSourceCodeGenerationJPA.generate` */
  function GenerateSourceCode(cfg: AvailableFormats.Config, s: SoftwareSourceCode, store: Tables): (r: Outcome<SoftwareResponse>)
    ensures r.Ok? ==> r.value.id == s.instanceId && r.value.keywords == SoftwareKeywords(s.keywords)
    ensures r.Ok? && s.downloadURL.Some? ==> r.value.availableFormats == FormatsFromUrl(s.downloadURL.value)
    ensures r.Ok? && s.downloadURL.None? && s.codeRepository.Some? ==> r.value.availableFormats == FormatsFromUrl(s.codeRepository.value)
    ensures r.Ok? && s.downloadURL.None? && s.codeRepository.None? ==> r.value.availableFormats.None?
    ensures r.Ok? ==> (r.value.contacts.Some? <==> NonEmpty(s.contactPoint))
    ensures r.Ok? ==> (SoftwareIdentifiers(Resolve(store.identifiers, s.identifier)).Ok?
      && r.value.doi == SoftwareIdentifiers(Resolve(store.identifiers, s.identifier)).value.doi
      && r.value.identifiers == SoftwareIdentifiers(Resolve(store.identifiers, s.identifier)).value.identifiers)
    ensures r.Ok? ==> (SoftwareCategories(s.category, Resolve(store.categories, s.category)).Ok?
      && r.value.categories == SoftwareCategories(s.category, Resolve(store.categories, s.category)).value)
    ensures r.Ok? ==> r.value.contacts == SoftwareContacts(cfg, s.instanceId, s.contactPoint)
  {
    Project(cfg, SourceCodeView(s), store)
  }

  /**
   The two generators project alike: an application and a source code with
   the same shared fields and the same format link give the same response.
   */
  lemma SameProjection(cfg: AvailableFormats.Config, a: SoftwareApplication, s: SoftwareSourceCode, store: Tables)
    requires a.instanceId == s.instanceId && a.name == s.name && a.description == s.description && a.keywords == s.keywords
    requires a.identifier == s.identifier && a.contactPoint == s.contactPoint && a.category == s.category
    requires a.downloadURL == s.downloadURL
    requires a.downloadURL.None? ==> a.mainEntityOfPage == s.codeRepository
    ensures GenerateApplication(cfg, a, store) == GenerateSourceCode(cfg, s, store)
  {
  }
}
