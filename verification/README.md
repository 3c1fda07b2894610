# EPOS resources service: a Dafny model of the search core

This project models the decision logic of the EPOS resources-service backend:
how it searches and filters data products, facilities and organisations, what it
shows for one distribution (details and extended details), which formats a
distribution or a piece of software can be obtained in, and the cache routines of
`DatabaseConnections`. The metadata store is replaced by per-type tables (a map
from instance id to entity), and every read the code makes through a pre-fetched
snapshot is modelled as a batch request against those tables.

Modules, one per source file of the core plus shared ones:

- `Nullable`: Java `null` (`Option`) and exceptions that escape (`Outcome.Thrown`).
- `JavaString`: the `java.lang.String` operations used: `split` with a literal
  pattern, `trim`, `replace`, `contains`, `indexOf`, `String.join`, ASCII case mapping,
  `Boolean.parseBoolean`.
- `Seqs`: stream idioms: order-preserving filter, flat map, first-wins maps.
- `Entities`: the metadata entities, reduced to the fields the logic reads, and the tables.
- `Prefetch`: `retrieveBunch`/`fetchEntityBatch` as a restriction of a table to the
  requested ids, with every store call recorded, so that "one call per type and round"
  and "nothing requested twice" can be stated.
- `Query`: request parameters, keyword-list normalisation, full-text term marking,
  and the collaborators (geometry parsing and intersection, provider groups) as parameters.
- `Encoding`, `StringOrder`: UTF-8 and Base64 (section 4 of RFC 4648) with their
  decoders, and `String.compareTo`, for the sorted keyword facet and its node ids.
- `DistributionFilter`, `FacilityFilter`, `OrganizationFilter`: the three filter pipelines.
- `Organisations`: the organisation listing.
- `LinkedWebservice`: the search for distributions whose service accepts given parameters.
- `AvailableFormats`: the format rule table.
- `DistributionSearch`, `DistributionDetails`, `DistributionExtended`: the search
  response, the details and the extended details of a distribution.
- `Software`: the software application and source-code projections and the
  URL-extension format.
- `DatabaseConnections`: the user map, the first-wins plugin merge, the pool-size
  clamp and the error counter.

Every pre-fetching operation is paired with a transparency lemma: reading through
the snapshot gives what a direct lookup in the store gives. Every filter stage states
its membership condition as an if-and-only-if, that it returns its input unchanged
when its parameter is absent, and, where the source keeps input order, that its
output is a subsequence of its input.

## Model

| member | source | states |
|---|---|---|
| AvailableFormats.HrefRunsService | src/main/java/org/epos/api/core/AvailableFormatsGeneration.java:308-318 | the plain and the converted execute links of a distribution both start with the execute prefix of that distribution |
| AvailableFormats.DownloadFormat | src/main/java/org/epos/api/core/AvailableFormatsGeneration.java:117-125 | a downloadable file offers one ORIGINAL format named by the last "/"-segment of its media type (label upper-cased, href the download links joined by ","), and fails exactly when the media type is a non-empty run of "/" that the split empties |
| AvailableFormats.LastSegment | src/main/java/org/epos/api/core/AvailableFormatsGeneration.java:120-121 | the segment taken holds no "/" and the media type is some prefix ending in "/", that segment, then only slashes |
| AvailableFormats.PluginFormat | src/main/java/org/epos/api/core/AvailableFormatsGeneration.java:193-219 | a plugin relation gives one CONVERTED format exactly when its output is one of the three geo+json or two covjson outputs, labelled GEOJSON or COVJSON, carrying the relation's input format and plugin id and the converted execute link |
| AvailableFormats.PluginFormats | src/main/java/org/epos/api/core/AvailableFormatsGeneration.java:143-148 | no cache entry gives no conversions, a null relation list fails, and otherwise every format is converted from a relation of that distribution and every geo+json relation is offered |
| AvailableFormats.ValueFormats | src/main/java/org/epos/api/core/AvailableFormatsGeneration.java:235-286 | an image/ value gives a WMS or WMTS format exactly when the template or a "service" mapping names that service; any other value gives exactly one format, the GeoJSON one exactly for WFS json, a value containing geo%2Bjson, or a lower-cased value without line terminators containing geojson, geo+json or geo-json, else the value itself upper-case labelled |
| AvailableFormats.MappingFormats | src/main/java/org/epos/api/core/AvailableFormatsGeneration.java:226-291 | the mapping loop fails exactly when an encodingFormat mapping has no values; otherwise every format comes from an encodingFormat value and runs the service, and every non-image value is offered |
| AvailableFormats.NullEncodingStep | src/main/java/org/epos/api/core/AvailableFormatsGeneration.java:230-235 | an encodingFormat mapping with no values is met in the list exactly when it is the first mapping or is met in the rest |
| AvailableFormats.HeadFormats | src/main/java/org/epos/api/core/AvailableFormatsGeneration.java:235-287 | the formats of one mapping's values all come from those values, are ORIGINAL and run the service, and every non-image value appears |
| AvailableFormats.MappingsTail | src/main/java/org/epos/api/core/AvailableFormatsGeneration.java:230-288 | the per-mapping guarantees carry over from the rest of the list to the whole list |
| AvailableFormats.ReturnFormats | src/main/java/org/epos/api/core/AvailableFormatsGeneration.java:167-185 | one ORIGINAL format per declared return type, in order, linking the execute link for that type; GEOJSON for geojson or geo+json types, else the type itself upper-case labelled |
| AvailableFormats.Derived | src/main/java/org/epos/api/core/AvailableFormatsGeneration.java:140-164 | the service formats fail exactly on a null plugin list or an encodingFormat mapping without values, and every format runs the service and, when ORIGINAL, comes from an encodingFormat value |
| AvailableFormats.Generate | src/main/java/org/epos/api/core/AvailableFormatsGeneration.java:114-188 | a downloadable file gives only its download format; no resolvable first operation gives nothing; otherwise the plugin and mapping formats when they are not empty, and only when they are empty the formats of the operation's return types (one ORIGINAL format per return type, in order), or nothing without return types; the plugin and mapping failures throw |
| AvailableFormats.GenerateAll | src/main/java/org/epos/api/core/AvailableFormatsGeneration.java:75-81 | the map has a key exactly for each distribution id, fails when one distribution fails, and a repeated id holds the formats of its last occurrence |
| AvailableFormats.ThrowsStep | src/main/java/org/epos/api/core/AvailableFormatsGeneration.java:77-79 | the list fails exactly when its prefix fails or its last distribution fails |
| AvailableFormats.PutLastKeys | src/main/java/org/epos/api/core/AvailableFormatsGeneration.java:77-79 | putting the last distribution adds exactly its id to the keys |
| AvailableFormats.PutLastValues | src/main/java/org/epos/api/core/AvailableFormatsGeneration.java:77-79 | after putting the last distribution, each id holds the formats of its last occurrence |
| AvailableFormats.LastWithIdInit | src/main/java/org/epos/api/core/AvailableFormatsGeneration.java:77-79 | the last occurrence of an id in a list is also its last occurrence in any prefix holding it |
| DatabaseConnections.UserMap | src/main/java/org/epos/api/routines/DatabaseConnections.java:147-156 | keys are exactly the auth identifiers of the non-null users that have one, each key maps to a listed user with that identifier, and the first user listed with an identifier is the one kept |
| DatabaseConnections.UserMapStep | src/main/java/org/epos/api/routines/DatabaseConnections.java:149-156 | adding a user in front of the list (which the merge rule lets win) keeps the three properties of the map |
| DatabaseConnections.CreateSafeUserMap | src/main/java/org/epos/api/routines/DatabaseConnections.java:142-157 | a null or empty list gives the empty map; otherwise the map of UserMap: keyed by auth identifier, nulls dropped, the first duplicate kept |
| DatabaseConnections.PutIfAbsent | src/main/java/org/epos/api/routines/DatabaseConnections.java:218 | the key ends up present, holding its old relations when they were non-null and the new ones otherwise; every other key is untouched |
| DatabaseConnections.MergePlugins | src/main/java/org/epos/api/routines/DatabaseConnections.java:217-219 | keys are exactly the listed distribution ids; a key holds a non-null list exactly when some plugin for it has one, and then the first such plugin's relations |
| DatabaseConnections.MergeStep | src/main/java/org/epos/api/routines/DatabaseConnections.java:217-219 | one more plugin at the end keeps the three properties of the merged table |
| DatabaseConnections.UpToNull | src/main/java/org/epos/api/routines/DatabaseConnections.java:214-222 | the plugins before the first null entry, in order (the null entry throws and the catch keeps what was merged so far) |
| DatabaseConnections.RetrievePlugins | src/main/java/org/epos/api/routines/DatabaseConnections.java:204-225 | no reply gives the empty table; otherwise, reading the reply up to its first null entry, a distribution id is a key exactly when some plugin lists it, its value is present exactly when some listing plugin has relations, and then it is the relations of the first such plugin |
| DatabaseConnections.ParseInt | src/main/java/org/epos/api/routines/DatabaseConnections.java:63 | Integer.parseInt: a missing, empty or sign-only text throws, results lie in the 32-bit range, and a plain ASCII digit string parses exactly when its value fits |
| DatabaseConnections.DecimalValue | src/main/java/org/epos/api/routines/DatabaseConnections.java:63 | the decimal writing of a number reads back as that number |
| DatabaseConnections.ParseShow | src/main/java/org/epos/api/routines/DatabaseConnections.java:63 | every 32-bit number written in decimal parses back to itself |
| DatabaseConnections.MaxDbConnections | src/main/java/org/epos/api/routines/DatabaseConnections.java:62-67 | the pool size never exceeds 18, stays 18 when the variable does not parse, and is the parsed value exactly when that value is at most 18 |
| DatabaseConnections.MaxDbConnectionsOfNumber | src/main/java/org/epos/api/routines/DatabaseConnections.java:62-67 | a variable holding a 32-bit number k gives min(k, 18) |
| DatabaseConnections.SafeCall | src/main/java/org/epos/api/routines/DatabaseConnections.java:76-89 | a non-null result is returned with the error counter unchanged; a null result or an exception returns the default and raises the counter by one |
| DatabaseConnections.Sync | src/main/java/org/epos/api/routines/DatabaseConnections.java:92-136 | a non-positive pool size throws; otherwise the plugin table is replaced by the retrieved one, the counter is kept (never reset), and the process exits exactly when the counter has reached the pool size |
| DistributionDetails.Locate | src/main/java/org/epos/api/core/distributions/DistributionDetailsGenerationJPA.java:63-86 | the details go ahead exactly when the distribution is stored, its first data-product link resolves, and, when it lists an access service, its first service link resolves; the located entities are those the links name |
| DistributionDetails.FirstFound | src/main/java/org/epos/api/core/distributions/DistributionDetailsGenerationJPA.java:130-139 | the first entity the links resolve to, skipping unresolved links; none exactly when no link resolves |
| DistributionDetails.FirstResolvedIsFirstFound | src/main/java/org/epos/api/core/distributions/DistributionDetailsGenerationJPA.java:132-136 | the head of the resolved, null-filtered list is the first found entity |
| DistributionDetails.OperationOf | src/main/java/org/epos/api/core/distributions/DistributionDetailsGenerationJPA.java:130-139 | no operation without a web service or without operation links; otherwise the first operation the links resolve to |
| DistributionDetails.PreFetch | src/main/java/org/epos/api/core/distributions/DistributionDetailsGenerationJPA.java:144-237 | at most seven batch requests, none of them empty, and the snapshot holds exactly the stored entities among the ids the data product, service and operation link |
| DistributionDetails.RestrictedReads | src/main/java/org/epos/api/core/distributions/DistributionDetailsGenerationJPA.java:144-214 | reading links through the snapshot gives what the store gives whenever the snapshot kept every linked id |
| DistributionDetails.ServiceSnapshotTransparent | src/main/java/org/epos/api/core/distributions/DistributionDetailsGenerationJPA.java:466-543 | the web-service block reads the same entities from the snapshot as from the store |
| DistributionDetails.SnapshotTransparent | src/main/java/org/epos/api/core/distributions/DistributionDetailsGenerationJPA.java:242-289 | every entity the builders read through the pre-fetched snapshot is the one the store holds |
| DistributionDetails.TypeName | src/main/java/org/epos/api/core/distributions/DistributionDetailsGenerationJPA.java:301-304 | a null type stays null; otherwise the last "/"-segment, which fails exactly when the type is a non-empty run of "/" |
| DistributionDetails.BasicFields | src/main/java/org/epos/api/core/distributions/DistributionDetailsGenerationJPA.java:294-329 | fails exactly when the type's split is empty; otherwise keeps the id, takes the type's last segment, carries the status and editor id as they are (null included), and links the details and, with ?extended=true appended, the extended details |
| DistributionDetails.DoiValues | src/main/java/org/epos/api/core/distributions/DistributionDetailsGenerationJPA.java:338-345 | the values of the DOI identifiers, null values kept; the list is non-empty exactly when some identifier is a DOI |
| DistributionDetails.DdssValues | src/main/java/org/epos/api/core/distributions/DistributionDetailsGenerationJPA.java:346-351 | exactly the non-null values of the DDSS-ID identifiers |
| DistributionDetails.DatasetInfo | src/main/java/org/epos/api/core/distributions/DistributionDetailsGenerationJPA.java:334-357 | the DOI list is set exactly when a DOI identifier exists and holds exactly their values; the internal ids are exactly the non-null DDSS-ID values |
| DistributionDetails.DetailsKeywords | src/main/java/org/epos/api/core/distributions/DistributionDetailsGenerationJPA.java:362-380 | exactly the non-empty lower-cased, trimmed pieces of the product's and (when present) the service's keyword texts split on ",\t"; each is already normalised |
| DistributionDetails.KeywordsOf | src/main/java/org/epos/api/core/distributions/DistributionDetailsGenerationJPA.java:364-368 | the keyword pieces of one text are the search's product keywords of that text |
| DistributionDetails.FormatDate | src/main/java/org/epos/api/core/distributions/DistributionDetailsExtendedGenerationJPA.java:714-723 | the formatted date holds no space, no ".0" and a "Z" |
| DistributionDetails.ReplaceDotZeroGone | src/main/java/org/epos/api/core/distributions/DistributionDetailsExtendedGenerationJPA.java:718 | replacing ".0" by "Z" left to right leaves no ".0" |
| DistributionDetails.NoDotZeroAfterSpaces | src/main/java/org/epos/api/core/distributions/DistributionDetailsExtendedGenerationJPA.java:718 | replacing spaces by "T" does not create a ".0" |
| DistributionDetails.NoDotZeroAfterZ | src/main/java/org/epos/api/core/distributions/DistributionDetailsExtendedGenerationJPA.java:719-720 | appending "Z" does not create a ".0" |
| DistributionDetails.FormatDateFixes | src/main/java/org/epos/api/core/distributions/DistributionDetailsExtendedGenerationJPA.java:714-723 | a date already in the shown form is left unchanged, so formatting is idempotent |
| DistributionDetails.CoverageOf | src/main/java/org/epos/api/core/distributions/DistributionDetailsGenerationJPA.java:402-432 | no period gives an empty coverage; otherwise each bound is present exactly when the period has it and is the formatted timestamp of that bound |
| DistributionDetails.Names | src/main/java/org/epos/api/core/distributions/DistributionDetailsGenerationJPA.java:452-461 | the name of each resolved category, in order, null names kept |
| DistributionDetails.UriTexts | src/main/java/org/epos/api/core/distributions/DistributionDetailsGenerationJPA.java:470-476 | the uri of each resolved documentation, in order |
| DistributionDetails.ServiceInfoOf | src/main/java/org/epos/api/core/distributions/DistributionDetailsGenerationJPA.java:466-543 | documentation present exactly when listed and then the uris joined by "."; provider present exactly when it resolves and the provider expansion is non-empty, and then its first entry; service types present exactly when listed and then the resolved category names |
| DistributionDetails.Contacts | src/main/java/org/epos/api/core/distributions/DistributionDetailsGenerationJPA.java:548-579 | a SERVICEPROVIDERS entry exactly when the service has contact points, a DATAPROVIDERS entry exactly when the product has, an ALL entry exactly when both have, in that order, each linking the sender for its own entity |
| DistributionDetails.UntaggedAbsent | src/main/java/org/epos/api/core/distributions/DistributionDetailsGenerationJPA.java:675-678 | removing a tag a text does not hold leaves the text unchanged |
| DistributionDetails.KeptIfTrue | src/main/java/org/epos/api/core/distributions/DistributionDetailsGenerationJPA.java:682-683 | the flag text is kept exactly when it reads "true" in any letter case, and is otherwise null |
| DistributionDetails.ServiceParameterOf | src/main/java/org/epos/api/core/distributions/DistributionDetailsGenerationJPA.java:668-685 | name, property and default copied; enum values the mapping's values or empty; label and type present exactly when given, unchanged when they hold no "@en" / "xsd:"; required present exactly when given and true exactly for "true"; read-only and multiple kept exactly when they read "true" |
| DistributionDetails.TagsRemoved | src/main/java/org/epos/api/core/distributions/DistributionDetailsGenerationJPA.java:675-678 | a label with "@en" appended loses exactly that tag, and a "xsd:"-prefixed type loses exactly that prefix |
| DistributionDetails.ServiceEndpoint | src/main/java/org/epos/api/core/distributions/DistributionDetailsGenerationJPA.java:589-591 | the template up to its first "{": a prefix of the template without "{", ending where the template ends or at a "{"; fails exactly when the template is a non-empty run of "{" |
| DistributionDetails.EndpointPrefix | src/main/java/org/epos/api/core/distributions/DistributionDetailsGenerationJPA.java:590 | the first piece of a split at "{" is a "{"-free prefix of the template that ends at its end or at a "{" |
| DistributionDetails.InvocationOf | src/main/java/org/epos/api/core/distributions/DistributionDetailsGenerationJPA.java:584-604 | no operation keeps the access endpoint and no parameters; otherwise the endpoint is the template, the service endpoint is present exactly when the template is, the operation id is the uid, and there is one parameter per resolved mapping |
| DistributionDetails.ProviderNames | src/main/java/org/epos/api/core/distributions/DistributionDetailsGenerationJPA.java:615-623 | exactly the publisher legal names, joined by ",", of publishers whose legal-name list is non-empty |
| DistributionDetails.ProviderNamesAgainstSearch | src/main/java/org/epos/api/core/distributions/DistributionDetailsGenerationJPA.java:615-623 | the details' data-provider facet names are the search's names, except that the search can also add the empty name |
| DistributionDetails.FacetItemOf | src/main/java/org/epos/api/core/distributions/DistributionDetailsGenerationJPA.java:633-658 | fails exactly when a resolved category has no uid, the distribution has no uid, or its status is null (the status name is taken); the categories are none exactly when no uid holds "category:" and otherwise exactly those uids; the hash is the hash of the uid; status and editor id are the details' |
| DistributionDetails.FacetItemFields | src/main/java/org/epos/api/core/distributions/DistributionDetailsGenerationJPA.java:633-658 | fails exactly when a resolved category has no uid or the distribution has no uid; keeps id, meta id, status and editor id; categories none exactly when no uid holds "category:" and otherwise exactly those uids; the hash is the hash of the uid |
| DistributionDetails.Build | src/main/java/org/epos/api/core/distributions/DistributionDetailsGenerationJPA.java:242-289 | fails exactly when the type split, the template split or the formats fail, a category uid is null, the uid is null or the status is null; otherwise every part is its builder's result: the basic fields, the invocation from the operation, the dataset ids, the keywords, the locations, the coverage, the data providers and science domains exactly when the product links them, the service block exactly when the service and its links resolve, the contacts and the facet item, which shares the details' id and links; both carry the generated formats |
| DistributionDetails.Generate | src/main/java/org/epos/api/core/distributions/DistributionDetailsGenerationJPA.java:59-105 | a missing id parameter throws; an unlocatable distribution gives null; otherwise the details built from what the store links |
| DistributionExtended.PersonIds | src/main/java/org/epos/api/core/distributions/DistributionDetailsExtendedGenerationJPA.java:223-227 | an id is collected exactly when some fetched contact point names it as its person |
| DistributionExtended.FirstRound | src/main/java/org/epos/api/core/distributions/DistributionDetailsExtendedGenerationJPA.java:205-217 | the first phase issues at most eight non-empty batch requests, and its snapshot holds exactly the stored identifiers, locations, periods, organisations, categories, contact points, documentations and operations among the collected ids |
| DistributionExtended.SecondRound | src/main/java/org/epos/api/core/distributions/DistributionDetailsExtendedGenerationJPA.java:219-234 | the second phase issues at most two non-empty requests and adds exactly the stored persons named by the fetched contact points and the stored mappings linked by the fetched operations |
| DistributionExtended.PreFetch | src/main/java/org/epos/api/core/distributions/DistributionDetailsExtendedGenerationJPA.java:139-237 | at most ten batch requests, none empty, and the snapshot is the two-phase restriction of the store to the linked ids |
| DistributionExtended.ContactInfoOf | src/main/java/org/epos/api/core/distributions/DistributionDetailsExtendedGenerationJPA.java:428-446 | a contact shows the contact point's id, meta id and uid, and its person exactly when the person link is set and resolves, with that person's id |
| DistributionExtended.ContactsTransparent | src/main/java/org/epos/api/core/distributions/DistributionDetailsExtendedGenerationJPA.java:425-448 | reading contacts and their persons through the two-phase snapshot gives what the store gives |
| DistributionExtended.OperationsTransparent | src/main/java/org/epos/api/core/distributions/DistributionDetailsExtendedGenerationJPA.java:571-611 | reading operations and their mappings through the two-phase snapshot gives what the store gives |
| DistributionExtended.ServiceSnapshotTransparent | src/main/java/org/epos/api/core/distributions/DistributionDetailsExtendedGenerationJPA.java:477-615 | the web-service block reads the same entities from the snapshot as from the store |
| DistributionExtended.SnapshotTransparent | src/main/java/org/epos/api/core/distributions/DistributionDetailsExtendedGenerationJPA.java:268-298 | every entity the extended builders read through the pre-fetched snapshot is the one the store holds |
| DistributionExtended.ExtendedFields | src/main/java/org/epos/api/core/distributions/DistributionDetailsExtendedGenerationJPA.java:303-333 | fails exactly when the plain details' basic fields fail; otherwise the plain fields without meta id, editor id or access endpoint, with the free-text version as the versioning status |
| DistributionExtended.IdentifierEntries | src/main/java/org/epos/api/core/distributions/DistributionDetailsExtendedGenerationJPA.java:365-381 | no identifier links give the single plain entry holding the uid; otherwise one entry per resolved identifier with its type and value |
| DistributionExtended.ProductInfoOf | src/main/java/org/epos/api/core/distributions/DistributionDetailsExtendedGenerationJPA.java:357-472 | id, uid, identifiers and contacts as resolved; coverage of the first period only; providers present exactly when publishers are listed and then exactly the expansions of the resolved publishers; science domains present exactly when categories are listed and non-empty |
| DistributionExtended.ParameterOf | src/main/java/org/epos/api/core/distributions/DistributionDetailsExtendedGenerationJPA.java:586-606 | name, property and default copied; enum values the mapping's values or empty; required exactly when the text parses as true; read-only and multiple copied unchanged; label and type present exactly when given |
| DistributionExtended.ParameterAgainstDetails | src/main/java/org/epos/api/core/distributions/DistributionDetailsExtendedGenerationJPA.java:590-605 | the extended parameter agrees with the plain details' parameter on every shared field, differing only in that a missing required flag reads false and the read-only and multiple flags are not filtered on "true" |
| DistributionExtended.OperationInfoOf | src/main/java/org/epos/api/core/distributions/DistributionDetailsExtendedGenerationJPA.java:580-609 | an operation shows its HTTP method, its template as endpoint, its uid and one parameter per resolved mapping, in order |
| DistributionExtended.OperationsShown | src/main/java/org/epos/api/core/distributions/DistributionDetailsExtendedGenerationJPA.java:571-611 | no related-operation list shows nothing; otherwise exactly the resolved operations the distribution relates to |
| DistributionExtended.ServiceInfoOf | src/main/java/org/epos/api/core/distributions/DistributionDetailsExtendedGenerationJPA.java:477-615 | contacts, description and name copied; documentation present exactly when listed, the uris joined by "."; provider present exactly when it resolves to a non-empty expansion; one coverage per resolved period; service types present exactly when listed; operations as shown |
| DistributionExtended.ServiceAgainstDetails | src/main/java/org/epos/api/core/distributions/DistributionDetailsExtendedGenerationJPA.java:477-615 | the extended service block agrees with the plain details on description, documentation, name, provider and service types, and its first coverage is the plain details' coverage |
| DistributionExtended.ContactsAsWritten | src/main/java/org/epos/api/core/distributions/DistributionDetailsExtendedGenerationJPA.java:620-652 | throws exactly when a service is present with a null contact list, or the service has contacts and the product's contact list is null; otherwise the plain details' contact entries |
| DistributionExtended.NullServiceContactsThrow | src/main/java/org/epos/api/core/distributions/DistributionDetailsExtendedGenerationJPA.java:623 | a service with a null contact list makes the extended contact step throw, whereas the corrected step gives only the product's entry |
| DistributionExtended.FacetItemAsWritten | src/main/java/org/epos/api/core/distributions/DistributionDetailsExtendedGenerationJPA.java:682 | a product with a null category list throws; otherwise the corrected facet item |
| DistributionExtended.FacetItemOf | src/main/java/org/epos/api/core/distributions/DistributionDetailsExtendedGenerationJPA.java:662-709 | fails exactly when a resolved category has no uid or the distribution has no uid; categories none exactly when no uid holds "category:"; keeps id, meta id, editor id and the details' versioning status as it is; the hash is the hash of the uid |
| DistributionExtended.Build | src/main/java/org/epos/api/core/distributions/DistributionDetailsExtendedGenerationJPA.java:268-298 | fails exactly when the type split or the formats fail, a category uid is null or the uid is null; the basic fields are the extended fields and the facet's status is the free-text version; the product block is the one built from the linked product; keywords and contacts are the plain details'; the service block is present exactly when the service is and shows the operations related to the distribution |
| DistributionExtended.Generate | src/main/java/org/epos/api/core/distributions/DistributionDetailsExtendedGenerationJPA.java:58-112 | a missing id parameter throws; an unlocatable distribution gives null; otherwise the extended details built from what the store links |
| DistributionFilter.FullText | src/main/java/org/epos/api/core/filtersearch/DistributionFilterSearch.java:513-624 | no "q" parameter keeps the list; otherwise a product stays exactly when every search term is found among its full-text fields |
| DistributionFilter.Keywords | src/main/java/org/epos/api/core/filtersearch/DistributionFilterSearch.java:486-508 | no "keywords" parameter keeps the list; otherwise an order-preserving sublist whose members are exactly the products with keywords sharing a normalised keyword with the request |
| DistributionFilter.OrganisationStage | src/main/java/org/epos/api/core/filtersearch/DistributionFilterSearch.java:398-481 | no "organisations" parameter keeps the list; otherwise a product stays exactly when a provider id expanded from its publishers or its services' providers is among the requested ids |
| DistributionFilter.TemporalBounds | src/main/java/org/epos/api/core/filtersearch/DistributionFilterSearch.java:675-692 | no date parameters give no bounds; each bound is the parse of its parameter; a start date that does not parse leaves both bounds unset, and an end date is read only after the start date parsed |
| DistributionFilter.DateRange | src/main/java/org/epos/api/core/filtersearch/DistributionFilterSearch.java:359-393 | no bounds keep the list; otherwise an order-preserving sublist holding exactly the products with a temporal extent one of whose stored periods lies within the bounds |
| DistributionFilter.AnyPeriodWithinAsWritten | src/main/java/org/epos/api/core/filtersearch/DistributionFilterSearch.java:372-373 | the any-match over the product's periods throws exactly when an unresolved period is reached before a match; true means some resolved period matches, false that all resolve and none matches |
| DistributionFilter.NullBeforeMatchStep | src/main/java/org/epos/api/core/filtersearch/DistributionFilterSearch.java:372-373 | a resolved non-matching first period leaves the throw decision to the rest of the list |
| DistributionFilter.ScanStep | src/main/java/org/epos/api/core/filtersearch/DistributionFilterSearch.java:372-373 | the scan's verdict on the tail carries over to the whole list when the first period resolves and does not match |
| DistributionFilter.DateRangeAsWritten | src/main/java/org/epos/api/core/filtersearch/DistributionFilterSearch.java:359-393 | with bounds set, the stage throws exactly when some product's scan reaches an unresolved period first; otherwise it agrees with the corrected stage |
| DistributionFilter.ScanThrowsStep | src/main/java/org/epos/api/core/filtersearch/DistributionFilterSearch.java:366-375 | some product throws exactly when the first does or some later one does |
| DistributionFilter.DateRangeUnresolvedPeriod | src/main/java/org/epos/api/core/filtersearch/DistributionFilterSearch.java:373 | a product whose only period is not stored makes the stage as written throw, whereas the corrected stage drops the product |
| DistributionFilter.BoundingBox | src/main/java/org/epos/api/core/filtersearch/DistributionFilterSearch.java:265-354 | without all four bounds or a readable box the list is kept; otherwise an order-preserving sublist holding exactly the products sharing a meta id with a product whose services' or own locations intersect the box |
| DistributionFilter.ScienceDomain | src/main/java/org/epos/api/core/filtersearch/DistributionFilterSearch.java:183-211 | no parameter keeps the list; otherwise an order-preserving sublist holding exactly the products with categories one of whose resolved names is requested |
| DistributionFilter.ServiceType | src/main/java/org/epos/api/core/filtersearch/DistributionFilterSearch.java:216-260 | no parameter keeps the list; otherwise exactly the products one of whose services' resolved category names is requested |
| DistributionFilter.KeywordsScienceDomainCommute | src/main/java/org/epos/api/core/filtersearch/DistributionFilterSearch.java:49-53 | filtering by keywords and by science domain commute |
| DistributionFilter.ProviderIdsOf | src/main/java/org/epos/api/core/filtersearch/DistributionFilterSearch.java:121-123 | every provider link of a fetched web service is collected |
| DistributionFilter.PreFetch | src/main/java/org/epos/api/core/filtersearch/DistributionFilterSearch.java:62-154 | at most six first-round and two follow-up requests, none empty, one per entity kind in each round; a follow-up never asks again for an id the first round already found; the snapshot is a sub-table of the store |
| DistributionFilter.TraceShape | src/main/java/org/epos/api/core/filtersearch/DistributionFilterSearch.java:91-151 | any eight calls of the fetch shape give the request bounds, the distinct kinds and the disjointness of the follow-up |
| DistributionFilter.FirstRoundDistinct | src/main/java/org/epos/api/core/filtersearch/DistributionFilterSearch.java:91-137 | the first-round requests name distinct entity kinds |
| DistributionFilter.SnapshotShape | src/main/java/org/epos/api/core/filtersearch/DistributionFilterSearch.java:62-154 | the pre-fetched snapshot is the store restricted to the two-phase collected ids |
| DistributionFilter.FetchedDistribution | src/main/java/org/epos/api/core/filtersearch/DistributionFilterSearch.java:73-91 | every distribution a product links that the store holds is fetched under its id |
| DistributionFilter.FetchedService | src/main/java/org/epos/api/core/filtersearch/DistributionFilterSearch.java:100-111 | every web service a fetched distribution links that the store holds is fetched under its id |
| DistributionFilter.PreFetchTransparent | src/main/java/org/epos/api/core/filtersearch/DistributionFilterSearch.java:62-154 | every product of the list reads the same linked entities from the snapshot as from the store |
| DistributionFilter.RecordTransparent | src/main/java/org/epos/api/core/filtersearch/DistributionFilterSearch.java:62-154 | one listed product reads the same linked entities from the snapshot as from the store |
| DistributionFilter.FetchedServiceTransparent | src/main/java/org/epos/api/core/filtersearch/DistributionFilterSearch.java:114-151 | a fetched service's locations, categories and provider read the same from the snapshot as from the store |
| DistributionFilter.ServiceLocationsFetched | src/main/java/org/epos/api/core/filtersearch/DistributionFilterSearch.java:118-138 | a fetched service's stored locations are in the snapshot |
| DistributionFilter.ServiceCategoriesFetched | src/main/java/org/epos/api/core/filtersearch/DistributionFilterSearch.java:124-151 | a fetched service's stored categories are in the snapshot |
| DistributionFilter.ServiceProviderFetched | src/main/java/org/epos/api/core/filtersearch/DistributionFilterSearch.java:121-145 | a fetched service's provider resolves the same in the snapshot as in the store |
| DistributionFilter.ViewsAgree | src/main/java/org/epos/api/core/filtersearch/DistributionFilterSearch.java:195-457 | a product whose links read the same in two tables has the same distributions, services, organisations, locations, categories and full-text fields in both |
| DistributionFilter.FullTextTransparent | src/main/java/org/epos/api/core/filtersearch/DistributionFilterSearch.java:513-624 | the full-text stage gives the same result on the snapshot as on the store |
| DistributionFilter.OrganisationStageTransparent | src/main/java/org/epos/api/core/filtersearch/DistributionFilterSearch.java:398-457 | the organisation stage gives the same result on the snapshot as on the store |
| DistributionFilter.BoundingBoxTransparent | src/main/java/org/epos/api/core/filtersearch/DistributionFilterSearch.java:265-354 | the bounding-box stage gives the same result on the snapshot as on the store |
| DistributionFilter.ScienceDomainTransparent | src/main/java/org/epos/api/core/filtersearch/DistributionFilterSearch.java:183-211 | the science-domain stage gives the same result on the snapshot as on the store |
| DistributionFilter.ServiceTypeTransparent | src/main/java/org/epos/api/core/filtersearch/DistributionFilterSearch.java:216-260 | the service-type stage gives the same result on the snapshot as on the store |
| DistributionFilter.Stages | src/main/java/org/epos/api/core/filtersearch/DistributionFilterSearch.java:43-57 | a product survives exactly when it is listed and meets every requested condition: full text, keywords, organisations, a period within the dates, a same-meta-id product in the box, science domain and service type |
| DistributionFilter.TextStages | src/main/java/org/epos/api/core/filtersearch/DistributionFilterSearch.java:48-50 | a product survives the full-text, keyword and organisation stages exactly when it is listed and meets each requested condition |
| DistributionFilter.TextStagesTransparent | src/main/java/org/epos/api/core/filtersearch/DistributionFilterSearch.java:48-50 | the first three stages give the same result on the snapshot as on the store |
| DistributionFilter.StagesTransparent | src/main/java/org/epos/api/core/filtersearch/DistributionFilterSearch.java:43-57 | the chain of stages gives the same result on the snapshot as on the store |
| DistributionFilter.DoFilters | src/main/java/org/epos/api/core/filtersearch/DistributionFilterSearch.java:43-57 | filtering through the pre-fetched snapshot gives what the stages give when reading the store directly |
| DistributionFilter.StagesAsWritten | src/main/java/org/epos/api/core/filtersearch/DistributionFilterSearch.java:48-54 | with the date stage as written, the chain throws exactly when dates are requested and some product that passed the text stages reaches an unresolved period first; otherwise it gives the corrected chain's result |
| DistributionFilter.DoFiltersAsWritten | src/main/java/org/epos/api/core/filtersearch/DistributionFilterSearch.java:43-57 | the pipeline as written throws exactly when dates are requested and some listed product meeting the text conditions reaches an unresolved period first; otherwise it gives the corrected pipeline's result |
| DistributionSearch.Versions | src/main/java/org/epos/api/core/distributions/DistributionSearchGenerationJPA.java:116-125 | without a back-office user and a versioningStatus parameter only PUBLISHED is shown; otherwise the comma-split names, throwing exactly when one names no status |
| DistributionSearch.ShouldInclude | src/main/java/org/epos/api/core/distributions/DistributionSearchGenerationJPA.java:130-139 | shown exactly when the status is set and requested, and it is published or the user is an administrator or its editor; throws exactly when a null status is compared with PUBLISHED or a null editor id is compared for a non-administrator |
| DistributionSearch.Visible | src/main/java/org/epos/api/core/distributions/DistributionSearchGenerationJPA.java:59-64 | throws exactly when the versions do or some product's test throws; otherwise an order-preserving sublist holding exactly the products the test admits; without back-office versioning exactly the published ones, throwing exactly when some status is null |
| DistributionSearch.PreFetch | src/main/java/org/epos/api/core/distributions/DistributionSearchGenerationJPA.java:145-216 | at most six non-empty batch requests; the snapshot holds exactly the stored distributions the products link, the services those distributions link, the publishers and service providers, and the product and service categories |
| DistributionSearch.FirstRound | src/main/java/org/epos/api/core/distributions/DistributionSearchGenerationJPA.java:149-183 | the first round fetches exactly the linked categories, publishers, distributions and the services of the fetched distributions, one non-empty request each at most |
| DistributionSearch.SecondRound | src/main/java/org/epos/api/core/distributions/DistributionSearchGenerationJPA.java:185-213 | the follow-up adds exactly the service providers and service categories to what the first round found |
| DistributionSearch.SingleCall | src/main/java/org/epos/api/core/distributions/DistributionSearchGenerationJPA.java:221-224 | a batch fetch issues at most one request and never an empty one |
| DistributionSearch.PreFetchMatchesFilterSnapshot | src/main/java/org/epos/api/core/distributions/DistributionSearchGenerationJPA.java:145-216 | the search's snapshot agrees with the filter's snapshot on distributions, services, organisations and categories |
| DistributionSearch.ViewAgrees | src/main/java/org/epos/api/core/distributions/DistributionSearchGenerationJPA.java:245-300 | a product whose links read the same in two tables gets the same view in both |
| DistributionSearch.DistributionAgrees | src/main/java/org/epos/api/core/distributions/DistributionSearchGenerationJPA.java:305-351 | a distribution of such a product gets the same view in both tables |
| DistributionSearch.PreFetchTransparent | src/main/java/org/epos/api/core/distributions/DistributionSearchGenerationJPA.java:78-95 | every product gets the same view from the snapshot as from the store |
| DistributionSearch.SameViewTables | src/main/java/org/epos/api/core/distributions/DistributionSearchGenerationJPA.java:245-351 | tables that agree on the four fetched kinds give the same product views |
| DistributionSearch.SplitCategories | src/main/java/org/epos/api/core/distributions/DistributionSearchGenerationJPA.java:256-267 | throws exactly when a resolved category has no uid; otherwise the list holds exactly the uids with "category:" and the science domains exactly the categories without |
| DistributionSearch.ProductKeywords | src/main/java/org/epos/api/core/distributions/DistributionSearchGenerationJPA.java:281-287 | no keyword text gives none; every collected keyword is non-empty and normalised |
| DistributionSearch.ProductKeywordsMembers | src/main/java/org/epos/api/core/distributions/DistributionSearchGenerationJPA.java:281-287 | a keyword is collected exactly when it is the non-empty normalised form of some piece of the ",\t" split |
| DistributionSearch.FirstProvider | src/main/java/org/epos/api/core/distributions/DistributionSearchGenerationJPA.java:316-362 | the item's service provider is the first expansion of the first service whose provider expands to something, and none exactly when none does |
| DistributionSearch.EditorFullName | src/main/java/org/epos/api/core/distributions/DistributionSearchGenerationJPA.java:371-379 | "ingestor" is shown as Ingestor; any other editor has a full name exactly when the id is set and the user map knows it, and it is first name, space, last name |
| DistributionSearch.ProcessDistribution | src/main/java/org/epos/api/core/distributions/DistributionSearchGenerationJPA.java:305-395 | throws exactly when the formats do or a back-office request meets a product with a null status; the item keeps id, meta id and uid, links details and extended details, hashes the uid or shows "", shows the product's providers and categories or none when empty, and back-office fields exactly for back-office requests, with the product's status; service providers, organisations and service types are exactly those of the resolved services |
| DistributionSearch.ProcessDistributions | src/main/java/org/epos/api/core/distributions/DistributionSearchGenerationJPA.java:290-299 | one result per resolved distribution, in order, each being processDistribution's result for it (its id, the record's data providers, its services' types and providers); throws exactly when some distribution's formats fail or, on a back-office request, the product's status is null |
| DistributionSearch.ProcessedStep | src/main/java/org/epos/api/core/distributions/DistributionSearchGenerationJPA.java:290-299 | one more processed distribution in front keeps, for every position, processDistribution's result and its item guarantees |
| DistributionSearch.ProcessDataProduct | src/main/java/org/epos/api/core/distributions/DistributionSearchGenerationJPA.java:245-300 | throws exactly when a category uid is null, some formats fail or a back-office request meets a null status; contributes the product's keywords and science domains, exactly the items processDistribution builds for its distributions (one per distribution id, carrying the publisher names), exactly the categories of the distributions' services as service types, and as organisations exactly the named publishers and the providers of the distributions' services |
| DistributionSearch.ItemsProcessed | src/main/java/org/epos/api/core/distributions/DistributionSearchGenerationJPA.java:290-299 | the collected items are exactly the items processDistribution builds for the record's distributions |
| DistributionSearch.ItemIsProcessed | src/main/java/org/epos/api/core/distributions/DistributionSearchGenerationJPA.java:290-299 | every collected item is one processDistribution builds for some distribution of the record |
| DistributionSearch.ProcessedIsItem | src/main/java/org/epos/api/core/distributions/DistributionSearchGenerationJPA.java:290-299 | every item processDistribution builds for a distribution of the record is collected |
| DistributionSearch.Contributed | src/main/java/org/epos/api/core/distributions/DistributionSearchGenerationJPA.java:245-300 | assembling a product's contribution keeps its keywords and domains, takes exactly the processed items (one per distribution id), exactly the categories of the distributions' services, and exactly the named publishers plus the services' providers |
| DistributionSearch.ItemsOf | src/main/java/org/epos/api/core/distributions/DistributionSearchGenerationJPA.java:394 | the item set holds exactly the processed items |
| DistributionSearch.ItemIndex | src/main/java/org/epos/api/core/distributions/DistributionSearchGenerationJPA.java:394 | every collected item comes from some processed distribution |
| DistributionSearch.ServiceTypesOf | src/main/java/org/epos/api/core/distributions/DistributionSearchGenerationJPA.java:345 | the service types hold exactly those of the processed distributions |
| DistributionSearch.OrganizationsOf | src/main/java/org/epos/api/core/distributions/DistributionSearchGenerationJPA.java:331 | the organisations hold exactly those of the processed distributions |
| DistributionSearch.PublisherOrganizations | src/main/java/org/epos/api/core/distributions/DistributionSearchGenerationJPA.java:270-278 | exactly the resolved publishers with a legal name |
| DistributionSearch.Merge | src/main/java/org/epos/api/core/distributions/DistributionSearchGenerationJPA.java:83-95 | each of the five shared sets (items, keywords, science domains, service types, organisations) holds exactly what some product contributed to it |
| DistributionSearch.Contributions | src/main/java/org/epos/api/core/distributions/DistributionSearchGenerationJPA.java:90-94 | one contribution per record, in order, each being processDataProduct's result for it |
| DistributionSearch.Collect | src/main/java/org/epos/api/core/distributions/DistributionSearchGenerationJPA.java:91-95 | throws exactly when some product's processing throws; otherwise every product's processing succeeds and each of the five shared sets holds exactly what some product's processDataProduct contributed to it |
| DistributionSearch.ResultsOf | src/main/java/org/epos/api/core/distributions/DistributionSearchGenerationJPA.java:405-430 | throws exactly when facets are requested without a facet type; faceted exactly for the three known facet types; the items are the collected ones |
| DistributionSearch.ProviderNodes | src/main/java/org/epos/api/core/distributions/DistributionSearchGenerationJPA.java:452-468 | one node per id of the provider group, in order: the provider, its related data providers, its related service providers |
| DistributionSearch.OrganisationNodes | src/main/java/org/epos/api/core/distributions/DistributionSearchGenerationJPA.java:447-469 | the organisation nodes carry exactly the group ids of the expanded providers, in order |
| DistributionSearch.BuildResponse | src/main/java/org/epos/api/core/distributions/DistributionSearchGenerationJPA.java:400-487 | throws exactly when the results do; otherwise the response describes the aggregation: its results, four filters named keywords, organisations, sciencedomains, servicetypes in that order, the keyword nodes exactly the collected keywords sorted, each with its Base64 id, organisation nodes following the provider groups, domain and type nodes exactly the collected categories |
| DistributionSearch.KeywordNodeIdDecodes | src/main/java/org/epos/api/core/distributions/DistributionSearchGenerationJPA.java:443 | a keyword node's id decodes back to the keyword |
| DistributionSearch.Selected | src/main/java/org/epos/api/core/distributions/DistributionSearchGenerationJPA.java:52-72 | throws exactly when the visibility test does; otherwise a product is selected exactly when it is stored, the caller may see it, and it survives the filters among the visible products |
| DistributionSearch.Aggregated | src/main/java/org/epos/api/core/distributions/DistributionSearchGenerationJPA.java:76-95 | a selection failure throws; otherwise aggregating over the pre-fetched snapshot gives exactly the aggregation over the store |
| DistributionSearch.Views | src/main/java/org/epos/api/core/distributions/DistributionSearchGenerationJPA.java:78-95 | one view per product, in order |
| DistributionSearch.ViewsOfSnapshot | src/main/java/org/epos/api/core/distributions/DistributionSearchGenerationJPA.java:76-95 | the views read through the snapshot are the views read from the store |
| DistributionSearch.SameViews | src/main/java/org/epos/api/core/distributions/DistributionSearchGenerationJPA.java:91-95 | products that read alike in two tables give the same views |
| DistributionSearch.Generate | src/main/java/org/epos/api/core/distributions/DistributionSearchGenerationJPA.java:47-111 | succeeds exactly when the aggregation of the selected products and its results do, and the response then describes that aggregation |
| FacilityFilter.FullText | src/main/java/org/epos/api/core/filtersearch/FacilityFilterSearch.java:256-318 | no "q" parameter keeps the list; otherwise a facility stays exactly when every search term is among its keywords or inside its title, description or uid |
| FacilityFilter.Keywords | src/main/java/org/epos/api/core/filtersearch/FacilityFilterSearch.java:225-251 | no "keywords" parameter keeps the list; otherwise an order-preserving sublist holding exactly the facilities with keywords sharing a normalised keyword with the request |
| FacilityFilter.ScanAsWritten | src/main/java/org/epos/api/core/filtersearch/FacilityFilterSearch.java:156-167 | the any-match over a facility's resolved locations throws exactly when a location without geometry is reached before a hit; true means some location hits, false that all have geometry and none hits |
| FacilityFilter.NullBeforeHitStep | src/main/java/org/epos/api/core/filtersearch/FacilityFilterSearch.java:156-167 | a first location with geometry that misses leaves the throw decision to the rest |
| FacilityFilter.ScanStep | src/main/java/org/epos/api/core/filtersearch/FacilityFilterSearch.java:156-167 | the scan's verdict on the tail carries over when the first location has geometry and misses |
| FacilityFilter.BoundingBox | src/main/java/org/epos/api/core/filtersearch/FacilityFilterSearch.java:131-177 | without all four bounds or a readable box the list is kept; otherwise an order-preserving sublist holding exactly the facilities one of whose resolved locations hits the box |
| FacilityFilter.BoundingBoxAsWritten | src/main/java/org/epos/api/core/filtersearch/FacilityFilterSearch.java:131-177 | with a box, the stage throws exactly when some facility's scan reaches a location without geometry first; otherwise it agrees with the corrected stage |
| FacilityFilter.ScanThrowsStep | src/main/java/org/epos/api/core/filtersearch/FacilityFilterSearch.java:150-169 | some facility throws exactly when the first does or some later one does |
| FacilityFilter.BoundingBoxMissingGeometry | src/main/java/org/epos/api/core/filtersearch/FacilityFilterSearch.java:161 | a facility whose only location has no geometry makes the stage as written throw, whereas the corrected stage drops it |
| FacilityFilter.UidIndex | src/main/java/org/epos/api/core/filtersearch/FacilityFilterSearch.java:97-99 | the uid index throws exactly when two categories share a uid; otherwise it maps every category uid to that category's instance id and holds nothing else |
| FacilityFilter.DuplicateUidStep | src/main/java/org/epos/api/core/filtersearch/FacilityFilterSearch.java:97-99 | a duplicate uid lies in the tail or repeats the head's uid |
| FacilityFilter.FacilityType | src/main/java/org/epos/api/core/filtersearch/FacilityFilterSearch.java:87-112 | no parameter keeps the list; otherwise throws exactly when category uids collide, and else an order-preserving sublist holding exactly the facilities whose type names a requested category |
| FacilityFilter.PreFetch | src/main/java/org/epos/api/core/filtersearch/FacilityFilterSearch.java:59-82 | at most one request; every fetched location is the stored one, and every location a facility links reads the same from the batch as from the store |
| FacilityFilter.Stages | src/main/java/org/epos/api/core/filtersearch/FacilityFilterSearch.java:46-51 | a facility survives exactly when it is listed and meets every requested condition: all full-text terms found, a shared normalised keyword, a location hitting the box, a type uid naming a requested category; the stages fail exactly when the facility-type stage finds colliding uids |
| FacilityFilter.BoundingBoxTransparent | src/main/java/org/epos/api/core/filtersearch/FacilityFilterSearch.java:131-177 | the bounding-box stage gives the same result on any two location tables that agree on the linked locations |
| FacilityFilter.DoFilters | src/main/java/org/epos/api/core/filtersearch/FacilityFilterSearch.java:40-54 | filtering through the pre-fetched locations gives what the stages give reading the store directly |
| FacilityFilter.DoFiltersAsWritten | src/main/java/org/epos/api/core/filtersearch/FacilityFilterSearch.java:40-54 | the pipeline as written agrees with the corrected pipeline whenever it does not throw, and throws whenever the corrected one does |
| LinkedWebservice.ValueFor | src/main/java/org/epos/api/core/distributions/LinkedEntityWebserviceSearch.java:201 | the parameter named by the mapping's property, or "" when there is none |
| LinkedWebservice.MappingValid | src/main/java/org/epos/api/core/distributions/LinkedEntityWebserviceSearch.java:200-218 | a mapping accepts the request exactly when its value passes: read-only mappings need the default to equal it, enum mappings need it among the values, others accept anything |
| LinkedWebservice.AbsentParameter | src/main/java/org/epos/api/core/distributions/LinkedEntityWebserviceSearch.java:200-206 | with no parameter for the property the mapping is judged on "", so a read-only mapping passes exactly when its default is "" |
| LinkedWebservice.MappingProps | src/main/java/org/epos/api/core/distributions/LinkedEntityWebserviceSearch.java:172-179 | exactly the properties of the operation's resolved mappings that accept the request |
| LinkedWebservice.DistributionValid | src/main/java/org/epos/api/core/distributions/LinkedEntityWebserviceSearch.java:141-194 | valid exactly when the first operation link resolves, that operation has mappings, and every request key is the property of an accepting mapping |
| LinkedWebservice.CoveredIff | src/main/java/org/epos/api/core/distributions/LinkedEntityWebserviceSearch.java:182 | a request key is among the collected properties exactly when some accepting mapping has it as property |
| LinkedWebservice.NoParametersAcceptAll | src/main/java/org/epos/api/core/distributions/LinkedEntityWebserviceSearch.java:146-182 | with no request parameters, a distribution is valid exactly when its operation resolves and has mappings |
| LinkedWebservice.FewerParameters | src/main/java/org/epos/api/core/distributions/LinkedEntityWebserviceSearch.java:182 | dropping a request parameter keeps a valid distribution valid |
| LinkedWebservice.JoinedOrNull | src/main/java/org/epos/api/core/distributions/LinkedEntityWebserviceSearch.java:237-239 | a list joined by ";" when present, null otherwise |
| LinkedWebservice.CreateItem | src/main/java/org/epos/api/core/distributions/LinkedEntityWebserviceSearch.java:224-254 | throws exactly when the formats fail; the item keeps id, meta id and uid, the status as it is (null included), links details and extended details, and joins title and description |
| LinkedWebservice.Generate | src/main/java/org/epos/api/core/distributions/LinkedEntityWebserviceSearch.java:63-135 | throws exactly when some valid distribution's item fails; otherwise holds exactly the items of the valid distributions, judged against lookup maps where the first entity with an id wins |
| LinkedWebservice.SearchMembers | src/main/java/org/epos/api/core/distributions/LinkedEntityWebserviceSearch.java:84-91 | the collected items are exactly the items of the valid distributions |
| LinkedWebservice.Without | src/main/java/org/epos/api/core/distributions/LinkedEntityWebserviceSearch.java:42 | exactly the items whose id is not the excluded one |
| LinkedWebservice.GenerateExcluding | src/main/java/org/epos/api/core/distributions/LinkedEntityWebserviceSearch.java:37-47 | the same outcome as the plain search, minus the item with the given id |
| OrganizationFilter.AddressIds | src/main/java/org/epos/api/core/filtersearch/OrganizationFilterSearch.java:53-55 | every address an organisation links is collected |
| OrganizationFilter.PreFetch | src/main/java/org/epos/api/core/filtersearch/OrganizationFilterSearch.java:43-87 | at most two non-empty requests of distinct kinds; the snapshot holds exactly the stored identifiers and addresses the organisations link |
| OrganizationFilter.FullText | src/main/java/org/epos/api/core/filtersearch/OrganizationFilterSearch.java:92-159 | no "q" parameter keeps the list; otherwise exactly the organisations for which every search term lies inside a legal name, an identifier's value, type or type followed by value, or the uid |
| OrganizationFilter.IdentifierFieldsText | src/main/java/org/epos/api/core/filtersearch/OrganizationFilterSearch.java:122-140 | every identifier field is matched by substring |
| OrganizationFilter.OnlySubstringFields | src/main/java/org/epos/api/core/filtersearch/OrganizationFilterSearch.java:109-150 | the organisation full text only ever matches by substring |
| OrganizationFilter.Country | src/main/java/org/epos/api/core/filtersearch/OrganizationFilterSearch.java:164-190 | no "country" parameter keeps the list; otherwise an order-preserving sublist holding exactly the organisations whose stored country, lower-cased, is among the lower-cased comma-split parameter |
| OrganizationFilter.CountryIgnoresCase | src/main/java/org/epos/api/core/filtersearch/OrganizationFilterSearch.java:171-187 | the country match ignores letter case on both sides |
| OrganizationFilter.Stages | src/main/java/org/epos/api/core/filtersearch/OrganizationFilterSearch.java:34-35 | an organisation survives exactly when it passes the full-text stage (if requested) and the country stage (if requested) |
| OrganizationFilter.FullTextTransparent | src/main/java/org/epos/api/core/filtersearch/OrganizationFilterSearch.java:92-159 | the full-text stage gives the same result on any identifier tables that agree on the linked identifiers |
| OrganizationFilter.CountryTransparent | src/main/java/org/epos/api/core/filtersearch/OrganizationFilterSearch.java:164-190 | the country stage gives the same result on any address tables that agree on the linked addresses |
| OrganizationFilter.DoFilters | src/main/java/org/epos/api/core/filtersearch/OrganizationFilterSearch.java:30-38 | filtering through the pre-fetched snapshot gives what the stages give reading the store directly |
| Organisations.Selected | src/main/java/org/epos/api/core/organizations/OrganisationsGeneration.java:98-135 | an organisation is selected exactly when the lower-cased type names data providers and it publishes a stored product of some distribution, names service providers and it provides a service of some distribution, or names facility providers and it owns something |
| Organisations.GroupIdsOf | src/main/java/org/epos/api/core/organizations/OrganisationsGeneration.java:141-149 | exactly the ids of the provider groups |
| Organisations.TypeFilter | src/main/java/org/epos/api/core/organizations/OrganisationsGeneration.java:88-157 | an order-preserving sublist holding exactly the organisations whose id is in a provider group of the selected organisations |
| Organisations.TypeIgnoresCase | src/main/java/org/epos/api/core/organizations/OrganisationsGeneration.java:89 | the type parameter is compared without regard to letter case |
| Organisations.AddressBatch | src/main/java/org/epos/api/core/organizations/OrganisationsGeneration.java:165-182 | every address an organisation links reads the same from the batch as from the store |
| Organisations.BatchCountry | src/main/java/org/epos/api/core/organizations/OrganisationsGeneration.java:193-194 | an organisation's country read through the batch is the stored one |
| Organisations.ExactCountry | src/main/java/org/epos/api/core/organizations/OrganisationsGeneration.java:162-197 | an order-preserving sublist holding exactly the organisations whose stored country equals the parameter exactly |
| Organisations.CountryStagesCombined | src/main/java/org/epos/api/core/organizations/OrganisationsGeneration.java:61-71 | after the case-insensitive comma-list stage, the exact stage leaves nothing for a parameter with a comma and otherwise leaves exactly the organisations the exact stage alone keeps |
| Organisations.CommaCountryRefused | src/main/java/org/epos/api/core/organizations/OrganisationsGeneration.java:194 | a country that holds a comma is never one of the comma-split requested countries |
| Organisations.CommaFreeSplit | src/main/java/org/epos/api/core/filtersearch/OrganizationFilterSearch.java:171 | a comma-free parameter splits into itself alone |
| Organisations.ToBeans | src/main/java/org/epos/api/core/organizations/OrganisationsGeneration.java:202-249 | one bean per organisation with a legal name, in order, carrying its id, and exactly the beans of such organisations |
| Organisations.BeansFrom | src/main/java/org/epos/api/core/organizations/OrganisationsGeneration.java:227-248 | one bean per named organisation, in order |
| Organisations.NamedOnly | src/main/java/org/epos/api/core/organizations/OrganisationsGeneration.java:228 | the kept organisations all have a legal name and come from the list |
| Organisations.BeansFromBatch | src/main/java/org/epos/api/core/organizations/OrganisationsGeneration.java:204-236 | beans built from the address batch equal beans built from the store |
| Organisations.BeansOfNamed | src/main/java/org/epos/api/core/organizations/OrganisationsGeneration.java:227-248 | the beans are exactly those of the named organisations |
| Organisations.Filtered | src/main/java/org/epos/api/core/organizations/OrganisationsGeneration.java:50-71 | an organisation is kept exactly when it is listed and meets the type, full-text and country conditions that are requested; a comma in the country leaves none |
| Organisations.Generate | src/main/java/org/epos/api/core/organizations/OrganisationsGeneration.java:29-83 | with an id: throws exactly when the organisation is not stored, and otherwise gives exactly that organisation's bean when it has a legal name and nothing when it has none; without: exactly the beans of the kept organisations that have a legal name, of the requested country, none for a comma-holding country |
| Software.ApplicationView | src/main/java/org/epos/api/core/software/SoftwareApplicationGenerationJPA.java:134-141 | formats come from the download URL when present and otherwise from the main page; the other projected fields are copied |
| Software.SourceCodeView | src/main/java/org/epos/api/core/software/SoftwareSourceCodeGenerationJPA.java:131-138 | formats come from the download URL when present and otherwise from the code repository; the other projected fields are copied |
| Software.TrimmedNonEmpty | src/main/java/org/epos/api/core/software/SoftwareApplicationGenerationJPA.java:58-61 | the kept pieces are exactly the non-empty trimmed pieces, each already trimmed |
| Software.TrimmedNonEmptyNone | src/main/java/org/epos/api/core/software/SoftwareApplicationGenerationJPA.java:58-62 | nothing is kept exactly when every piece is blank |
| Software.SoftwareKeywords | src/main/java/org/epos/api/core/software/SoftwareApplicationGenerationJPA.java:55-65 | no keywords exactly when the text is null, blank, or splits on "," into blank pieces only; otherwise exactly the non-empty trimmed pieces |
| Software.TrimmedNonEmptyKeeps | src/main/java/org/epos/api/core/software/SoftwareApplicationGenerationJPA.java:58-61 | pieces already trimmed and non-empty are kept unchanged |
| Software.KeywordsRoundTrip | src/main/java/org/epos/api/core/software/SoftwareApplicationGenerationJPA.java:55-65 | joining trimmed, comma-free, non-empty keywords with "," and reading them back gives the same keywords |
| Software.SoftwareIdentifiers | src/main/java/org/epos/api/core/software/SoftwareApplicationGenerationJPA.java:68-90 | throws exactly when a resolved identifier has no type; the DOI list is present exactly when a DOI identifier exists and holds exactly their values; the identifier list is present exactly when a DDSS-ID identifier has a value and holds exactly those values |
| Software.IdentifiersAgainstDetails | src/main/java/org/epos/api/core/software/SoftwareApplicationGenerationJPA.java:68-90 | with every type present, the DOI list is the distribution details' DOI list and the identifier list is their internal ids, absent when empty |
| Software.SoftwareContacts | src/main/java/org/epos/api/core/software/SoftwareApplicationGenerationJPA.java:92-104 | a contact list exactly when contact points are linked, then one DATAPROVIDERS entry linking the sender for the software |
| Software.ContactsAgainstDetails | src/main/java/org/epos/api/core/software/SoftwareApplicationGenerationJPA.java:92-104 | the software contact entry is the details' data-provider entry for a product without service, absent when that is empty |
| Software.SoftwareCategories | src/main/java/org/epos/api/core/software/SoftwareApplicationGenerationJPA.java:106-129 | throws exactly when categories are listed and a resolved one has no uid; otherwise categories exactly when some uid holds "category:", and then exactly those uids |
| Software.RunEnd | src/main/java/org/epos/api/core/software/SoftwareApplicationGenerationJPA.java:157 | the maximal alphanumeric run from a position |
| Software.LastExtension | src/main/java/org/epos/api/core/software/SoftwareApplicationGenerationJPA.java:159-167 | the last position before a bound where the format pattern matches, and none exactly when it matches nowhere before it |
| Software.ExtractFormat | src/main/java/org/epos/api/core/software/SoftwareApplicationGenerationJPA.java:157-167 | a found format is a non-empty alphanumeric text |
| Software.LastExtensionSkip | src/main/java/org/epos/api/core/software/SoftwareApplicationGenerationJPA.java:163-165 | positions without a match do not change the last match |
| Software.MatchEnd | src/main/java/org/epos/api/core/software/SoftwareApplicationGenerationJPA.java:160-163 | a match consumes at least the dot |
| Software.MatchIsLastBeforeEnd | src/main/java/org/epos/api/core/software/SoftwareApplicationGenerationJPA.java:163-165 | a match is the last one before its own end, so the scan resuming after it cannot lose it |
| Software.ScanFormat | src/main/java/org/epos/api/core/software/SoftwareApplicationGenerationJPA.java:159-167 | the matcher loop that keeps the last group finds the same format as the last-match definition |
| Software.ExtractFormatOfName | src/main/java/org/epos/api/core/software/SoftwareApplicationGenerationJPA.java:157-167 | a URL ending in "." followed by an alphanumeric extension, optionally followed by "/" or "?" and a dot-free tail, yields that extension |
| Software.FormatsFromUrl | src/main/java/org/epos/api/core/software/SoftwareApplicationGenerationJPA.java:143-156 | no format exactly when no extension is found; otherwise one original format whose name, label and format are the upper-cased extension and whose link is the URL |
| Software.FormatOfFileLink | src/main/java/org/epos/api/core/software/SoftwareApplicationGenerationJPA.java:143-167 | a file link with an extension gives exactly the one upper-cased original format |
| Software.FormatsFor | src/main/java/org/epos/api/core/software/SoftwareApplicationGenerationJPA.java:134-141 | no source gives no formats; otherwise formats exactly when an extension is found, one, linking the source |
| Software.DoiLinked | src/main/java/org/epos/api/core/software/SoftwareApplicationGenerationJPA.java:73-80 | the software has a DOI exactly when a resolved identifier is of type DOI |
| Software.Project | src/main/java/org/epos/api/core/software/SoftwareApplicationGenerationJPA.java:33-132 | throws exactly when a resolved identifier has no type or a listed category has no uid; otherwise copies id, name and description, and gives the keywords, the formats, the DOI and identifier lists of the resolved identifiers, the "category:" uids of the resolved categories, and the data-provider contact entry exactly when contact points are linked |
| Software.GenerateApplication | src/main/java/org/epos/api/core/software/SoftwareApplicationGenerationJPA.java:33-167 | the application's id and keywords; formats from the download URL, else the main page, else none; the DOI and identifier lists, categories and contact entry of its resolved links |
| Software.GenerateSourceCode | src/main/java/org/epos/api/core/software/SoftwareSourceCodeGenerationJPA.java:33-164 | the source code's id and keywords; formats from the download URL, else the code repository, else none; the DOI and identifier lists, categories and contact entry of its resolved links |
| Software.SameProjection | src/main/java/org/epos/api/core/software/SoftwareSourceCodeGenerationJPA.java:33-164 | an application and a source code agreeing on the projected fields give the same response |
| Prefetch.Restrict | src/main/java/org/epos/api/core/distributions/DistributionDetailsExtendedGenerationJPA.java:242-263 | exactly the stored entities among the requested ids |
| Prefetch.FetchEntityBatch | src/main/java/org/epos/api/core/distributions/DistributionDetailsExtendedGenerationJPA.java:242-263 | no request for an empty id set, otherwise one request for exactly those ids; the found map is the store restricted to them |
| Prefetch.PutAll | src/main/java/org/epos/api/core/distributions/DistributionSearchGenerationJPA.java:197 | the keys of both maps, the added map's entries winning |
| Prefetch.RestrictTwice | src/main/java/org/epos/api/core/distributions/DistributionSearchGenerationJPA.java:193-213 | adding a second restricted fetch to a first gives the restriction to both id sets |
| Prefetch.PutAllIdempotent | src/main/java/org/epos/api/core/distributions/DistributionSearchGenerationJPA.java:197 | adding a map to itself changes nothing |
| Prefetch.NoEmptyAppend | src/main/java/org/epos/api/core/distributions/DistributionDetailsExtendedGenerationJPA.java:246-248 | no request is empty in a concatenation exactly when none is in either part |
| Prefetch.RequestedIds | src/main/java/org/epos/api/core/filtersearch/DistributionFilterSearch.java:91-151 | exactly the ids some request of the kind asks for |
| Prefetch.LinkIds | src/main/java/org/epos/api/core/filtersearch/DistributionFilterSearch.java:72-85 | exactly the ids some record of the list links |
| Prefetch.ValueLinkIds | src/main/java/org/epos/api/core/distributions/DistributionSearchGenerationJPA.java:176-180 | exactly the ids some fetched entity links |
| Prefetch.RestrictAgrees | src/main/java/org/epos/api/core/filtersearch/DistributionFilterSearch.java:91-94 | a restriction containing every linked id reads those links as the store does |
| Prefetch.SecondRound | src/main/java/org/epos/api/core/filtersearch/DistributionFilterSearch.java:141-151 | fetching only the ids the first round did not find and merging gives the restriction to all wanted ids |
| Prefetch.Kinds | src/main/java/org/epos/api/core/filtersearch/DistributionFilterSearch.java:91-151 | exactly the kinds of the requests |
| Prefetch.DistinctKindsAppend | src/main/java/org/epos/api/core/filtersearch/DistributionFilterSearch.java:91-137 | two request lists with disjoint kinds concatenate to one with distinct kinds |
| Prefetch.OneCallKinds | src/main/java/org/epos/api/core/filtersearch/DistributionFilterSearch.java:159-178 | a single batch fetch names at most its one kind |
| Prefetch.RequestedIdsAppend | src/main/java/org/epos/api/core/filtersearch/DistributionFilterSearch.java:91-151 | the ids asked across two request lists are the ids asked by each |
| Prefetch.NeverTwice | src/main/java/org/epos/api/core/filtersearch/DistributionFilterSearch.java:141-151 | a follow-up that skips ids the first round found never asks for a stored id twice |
| Query.CommaSet | src/main/java/org/epos/api/core/filtersearch/DistributionFilterSearch.java:405-406 | the comma-split values, none holding a comma |
| Query.KeywordList | src/main/java/org/epos/api/core/filtersearch/DistributionFilterSearch.java:491-504 | one entry per comma-split piece, each lower-cased and trimmed |
| Query.NormaliseKeywordIdempotent | src/main/java/org/epos/api/core/filtersearch/DistributionFilterSearch.java:492-493 | normalising a keyword twice is normalising it once |
| Query.Marked | src/main/java/org/epos/api/core/filtersearch/DistributionFilterSearch.java:527-616 | the marked terms are among the search terms |
| Query.MarkedIff | src/main/java/org/epos/api/core/filtersearch/DistributionFilterSearch.java:527-616 | a term is marked exactly when some field satisfies it |
| Query.AllMarkedIff | src/main/java/org/epos/api/core/filtersearch/DistributionFilterSearch.java:618 | every term is marked exactly when every term is found in some field |
| Query.GroupIds | src/main/java/org/epos/api/core/filtersearch/DistributionFilterSearch.java:468-476 | a provider's group lists the provider first, then its related data providers and related service providers |
| Encoding.Utf8 | src/main/java/org/epos/api/core/distributions/DistributionSearchGenerationJPA.java:443 | the encoding takes between one and four bytes per character |
| Encoding.Utf8Ascii | src/main/java/org/epos/api/core/distributions/DistributionSearchGenerationJPA.java:443 | ASCII text encodes to its own character codes |
| Encoding.Utf8RoundTrip | src/main/java/org/epos/api/core/distributions/DistributionSearchGenerationJPA.java:443 | decoding the encoding of a text gives the text back |
| Encoding.Utf8Injective | src/main/java/org/epos/api/core/distributions/DistributionSearchGenerationJPA.java:443 | different texts have different encodings |
| Encoding.Base64 | src/main/java/org/epos/api/core/distributions/DistributionSearchGenerationJPA.java:443 | four characters per started three-byte group |
| Encoding.Base64RoundTrip | src/main/java/org/epos/api/core/distributions/DistributionSearchGenerationJPA.java:443 | decoding the Base64 text of some bytes gives the bytes back |
| Encoding.TextId | src/main/java/org/epos/api/core/distributions/DistributionSearchGenerationJPA.java:443 | a keyword id has a length divisible by four and is empty exactly for the empty keyword |
| Encoding.TextIdDecodes | src/main/java/org/epos/api/core/distributions/DistributionSearchGenerationJPA.java:443 | a keyword id decodes back to the keyword |
| Encoding.TextIdInjective | src/main/java/org/epos/api/core/distributions/DistributionSearchGenerationJPA.java:443 | different keywords get different ids |
| StringOrder.BelowIrreflexive | src/main/java/org/epos/api/core/distributions/DistributionSearchGenerationJPA.java:437 | no keyword sorts before itself |
| StringOrder.BelowTransitive | src/main/java/org/epos/api/core/distributions/DistributionSearchGenerationJPA.java:437 | the keyword order is transitive |
| StringOrder.BelowTotal | src/main/java/org/epos/api/core/distributions/DistributionSearchGenerationJPA.java:437 | any two different keywords are ordered |
| StringOrder.Insert | src/main/java/org/epos/api/core/distributions/DistributionSearchGenerationJPA.java:435-438 | inserting into a sorted list keeps it sorted, adds exactly the keyword, and leaves the list unchanged when it is already there |
| StringOrder.SortedEnumeration | src/main/java/org/epos/api/core/distributions/DistributionSearchGenerationJPA.java:435-438 | the keyword set listed in ascending order, each keyword once |
| StringOrder.AscendingUnique | src/main/java/org/epos/api/core/distributions/DistributionSearchGenerationJPA.java:435-438 | there is only one ascending list of a given set, so the sorted keyword list is determined by the set |
| JavaString.IndexFrom | src/main/java/org/epos/api/core/distributions/DistributionDetailsGenerationJPA.java:590 | the first occurrence of the delimiter at or after a position, and none exactly when there is none |
| JavaString.JoinPieces | src/main/java/org/epos/api/core/distributions/DistributionDetailsGenerationJPA.java:302 | joining the pieces of a split with the delimiter gives the text back |
| JavaString.SplitAvoidsDelimiter | src/main/java/org/epos/api/core/filtersearch/DistributionFilterSearch.java:406 | no piece of a split holds the delimiter |
| JavaString.SplitRecovers | src/main/java/org/epos/api/core/distributions/DistributionDetailsGenerationJPA.java:302 | the text is its split pieces joined, followed by the dropped trailing delimiters |
| JavaString.SplitLastSegment | src/main/java/org/epos/api/core/distributions/DistributionDetailsGenerationJPA.java:302-303 | the last segment of a split holds no delimiter and ends the text up to trailing delimiters |
| JavaString.SplitEmptyIff | src/main/java/org/epos/api/core/distributions/DistributionDetailsGenerationJPA.java:302-303 | a split is empty exactly when the text is a non-empty run of the delimiter |
| JavaString.Trim | src/main/java/org/epos/api/core/software/SoftwareApplicationGenerationJPA.java:59 | a trimmed text starts and ends with a non-blank character |
| JavaString.TrimIdempotent | src/main/java/org/epos/api/core/software/SoftwareApplicationGenerationJPA.java:59 | trimming twice is trimming once |
| JavaString.TrimEmptyAllBlank | src/main/java/org/epos/api/core/software/SoftwareApplicationGenerationJPA.java:57 | a text trims to empty exactly when every character is blank |
| JavaString.SplitOfJoin | src/main/java/org/epos/api/core/software/SoftwareApplicationGenerationJPA.java:58 | splitting a join of delimiter-free pieces, the last non-empty, gives the pieces back |
| JavaString.ReplaceAbsent | src/main/java/org/epos/api/core/distributions/DistributionDetailsGenerationJPA.java:675-678 | replacing a text that does not occur changes nothing |
| JavaString.ReplaceCharMap | src/main/java/org/epos/api/core/distributions/DistributionDetailsExtendedGenerationJPA.java:718 | replacing one character by another maps each character independently |
| JavaString.SplitFirstPrefix | src/main/java/org/epos/api/core/distributions/DistributionDetailsGenerationJPA.java:590 | the first piece of a split is a delimiter-free prefix ending where the text ends or at a delimiter |
| Seqs.Filter | src/main/java/org/epos/api/core/filtersearch/DistributionFilterSearch.java:498-507 | an order-preserving sublist holding exactly the elements that pass |
| Seqs.FilterCommutes | src/main/java/org/epos/api/core/filtersearch/DistributionFilterSearch.java:48-54 | two filters applied in either order give the same list |
| Seqs.FlatMap | src/main/java/org/epos/api/core/distributions/DistributionSearchGenerationJPA.java:448-469 | exactly the elements of the mapped lists |
| Seqs.FirstWins | src/main/java/org/epos/api/core/distributions/LinkedEntityWebserviceSearch.java:109-115 | a key maps to the first element with that key, and every key of the list is present |
| Entities.Resolve | src/main/java/org/epos/api/core/filtersearch/DistributionFilterSearch.java:201-206 | the entities the links name that the table holds, nulls dropped: exactly those, never more than the links |
| Entities.ResolveAll | src/main/java/org/epos/api/core/filtersearch/DistributionFilterSearch.java:201-206 | the entities a list of ids names that the table holds, nulls dropped |
| Entities.ResolveAgree | src/main/java/org/epos/api/core/distributions/DistributionDetailsExtendedGenerationJPA.java:372-373 | two tables that agree on the linked ids resolve the links alike |
| JavaString.Lower | src/main/java/org/epos/api/core/filtersearch/DistributionFilterSearch.java:492 | lower-casing keeps the length and maps each character |
| JavaString.Upper | src/main/java/org/epos/api/core/software/SoftwareApplicationGenerationJPA.java:146 | upper-casing keeps the length and maps each character |

## Left out

- Store access (`AbstractAPI.retrieve`, `retrieveBunch`, `retrieveAll`, `LinkedEntityAPI.retrieveFromLinkedEntity`) is the `Tables` value: a batch returns the requested ids the table holds, and `retrieveAll` is a list parameter.
- JTS WKT parsing, `Geometry.intersects` and `BBoxToPolygon` are floating-point geometry in a library; they are the uninterpreted `bbox`, `read` and `intersects` parameters of `Query.Collaborators`.
- `SimpleDateFormat` and `Timestamp`: dates are integers on a totally ordered time line, the request dates come through a `parseDate` parameter, and `formatDate` is modelled only as the rewrite of a given timestamp text.
- `DataServiceProviderGeneration.getProviders`, `DigestUtils.sha256Hex`, `EnvironmentVariables.API_HOST` and the other environment values are parameters (`Env`, `Config`).
- `FacetsGeneration`: the category facet tree is not built; the model stops at the list of `category:` uids handed to it.
- `SpatialInformation` and the spatial and temporal output blocks of the responses are not modelled beyond which extent is used.
- Bean fields copied verbatim from an entity (licence, access rights, provenance, software version and licence fields, parameter min/max/valuePattern, and similar) are not modelled.
- Parallelism and locking (`parallelStream`, `ConcurrentHashMap`, `ReentrantReadWriteLock`, `CompletableFuture`, executors) are modelled sequentially. Where the source collects into a concurrent set, the model either returns a set or keeps input order, and contracts speak only of membership.
- LinkedWebservice.Generate: above 50 mappings the source collects properties into a `ConcurrentHashMap` key set, which throws on a null property; only the sequential path is modelled.
- Logging, `[PERF]` timing, the RPC router, Gson, `doRequest`, the retrieval calls and the locking inside `syncDatabaseConnections` (their results are inputs of `DatabaseConnections.Sync`), the user-management call behind `retrieveUserMap`, Zabbix monitoring and `System.exit` (the exit is the `exits` flag of the refresh state).
- `LinkedEntityParametersSearch` and `SoftwareDetails` only dispatch over store lookups; they are not part of this model.
- `PreFetchedEntities` and the response bean classes are field containers; the `Tables` datatype mirrors the former.
- JavaString.Lower: `toLowerCase`, `toUpperCase` and `equalsIgnoreCase` are modelled for the ASCII letters only.
- StringOrder.SortedEnumeration: `String.compareTo` compares UTF-16 code units; the model compares Unicode scalar values, which agree except between supplementary characters and characters from U+E000 up.
- Encoding.Utf8: `String.getBytes()` uses the platform charset; the model fixes it to UTF-8.
- Software.SoftwareIdentifiers: an identifier with a null type makes the source throw, modelled as `Thrown`; the model does not say which exception.
- DistributionSearch.Generate: the search result and facet lists come out of hash sets in the source; the model states their contents, not their order, except for the keyword facet, which the source sorts.
- The date stage of `DistributionFilterSearch` resolves periods by a point lookup in the store, not from the snapshot; the model passes that table (`temporals`) separately.
- DistributionFilter.DoFilters: composes the corrected date stage; the pipeline as written, whose date stage can throw on an unresolved period, is DistributionFilter.DoFiltersAsWritten (with DistributionFilter.StagesAsWritten and DistributionFilter.DateRangeAsWritten).
- DistributionSearch.Selected: runs the corrected DistributionFilter.DoFilters, so it does not promise the throw the date stage as written raises; DistributionFilter.DoFiltersAsWritten states when that happens.
- DistributionSearch.Generate: builds on DistributionSearch.Selected and so on the corrected date stage; the as-written throw is stated by DistributionFilter.DoFiltersAsWritten only.
- DistributionExtended.Build: uses the corrected contacts and facet item (null lists read as empty); the throws as written are DistributionExtended.ContactsAsWritten and DistributionExtended.FacetItemAsWritten.
- DistributionExtended.Generate: builds on DistributionExtended.Build and so on the corrected contacts and facet item.
- DatabaseConnections.ParseInt: only the ASCII digits 0-9 are digits; `Integer.parseInt` also accepts the other Unicode decimal digits, which the model rejects as a `NumberFormatException`.
- JavaString.Upper: like JavaString.Lower, maps the ASCII letters only; `toUpperCase` also maps other letters and can change the length (ß becomes SS).
- `getVersions` maps the `versioningStatus` values through `StatusType.valueOf`; the model takes the set of valid status names as a parameter.

## Findings

| source | as written | input that shows it | evidently intended | confidence | as-written member | corrected member |
|---|---|---|---|---|---|---|
| src/main/java/org/epos/api/core/filtersearch/DistributionFilterSearch.java:372-373 | an unresolved temporal extent is passed to `isWithinDateRange` as null, which dereferences it | a data product whose only temporal link "p" is not in the store, searched with a start date | an unresolved period is not within the range, as the other stages skip unresolved links | not executed | DistributionFilter.DateRangeAsWritten (exhibited by DistributionFilter.DateRangeUnresolvedPeriod) | DistributionFilter.DateRange |
| src/main/java/org/epos/api/core/filtersearch/FacilityFilterSearch.java:158-161 | a location whose `location` text is null is handed to the WKT reader, which throws a null dereference outside the `ParseException` catch | a facility whose one location has no geometry, searched with a bounding box | a location without geometry does not hit the box, as an unparseable one does not | not executed | FacilityFilter.BoundingBoxAsWritten (exhibited by FacilityFilter.BoundingBoxMissingGeometry) | FacilityFilter.BoundingBox |
| src/main/java/org/epos/api/core/distributions/DistributionDetailsExtendedGenerationJPA.java:623,643 | the web service's contact list is asked `isEmpty()` without a null test, and so is the data product's once the service has contacts | a web service with a null contact list | the null tests the basic details make (DistributionDetailsGenerationJPA.java:548-579) | not executed | DistributionExtended.ContactsAsWritten (exhibited by DistributionExtended.NullServiceContactsThrow) | DistributionDetails.Contacts |
| src/main/java/org/epos/api/core/distributions/DistributionDetailsExtendedGenerationJPA.java:682 | the data product's category list is streamed without a null test | a data product with a null category list | a null category list reads as an empty one, as in the basic details | not executed | DistributionExtended.FacetItemAsWritten | DistributionExtended.FacetItemOf |
