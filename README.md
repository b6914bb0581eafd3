# python_cmr query builders, modelled in Dafny

`cmr/queries.py` is the part of python_cmr that builds searches against NASA's
Common Metadata Repository (CMR). A query object (`GranuleQuery`,
`CollectionQuery`, `ToolQuery`, `ServiceQuery`, `VariableQuery`) collects
search parameters through chained builder methods. Each builder validates its
argument and then writes into the object's `params`, `options` or `headers`
dictionaries. `_build_url` turns the collected state into a search URL, after
the `_valid_state` check. `get` pages through the results: granule and
collection queries use the `cmr-search-after` cursor, the other three use
page numbers. `hits` asks for the result count, `get_all` is `get(hits())`,
and `parameters(**kwargs)` calls builders by name.

The model has two layers:

* **Pure reference layer:**
  * `QueryState.State` is the record of the object's fields.
  * `Filters` has one function per builder from a state to either the new state or the exception raised.
  * `Validity.ValidState` is `_valid_state`.
  * `UrlBuilder.Url` is `_build_url`.
  * `Pagination` holds the two paging loops, `hits` and `get_all`. The server is a function from requests to responses, and every run returns the requests it made.
  * `Registry` dispatches `parameters`.
* **Imperative layer:** `Queries.Query` is a class with the same fields, updated in place.
  * Each builder is a method proved to do what its `Filters` function says (`Reflects`) and to keep the class invariant `Registry.Inv`.
  * `BuildUrl` and the `get` loops are methods whose results are proved equal to the reference functions.
  * The properties — round trips, the exceptions each builder raises and when, the page sizes and stopping conditions of the loops, the shape of the URL — are lemmas about the reference layer.

Python's `dict`, which keeps insertion order, is `OrderedDicts.Dict`: a sequence of key/value pairs with distinct keys, where a put replaces a value in place or appends a new key. The five subclasses are one class whose constant `kind` says which one it is. The per-class data (route, concept-id prefixes, accepted formats, builders offered, `_valid_state`) is a function of the kind.

## Model

| member | source | states |
|---|---|---|
| Queries.Query.constructor | cmr/queries.py:53-59 | a new query has empty `params`, `options` and `headers`, format `json`, base URL `mode + route`, and satisfies the invariant |
| QueryState.Initial | cmr/queries.py:53-59 | the initial state has no parameters, options or headers |
| RegistryProperties.InitialInv | cmr/queries.py:617-619 | every subclass's initial state satisfies the invariant (bool options, flags exclusive, temporal a list) |
| QueryState.AsList | cmr/queries.py:238-239 | a single string becomes a one-element list, a list is kept |
| Queries.Query.ConceptId | cmr/queries.py:218-244 | updates the object exactly as `Filters.ConceptId`: raises for the first ID whose first non-blank character is not one of the class's prefixes, otherwise stores the list |
| Filters.CheckIds | cmr/queries.py:236-240 | no IDs raise nothing; the only exceptions are the IndexError and the ValueError |
| FilterProperties.CheckIdsReportsFirstBad | cmr/queries.py:236-240 | no error iff every ID starts with an allowed character; otherwise the error belongs to the first bad ID, and it is IndexError exactly when that ID is blank |
| FilterProperties.ConceptIdOutcome | cmr/queries.py:218-244 | `concept_id` succeeds iff every ID has an allowed prefix, and then sets `concept_id` to the list and changes nothing else |
| FilterProperties.FirstNonSpaceOfId | cmr/queries.py:237 | `strip()[0]` of an ID starting with a non-blank is its first character |
| FilterProperties.GranuleTakesGranuleAndCollectionIds | cmr/queries.py:617-619 | a granule query takes both `G` and `C` IDs, leading blanks allowed |
| FilterProperties.CollectionRefusesGranuleIds | cmr/queries.py:828-830 | a collection query refuses a `G` ID |
| FilterProperties.BlankIdIsIndexError | cmr/queries.py:237 | an all-blank ID raises IndexError |
| Queries.Query.Provider | cmr/queries.py:246-258 | as `Filters.Provider`: an empty provider is ignored, otherwise stored |
| FilterProperties.OptionalSetters | cmr/queries.py:246-258 | `provider`, `short_name`, `version`, `archive_center`, `keyword` and `name` ignore an empty string and otherwise set only their own key |
| Queries.Query.Mode | cmr/queries.py:271-284 | as `Filters.Mode`: `None` raises ValueError, otherwise the base URL becomes `mode + route` |
| FilterProperties.ModeOutcome | cmr/queries.py:271-284 | `mode` fails iff it is given `None`; otherwise the base URL is the mode followed by the route and the parameters are untouched |
| Queries.Query.Token | cmr/queries.py:286-299 | as `Filters.Token`: an empty token is ignored, otherwise the headers become `Authorization: token` |
| Queries.Query.BearerToken | cmr/queries.py:301-314 | as `Filters.BearerToken`: the headers become `Authorization: Bearer token` |
| FilterProperties.TokenOutcome | cmr/queries.py:286-314 | an empty token changes nothing; otherwise the whole header map is replaced by the one Authorization header (with `Bearer ` for `bearer_token`), and the parameters of both are untouched |
| Queries.Query.Format | cmr/queries.py:154-172 | the loop over the format patterns updates the object exactly as `Filters.Format`: empty means `json`, the first pattern found anywhere in the name accepts it, otherwise ValueError `Unsupported format: '<name>'` |
| FilterProperties.FormatOutcome | cmr/queries.py:154-172 | `format` succeeds iff one of the class's literal formats occurs in the name, and then sets the format and nothing else; otherwise the ValueError names the format between single quotes |
| FilterProperties.FormatIsSubstringTest | cmr/queries.py:48-51 | the class's pattern list matches a name iff one of its literal formats occurs in it |
| FilterProperties.LiteralFormats | cmr/queries.py:831-833 | only granule queries lack `umm_json` among their literal formats |
| FilterProperties.VersionedImpliesUmmJson | cmr/queries.py:832 | a name matching `umm_json_v[0-9]_[0-9]` contains `umm_json` |
| FilterProperties.AnySearchLiterals | cmr/queries.py:166-169 | for literal patterns, the loop's test is substring containment |
| FilterProperties.AnySearchSplit | cmr/queries.py:166-169 | searching a concatenated pattern list is searching either part |
| FilterProperties.NoSearchNoAny | cmr/queries.py:166-172 | when no pattern matches, the search fails |
| FilterProperties.SameLengthContains | cmr/queries.py:167 | a string of the same length contains another only if they are equal |
| FilterProperties.ShortNoContains | cmr/queries.py:167 | a shorter string contains no longer one |
| FilterProperties.EmptyFormatIsJson | cmr/queries.py:162-163 | an empty format becomes `json` |
| FilterProperties.NearMissFormats | cmr/queries.py:166-169 | `jsonn` and `iso19116` are accepted, since the test is a search and not a full match |
| FilterProperties.VersionedUmmJsonFormat | cmr/queries.py:831-833 | collections accept `umm_json_v1_9` |
| FilterProperties.UnknownFormat | cmr/queries.py:171-172 | granules refuse `umm` |
| FilterProperties.UnknownFormatMessage | cmr/queries.py:172 | the message for `umm` is `Unsupported format: 'umm'`, the name between single quotes |
| FilterProperties.GranuleUmmJsonViaJson | cmr/queries.py:48-51 | granules accept `umm_json` because it contains `json` |
| Queries.Query.OnlineOnly | cmr/queries.py:322-340 | as `Filters.OnlineOnly`: a non-bool raises TypeError; otherwise sets `online_only` and removes `downloadable` |
| Queries.Query.Downloadable | cmr/queries.py:577-595 | as `Filters.Downloadable`, the mirror image of `online_only` |
| FilterProperties.OnlineOnlyOutcome | cmr/queries.py:322-340 | succeeds iff the flag is a bool; then `online_only` holds it, `downloadable` is gone, and every other key is unchanged |
| FilterProperties.DownloadableOutcome | cmr/queries.py:577-595 | the same for `downloadable`, with `online_only` removed |
| FilterProperties.LastFlagWins | cmr/queries.py:322-340 | after `downloadable` then `online_only`, only `online_only` remains |
| RegistryProperties.ExclusiveFlagInv | cmr/queries.py:322-340 | setting one flag keeps the invariant that at most one flag is present |
| Queries.Query.Temporal | cmr/queries.py:342-411 | as `Filters.TemporalFilter`: renders both bounds, raises when `from` is later than `to`, appends the range to `temporal` and sets the exclude-boundary option when asked |
| Queries.Query.AppendRange | cmr/queries.py:399-409 | appends the range to the `temporal` list, creating it if missing, and sets the option only when `exclude_boundary` is true |
| FilterProperties.TemporalOutcome | cmr/queries.py:342-411 | ValueError iff both bounds are given and `to` is earlier; AttributeError iff the order is fine and `temporal` holds a non-list; on success the range is appended, splits back into its two bounds, and only `temporal` (and its option, when asked) changes |
| FilterProperties.SameDayIsARange | cmr/queries.py:393-397 | the same day as both bounds is accepted (start of day to end of day) |
| FilterProperties.DigitsHaveNoComma | cmr/queries.py:360 | numerals have no comma |
| FilterProperties.BoundTextHasNoComma | cmr/queries.py:360-391 | a rendered bound has no comma, so `from,to` splits into the two bounds |
| FilterProperties.IsoHasNoComma | cmr/queries.py:360-391 | the ISO rendering of an instant has no comma |
| Temporal.Iso8601 | cmr/queries.py:360-391 | `%Y-%m-%dT%H:%M:%SZ` is twenty characters long |
| Temporal.Iso8601Layout | cmr/queries.py:360 | the separators `-`, `-`, `T`, `:`, `:`, `Z` sit at positions 4, 7, 10, 13, 16 and 19 |
| Temporal.Digits | cmr/queries.py:360 | the zero-padded field has exactly the given width |
| Temporal.DigitsOrder | cmr/queries.py:360 | zero-padded numerals of one width compare as strings as the numbers do |
| Temporal.IsoOrderIsChronological | cmr/queries.py:396-397 | comparing `%Y-%m-%dT%H:%M:%SZ` strings is comparing the instants |
| Temporal.Resolve | cmr/queries.py:363-394 | a missing bound gives nothing and any other bound a valid UTC instant |
| Temporal.BoundText | cmr/queries.py:363-391 | the rendering is empty exactly when the bound is missing |
| RegistryProperties.TemporalInv | cmr/queries.py:399-409 | a successful `temporal` keeps the invariant |
| Queries.Query.ShortName | cmr/queries.py:413-425 | as `Filters.ShortName`: empty is ignored, otherwise stored |
| Queries.Query.Version | cmr/queries.py:427-440 | as `Filters.Version`: empty is ignored, otherwise stored |
| Queries.Query.Point | cmr/queries.py:442-457 | as `Filters.Point`: stores `lon,lat` as floats |
| Queries.Query.Circle | cmr/queries.py:459-469 | as `Filters.Circle`: stores `lon,lat,dist` |
| Queries.Query.Polygon | cmr/queries.py:471-513 | as `Filters.Polygon`: empty is ignored, fewer than four pairs or an open ring raise ValueError, otherwise the flattened coordinates are stored |
| Queries.Query.AsFloats | cmr/queries.py:497-500 | the loop produces the flattened coordinate list `lon0, lat0, lon1, lat1, ...` |
| FilterProperties.PolygonOutcome | cmr/queries.py:480-505 | an empty polygon changes nothing; it raises iff it is non-empty and has fewer than four pairs or its last pair differs from its first |
| FilterProperties.ShortPolygon | cmr/queries.py:491-495 | three pairs raise with the count in the message |
| FilterProperties.PolygonStores | cmr/queries.py:497-511 | a closed ring of four or more pairs is stored so that splitting at commas gives back every coordinate in order; no other key changes |
| FilterProperties.FlattenEnds | cmr/queries.py:502-503 | the first two and last two flattened values are the first and last pairs |
| FilterProperties.CoordinatesRoundTrip | cmr/queries.py:507-511 | joining the coordinates with commas and splitting again gives them back |
| Strings.Split | cmr/queries.py:511 | `s.split(sep)` gives at least one piece; it is the inverse the joins are checked against |
| Strings.SplitJoin | cmr/queries.py:511 | splitting `sep.join(parts)` at `sep` gives the parts back when none contains `sep` |
| Queries.Query.BoundingBox | cmr/queries.py:515-537 | as `Filters.BoundingBox`: stores the four corners |
| Queries.Query.Line | cmr/queries.py:539-575 | as `Filters.Line`: empty is ignored, a single pair raises ValueError, otherwise the flattened coordinates are stored |
| FilterProperties.LineOutcome | cmr/queries.py:548-562 | an empty line changes nothing; it raises iff it has exactly one pair |
| FilterProperties.LineStores | cmr/queries.py:564-573 | two or more pairs are stored so that splitting gives back every coordinate; no other key changes |
| Queries.Query.EntryTitle | cmr/queries.py:597-609 | as `Filters.EntryTitle`: stores the percent-encoded title; a value that is not a string raises the TypeError of `quote` |
| FilterProperties.EntryTitleOutcome | cmr/queries.py:605-607 | fails iff the title is not a string, always with `quote`'s TypeError; otherwise sets only `entry_title`, to the quoted title |
| FilterProperties.EntryTitleOfNone | cmr/queries.py:605 | `entry_title(None)` raises TypeError `quote_from_bytes() expected bytes` |
| FilterProperties.EntryTitleIsQuoted | cmr/queries.py:597-609 | the stored title decodes back to the title's UTF-8 bytes and holds no space or comma |
| FilterProperties.EntryTitleExample | cmr/queries.py:607 | `DatasetId 5` is stored as `DatasetId%205` |
| PercentEncoding.Utf8 | cmr/queries.py:24 | a character encodes to one to four UTF-8 bytes, one exactly for ASCII, with continuation bytes after the first |
| PercentEncoding.DecodeEncodeBytes | cmr/queries.py:24 | decoding `%XX` escapes inverts the byte encoding |
| PercentEncoding.QuoteRoundTrip | cmr/queries.py:607 | decoding `quote(s)` gives the UTF-8 bytes of `s` |
| PercentEncoding.Quote | cmr/queries.py:605 | `quote(s)` decodes back to the UTF-8 bytes of `s` |
| PercentEncoding.QuoteIsQueryText | cmr/queries.py:607 | `quote(s)` holds only unreserved characters, `/` and escapes, so no `&`, `=`, `,` or space |
| PercentEncoding.EncodeBytesQuoted | cmr/queries.py:24 | every encoded byte string is quoted text |
| PercentEncoding.QuoteConcat | cmr/queries.py:634 | quoting distributes over concatenation |
| PercentEncoding.QuoteUnreserved | cmr/queries.py:634 | a string of unreserved ASCII characters is its own quotation |
| PercentEncoding.QuoteSeparators | cmr/queries.py:634 | a comma quotes to `%2C` and a space to `%20` |
| PercentEncoding.QuoteAround | cmr/queries.py:634 | quoting `a + c + b` with unreserved `a`, `b` quotes only `c` |
| PercentEncoding.HexValueOfDigit | cmr/queries.py:24 | reading a hex digit back gives its value |
| Queries.Query.OrbitNumber | cmr/queries.py:621-638 | as `Filters.OrbitNumber`: with a truthy second orbit stores `quote("o1,o2")`, otherwise the first orbit as given |
| FilterProperties.OrbitRangeIsQuoted | cmr/queries.py:633-636 | `985, 986` is stored as `985%2C986`, and `985` alone as the number |
| Queries.Query.DayNightFlag | cmr/queries.py:640-658 | as `Filters.DayNightFlag`: non-strings raise TypeError, other values than day/night/unspecified (any case) raise ValueError whose message ends with the value's `repr` and a full stop, otherwise the lower-cased value is stored |
| FilterProperties.DayNightFlagOutcome | cmr/queries.py:640-658 | TypeError iff the flag is not a string; success iff its lower-case form is one of the three values, which is then stored alone |
| FilterProperties.DayNightFlagExamples | cmr/queries.py:648-657 | `DAY` is stored as `day`; `True` is refused |
| FilterProperties.RefusedFlagMessage | cmr/queries.py:651-655 | a string whose lower-case form is no period of the day raises ValueError with the fixed text, its `repr` and a full stop |
| FilterProperties.DuskIsRefused | cmr/queries.py:651-655 | `dusk` raises with the message ending `: 'dusk'.` |
| FilterProperties.DuskRepr | cmr/queries.py:654 | `repr('dusk')` is the word between single quotes |
| Queries.Query.CloudCover | cmr/queries.py:660-691 | as `Filters.CloudCover`: both falsy raises; both truthy are converted minimum first, a ValueError of `float` or a reversed range raising the "both floats" ValueError and a TypeError of `float` the "convertible to floats" TypeError; otherwise `min,max` is stored as given |
| FilterProperties.CloudCoverOutcome | cmr/queries.py:660-691 | fails iff both bounds are falsy, or both are truthy and not floats in increasing order; the failure is a TypeError iff the first bound that does not convert is one `float` refuses with TypeError; every failure carries one of the three messages; on success only `cloud_cover` is set, to `min,max` |
| FilterProperties.CloudCoverDefaults | cmr/queries.py:660 | the defaults 0 and 100 give `0,100` |
| FilterProperties.CloudCoverReversed | cmr/queries.py:677-680 | 50 then 10 is refused |
| FilterProperties.CloudCoverNotAFloat | cmr/queries.py:681-684 | a string that is no float is refused with the "both floats" ValueError |
| FilterProperties.CloudCoverNotConvertible | cmr/queries.py:685-688 | a list as either bound raises the "convertible to floats" TypeError |
| FilterProperties.CloudCoverMinimumFirst | cmr/queries.py:674-675 | the minimum is converted first, so its ValueError wins over a TypeError of the maximum |
| QueryState.FloatOf | cmr/queries.py:674-675 | `float(x)` raises TypeError exactly for `None`, lists and values of other types, ValueError exactly for a string that is no float, and gives a number's own value and a bool's 1.0 or 0.0 |
| Queries.Query.Instrument | cmr/queries.py:693-705 | as `Filters.Instrument`: empty raises ValueError, otherwise stored |
| Queries.Query.Platform | cmr/queries.py:707-719 | as `Filters.Platform`: empty raises ValueError, otherwise stored |
| Queries.Query.GranuleUr | cmr/queries.py:770-783 | as `Filters.GranuleUr`: empty raises ValueError, otherwise stored |
| FilterProperties.RequiredSetters | cmr/queries.py:693-783 | `instrument`, `platform` and `granule_ur` fail iff given an empty string, and otherwise set only their own key |
| Queries.Query.SortKey | cmr/queries.py:721-768 | as `Filters.SortKey`: a key that is no string or no sort key raises ValueError with the full message, pointing at the CMR sorting documentation; otherwise the key is stored as given |
| FilterProperties.SortKeyOutcome | cmr/queries.py:734-768 | succeeds iff the key is a string that is one of the 22 granule sort keys once leading `-`s are stripped, and then sets only `sort_key` |
| FilterProperties.DescendingSortKey | cmr/queries.py:760 | `-start_date` is accepted |
| FilterProperties.DashIsNoSortKey | cmr/queries.py:760 | `-` alone is refused |
| FilterProperties.UnknownSortKey | cmr/queries.py:760-765 | `start` is refused with the sort-key message |
| FilterProperties.SortKeyMustBeAString | cmr/queries.py:760 | a non-string is refused |
| Queries.Query.ReadableGranuleName | cmr/queries.py:785-806 | as `Filters.ReadableGranuleName` |
| FilterProperties.ReadableGranuleNameOutcome | cmr/queries.py:785-806 | stores the names as a list and sets the `pattern` option to true; every other parameter and option, the headers, the base URL and the format stay as they were |
| RegistryProperties.ReadableGranuleNameInv | cmr/queries.py:804 | the option it sets is a bool, so the invariant holds |
| Queries.Query.ArchiveCenter | cmr/queries.py:835-846 | as `Filters.ArchiveCenter`: empty is ignored |
| Queries.Query.Keyword | cmr/queries.py:848-861 | as `Filters.Keyword`: empty is ignored |
| Queries.Query.NativeId | cmr/queries.py:863-876 | as `Filters.NativeId`: stores the IDs as a list |
| Queries.Query.ToolConceptId | cmr/queries.py:878-898 | as `Filters.ToolConceptId` |
| FilterProperties.ToolConceptIdOutcome | cmr/queries.py:878-898 | succeeds iff every ID starts with `T` after blanks, and then only `tool_concept_id` is set |
| Queries.Query.ServiceConceptId | cmr/queries.py:900-922 | as `Filters.ServiceConceptId` |
| FilterProperties.ServiceConceptIdOutcome | cmr/queries.py:900-922 | succeeds iff every ID starts with `S` after blanks, and then only `service_concept_id` is set |
| Queries.Query.Name | cmr/queries.py:982-994 | as `Filters.Name`: empty is ignored |
| RegistryProperties.SetParamInv | cmr/queries.py:242 | storing a parameter other than the flags keeps the invariant |
| RegistryProperties.IdFilterInv | cmr/queries.py:218-244 | a successful ID filter keeps the invariant |
| RegistryProperties.GuardedSetInv | cmr/queries.py:246-258 | an optional setter keeps the invariant |
| RegistryProperties.RequiredSetInv | cmr/queries.py:693-705 | a required setter keeps the invariant |
| RegistryProperties.OptionPutInv | cmr/queries.py:407-409 | putting an all-bool option map keeps every option a bool |
| Queries.Query.Parameters | cmr/queries.py:129-152 | leaves the object in the state `ApplyAll` gives and returns its exception |
| Registry.Offers | cmr/queries.py:139-144 | only a method name is found, and the argumentless methods are found on every kind |
| Registry.ApplyKeyword | cmr/queries.py:142-150 | an unknown name is a ValueError, an argumentless method fails, and a success is the named builder applied |
| Registry.ApplyAll | cmr/queries.py:141-150 | no keywords change nothing; a failing first keyword stops the run with its exception and the state untouched |
| Queries.Query.Dispatch | cmr/queries.py:146-150 | calling the named builder does what `Registry.Apply` says |
| Queries.Query.DispatchQuery | cmr/queries.py:146-150 | the same for the builders of `Query` |
| Queries.Query.DispatchSpatial | cmr/queries.py:146-150 | the same for the builders of `GranuleCollectionBaseQuery` |
| Queries.Query.DispatchGranule | cmr/queries.py:146-150 | the same for the builders of `GranuleQuery` |
| Queries.Query.DispatchCollection | cmr/queries.py:146-150 | the same for the builders only `CollectionQuery` has |
| RegistryProperties.OfferedGroup | cmr/queries.py:139 | a builder a class offers comes from that class or one of its bases |
| RegistryProperties.UnknownKeyword | cmr/queries.py:143-144 | a name the class does not define raises `ValueError("Unknown key …")` before anything changes |
| RegistryProperties.KnownKeyword | cmr/queries.py:146-150 | a known name with fitting arguments leaves exactly what the builder does |
| RegistryProperties.ApplyAllConcat | cmr/queries.py:141-152 | keywords run left to right: running `a + b` is running `a`, then `b` if `a` raised nothing |
| RegistryProperties.NoRollback | cmr/queries.py:141-144 | an unknown name after good ones keeps what the good ones did |
| RegistryProperties.ArgumentlessMethod | cmr/queries.py:139-150 | naming `hits`, `get_all`, `parameters`, `_build_url` or `_valid_state`, which `getmembers` finds but which take no argument, raises TypeError and changes nothing |
| RegistryProperties.CallsAreForBuilders | cmr/queries.py:145-150 | every call carries a builder's arguments, so an argumentless method never fits one |
| RegistryProperties.MethodNamesAreNoOtherKey | cmr/queries.py:139-144 | the name of a method, `get` and `__init__` included, is never an unknown name |
| Validity.InvalidIff | cmr/queries.py:809-820 | a state is invalid iff it is a granule query with a spatial key and neither `short_name` nor `entry_title` |
| Validity.ValidState | cmr/queries.py:809-820 | non-granule kinds are always valid; a collection filter, or no spatial key, makes a granule state valid |
| Validity.CircleAloneIsValid | cmr/queries.py:812 | `circle` is not one of the spatial keys checked |
| Validity.PointAloneNeedsCollection | cmr/queries.py:809-820 | `point` alone is invalid only for granules |
| Validity.CollectionFilterMakesValid | cmr/queries.py:813-817 | `short_name` or `entry_title` make any state valid |
| Queries.Query.BuildUrl | cmr/queries.py:174-216 | the result is `UrlBuilder.Url` of the object's state |
| Queries.Query.ValueFragments | cmr/queries.py:189-196 | the fragments are `UrlBuilder.ParamFragments`: a list, stored or given as the argument, yields `key[]=item` per item in order, a bool `key=true/false`, anything else `key=value` |
| Queries.Query.OptionFragments | cmr/queries.py:203-212 | the nested loops give every option fragment in order, or the TypeError of the first non-bool value |
| UrlBuilder.BoolText | cmr/queries.py:195 | `str(b).lower()` is `true` exactly for true and `false` otherwise |
| UrlBuilder.ParamFragments | cmr/queries.py:189-196 | a list parameter, including a list stored as given, gives one fragment per item, any other value exactly one |
| Queries.Query.ItemFragments | cmr/queries.py:191-192 | the loop writes `key[]=item` for each item, in order (`UrlBuilder.ListFragments`) |
| UrlBuilder.ListFragments | cmr/queries.py:191-192 | one fragment per list item |
| UrlBuilder.ParamsFragments | cmr/queries.py:186-196 | the parameters' fragments in insertion order; one per parameter when no value is a list |
| UrlBuilder.OptionsFragments | cmr/queries.py:200-210 | no options give no fragments, and the only exception is the TypeError for a non-bool option |
| UrlBuilder.Url | cmr/queries.py:174-216 | an invalid state raises the RuntimeError first; a valid one fails exactly when the options do; no other exception |
| UrlProperties.BoolsAreLowercase | cmr/queries.py:194-195 | a bool is written `true` or `false`, whether stored as a flag or as the argument given |
| UrlProperties.RawListFragments | cmr/queries.py:191-192 | a list stored as the argument given is written one `key[]=item` per item, in order |
| UrlProperties.OrbitNumberAsGiven | cmr/queries.py:633-636 | with a falsy second orbit the first is stored as given; a bool is then written lowercase and a list per item |
| UrlProperties.OrbitNumberOfBool | cmr/queries.py:636 | `orbit_number(True)` is written `orbit_number=true` |
| UrlProperties.OrbitNumberOfList | cmr/queries.py:636 | `orbit_number([985, 986])` is written `orbit_number[]=985` and `orbit_number[]=986` |
| UrlProperties.EntryFragmentsOutcome | cmr/queries.py:204-212 | one option map raises iff one of its values is not a bool, always with TypeError; otherwise it gives one fragment per entry in order |
| UrlProperties.OptionsFragmentsOutcome | cmr/queries.py:202-212 | the options raise iff some value is not a bool, always with TypeError |
| UrlProperties.EntryFailurePersists | cmr/queries.py:207-210 | the first non-bool value decides the exception, whatever follows |
| UrlProperties.OptionsFailurePersists | cmr/queries.py:207-210 | the same across option maps |
| UrlProperties.InvalidStateRaises | cmr/queries.py:181-183 | RuntimeError with the spatial message iff `_valid_state` fails, checked before any encoding |
| UrlProperties.NonBoolOptionRaises | cmr/queries.py:207-210 | TypeError iff the state is valid and some option is not a bool |
| UrlProperties.ReachableStatesOnlyFailValidity | cmr/queries.py:174-216 | from a state the builders can reach, `_build_url` raises only for an invalid state |
| UrlProperties.UrlJoinsFragments | cmr/queries.py:214-216 | with clean fragments, the URL is the prefix and all parameter and option fragments joined by `&` |
| UrlProperties.UrlFragmentsRoundTrip | cmr/queries.py:214-216 | splitting the query string at `&` gives back the fragments |
| UrlProperties.JoinConcat | cmr/queries.py:214-215 | joining two lists is joining each with one separator between |
| UrlProperties.JoinEnd | cmr/queries.py:216 | a join ends with the last character of the last fragment |
| UrlProperties.StripWithoutOptions | cmr/queries.py:215-216 | without options only the trailing `&` is stripped |
| UrlProperties.StripWithOptions | cmr/queries.py:215-216 | with parameters and options nothing is stripped |
| UrlProperties.ParamsFragmentsClean | cmr/queries.py:186-199 | clean per-parameter fragments make clean fragments |
| UrlProperties.LowercaseBoolUrl | cmr/queries.py:195 | the state holding `short_name=AST_LIT` and `downloadable=False` gives `...?short_name=AST_LIT&downloadable=false` |
| UrlProperties.LowercaseBoolFragments | cmr/queries.py:189-199 | the fragments of that state are `short_name=AST_LIT` and `downloadable=false` |
| UrlProperties.LowercaseBoolParameters | cmr/queries.py:139-152 | `parameters(short_name="AST_LIT", online_only=True, downloadable=False)` on a fresh granule query raises nothing and leaves exactly `short_name` and `downloadable=False`, the second flag having removed the first |
| UrlProperties.LowercaseBoolQueryUrl | cmr/queries.py:139-216 | end to end, those keywords then `_build_url` give `...?short_name=AST_LIT&downloadable=false` |
| UrlProperties.ApplyAllStep | cmr/queries.py:141-150 | a first keyword that succeeds hands its state to the remaining keywords |
| UrlProperties.TwoParamsFragments | cmr/queries.py:187-199 | parameters are encoded in insertion order |
| Strings.RStrip | cmr/queries.py:216 | `rstrip` removes exactly the trailing run of the character |
| Strings.LStrip | cmr/queries.py:760 | `lstrip` removes exactly the leading run |
| Strings.FirstNonSpace | cmr/queries.py:237 | `strip()[0]`: the first non-blank character, or nothing for a blank string |
| Strings.AsciiLower | cmr/queries.py:651 | ASCII capitals become small letters and every other character is kept; this is `lower()` for ASCII text and decides the membership test exactly (see Left out) |
| Strings.Repr | cmr/queries.py:654 | `repr(s)` begins and ends with the same quote, single unless the text has a single and no double quote |
| Strings.ReprRoundTrip | cmr/queries.py:654 | reading the text between the quotes of `repr(s)` back, escapes included, gives `s` |
| Strings.ReprBodyRoundTrip | cmr/queries.py:654 | unescaping what `repr` writes between quotes gives the text back |
| Strings.ReprPlain | cmr/queries.py:654 | printable ASCII without quote or backslash is written between single quotes as it is |
| Strings.Decimal | cmr/queries.py:493-495 | `str(n)` is a non-empty string of digits with no leading zero |
| Strings.DecimalRoundTrip | cmr/queries.py:493-495 | reading the digits back gives the count |
| OrderedDicts.Put | cmr/queries.py:338 | assignment sets the key, leaves every other key, keeps the key order and appends a new key |
| OrderedDicts.Remove | cmr/queries.py:335-336 | `del` drops the key and nothing else |
| OrderedDicts.Get | cmr/queries.py:401 | a lookup finds a key iff it is present |
| Queries.Query.CursorGet | cmr/queries.py:61-101 | builds the URL, then pages; the results and requests are `Pagination.CursorGet` |
| Queries.Query.CursorPages | cmr/queries.py:71-99 | the `while more_results` loop returns the outcome and requests of `Pagination.CursorFrom` |
| Pagination.CursorFrom | cmr/queries.py:76-99 | at least one request is sent, whatever the limit, the first to the built URL with `min(limit - n, 2000)`, the current headers and no page number |
| PaginationProperties.CursorPageSizes | cmr/queries.py:78 | every page size is between 1 and 2000 and together they never exceed the limit |
| PaginationProperties.CursorFollowsSizes | cmr/queries.py:78-99 | each request asks for `min(limit - n, 2000)` and a further one is sent only while fewer than `limit` were asked for |
| PaginationProperties.CursorSizesBounded | cmr/queries.py:78 | those sizes are bounded as above |
| PaginationProperties.CursorResults | cmr/queries.py:82-99 | at least one request; the results are the items of every page in order; it fails iff the last response is an HTTP error, with that status |
| PaginationProperties.CursorContinues | cmr/queries.py:96-99 | every request but the last got a response with a cursor |
| PaginationProperties.CursorEnds | cmr/queries.py:99 | the loop stops with success only when the last response had no cursor or the limit was reached |
| PaginationProperties.CursorHeaders | cmr/queries.py:72-97 | the first request carries the query's headers, each next one the previous headers with the cursor received; apart from the cursor every request carries the query's headers |
| PaginationProperties.FirstRequestHasQueryHeaders | cmr/queries.py:69-81 | the first request goes to the built URL with the query's headers and page size `min(limit, 2000)` |
| PaginationProperties.CursorRequestCount | cmr/queries.py:77-99 | against a server that always has more, there are `ceil((limit - n) / 2000)` requests |
| PaginationProperties.ThreeThousand | cmr/queries.py:78 | `get(3000)` asks for 2000 then 1000 |
| PaginationProperties.TwoThousand | cmr/queries.py:99 | `get(2000)` makes one request |
| PaginationProperties.NonPositiveLimit | cmr/queries.py:75-79 | a limit of zero or less still makes one request, with that page size |
| Queries.Query.PagedGet | cmr/queries.py:934-965 | builds the URL, then pages; the results and requests are `Pagination.PagedGet` |
| Queries.Query.NumberedPages | cmr/queries.py:944-963 | the `while len(results) < limit` loop returns the outcome and requests of `Pagination.PagedFrom` from page 1 |
| Pagination.PagedFrom | cmr/queries.py:945-963 | below the limit at least one request is sent, the first for the current page number |
| PaginationProperties.PagedRequests | cmr/queries.py:947-951 | the requests are for pages 1, 2, … with the same size and no headers |
| PaginationProperties.PagedResults | cmr/queries.py:952-963 | the results are all items of all pages in order; a failure carries the last response's status |
| PaginationProperties.PagedBelowLimit | cmr/queries.py:947 | a request is sent only while fewer than `limit` results are in |
| PaginationProperties.PagedContinues | cmr/queries.py:959-960 | every page but the last was non-empty |
| PaginationProperties.PagedEnds | cmr/queries.py:947-960 | success ends with `limit` reached or an empty page |
| PaginationProperties.PagedTextRequests | cmr/queries.py:956-957 | for non-JSON formats each page is one item, so exactly `limit` pages are fetched |
| PaginationProperties.PagedOvershoots | cmr/queries.py:962 | a whole page is added even past the limit |
| PaginationProperties.PagedGetRequests | cmr/queries.py:942-951 | the requests go to the built URL with page size `min(limit, 2000)` and pages from 1 |
| Pagination.PageItems | cmr/queries.py:89-93 | JSON gives the decoded entries in order, anything else the whole page text as one item |
| Queries.Query.Get | cmr/queries.py:61-101 | `get` is the cursor loop for granules and collections and the page loop otherwise |
| Queries.Query.Hits | cmr/queries.py:103-116 | the result and request are `Pagination.Hits`: one request of page size 0, an HTTP error raises, a missing `CMR-Hits` is KeyError |
| Queries.Query.GetAll | cmr/queries.py:118-127 | the result and requests are `Pagination.GetAll` |
| PaginationProperties.GetAllIsGetOfHits | cmr/queries.py:118-127 | `get_all` sends the hits request first and then exactly what `get(hits)` sends, or fails as `hits` does |
| PaginationProperties.ExtendPrepend | cmr/queries.py:87-91 | one round of a loop moves its request and items from the remaining run to the done part |

## Left out

- Network I/O: `requests.get`, sending it, decoding JSON, and `raise_for_status` are replaced by a server function and a status test (4xx and 5xx raise).
- `int(response.headers["CMR-Hits"])` of a header that is no integer is not modelled; the header is an integer or absent.
- `dateutil` parsing of date strings, time zones and `astimezone`: a bound is a date or a UTC instant; strings that fail to parse, and the TypeError for other types, are not modelled.
- Years below 1000 are written zero-padded to four digits; `strftime` on some platforms does not pad them.
- `float()` of coordinates, and the ValueError or TypeError it raises, are not modelled (`cloud_cover` models both, through `QueryState.FloatOf`): a coordinate carries the text `str(float(x))` would give. NaN and `-0.0` are out.
- Filters.Polygon: the open-ring message leaves out the Python reprs of the first and last tuples, which depend on the argument types.
- Filters.Polygon and Filters.Line: the TypeError for a non-iterable argument is unreachable with typed arguments.
- `_valid_formats_regex` is a class-level list that each subclass constructor extends in place, so in Python the additions are shared across all classes. Here each kind has its own list.
- `token` and `bearer_token` replace the whole header map, as the code does; the header tests in the repository expect other headers to be kept.
- The tests call `results`, `cloud_hosted`, `revision_date` and the collection `platform`; `cmr/queries.py` does not define them, so they are not modelled.
- `parameters` looks keywords up among all bound methods (`getmembers`). The builders and the argumentless methods `hits`, `get_all`, `parameters`, `_build_url` and `_valid_state` have keys of their own; `OtherKey` is any name that is no method (`Canonical`). The keywords `get` and `__init__`, for which Python would run a search or re-initialise the query, are outside the model: `Registry.ApplyKeyword` requires `Canonical`, and no key spells them.
- Registry.ApplyKeyword: a tuple value is spread into the method's arguments in Python; here every call carries a builder's arguments, so an empty tuple, which would call an argumentless method such as `hits()` or `_valid_state()` with nothing, is not modelled, and those methods always raise TypeError.
- The TypeError for arguments that do not fit a builder's signature has a generic message here; Python's own wording varies.
- None passed to a builder that tests its argument with `if not x` (`provider`, `token`, `bearer_token`, `short_name`, `version`, `instrument`, `platform`, `granule_ur`, `archive_center`, `keyword`, `name`, the first `format` test) is modelled as the empty string, since both are falsy. `entry_title`, `day_night_flag` and `sort_key` take any value (`Dyn`) and raise for None as the source does. `mode(None)` is modelled through `Option`; the constructor takes a string.
- EntryTitle: a `bytes` title, which `quote` also accepts, is not modelled; every value other than a string raises the TypeError of `quote`.
- Strings.AsciiLower: Python's `lower()` lowers every Unicode capital, and some of them change length (`'İ'.lower()` has two characters). Only ASCII is lowered here. For `Filters.DayNightFlag` this is exact. A character outside ASCII lowers to text outside ASCII, except `'İ'`, which lowers to `i` plus a combining dot, and the Kelvin sign, which lowers to `k`. Neither can spell `day`, `night` or `unspecified`: the combining dot is left over, and none of the three has a `k`. So the membership test agrees with Python's, and when it passes the text is ASCII and the stored value agrees too.
- Strings.Repr: control characters and `\x7f` are escaped as `\t`, `\n`, `\r` or `\xNN`, as Python does. Characters outside ASCII that Python counts as unprintable (for example `\xa0`) are kept as they are instead of escaped.
- Builders that a class does not define (for example `sort_key` on a collection query) are preconditions of the methods, and unknown names in `parameters`.
- The concept-ID message renders the prefix set as Python would print it. For granules the set's print order depends on string hashing; it is fixed here as `{'G', 'C'}`.
- A caller's list passed to `concept_id`, `native_id` or `readable_granule_name` is stored by reference in Python. Later mutation of it by the caller (aliasing) is not modelled, and tuples are treated as lists.
- Strings are sequences of code points; lone surrogates never reach UTF-8 encoding.
- A URL with options but no parameters keeps the `?&` that Python produces; `UrlJoinsFragments` excludes that case rather than describing it.
- `cmr/__init__.py`, `pycmr/collections.py` and `setup.py` only re-export or package the module and are not part of this model.
