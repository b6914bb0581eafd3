/**
 * The builder methods of `Query`, `GranuleCollectionBaseQuery`,
 * `GranuleQuery`, `CollectionQuery` and `ToolServiceVariableBaseQuery`, as
 * functions from the query's state to its next state or to the exception the
 * method raises. Every builder validates before it writes, so a raising call
 * leaves the state as it was.
 */
module Filters {
  import opened Wrappers
  import opened OrderedDicts
  import opened Strings
  import opened PercentEncoding
  import opened Temporal
  import opened QueryState

  function SetParam(st: State, key: string, v: Value): State
  {
    st.(params := Put(st.params, key, v))
  }

  /** The guard shared by the setters that ignore a falsy argument. */
  function SetIfGiven(st: State, key: string, s: string): Result<State, QueryError>
  {
    if s == "" then Success(st) else Success(SetParam(st, key, Str(s)))
  }

  /** The guard shared by the setters that raise ValueError on a falsy argument. */
  function SetOrRaise(st: State, key: string, s: string, msg: string): Result<State, QueryError>
  {
    if s == "" then Failure(ValueError(msg)) else Success(SetParam(st, key, Str(s)))
  }

  // ---------------------------------------------------------------- Query

  const UnsupportedFormat := "Unsupported format: "

  /** `format`: an empty format means `json`; a format is kept when some pattern of the kind is found in it. */
  function Format(k: Kind, st: State, outputFormat: string): Result<State, QueryError>
  {
    var f := if outputFormat == "" then "json" else outputFormat;
    if AnySearch(FormatPatterns(k), f) then Success(st.(format := f))
    else Failure(ValueError(UnsupportedFormat + "'" + f + "'"))
  }

  /** The exception the prefix check raises for the first offending identifier, if there is one; `msg` leads its message. */
  function CheckIds(ids: seq<string>, allowed: set<char>, msg: string): (r: Option<QueryError>)
    ensures |ids| == 0 ==> r.None?
    ensures r.Some? ==> r.value == IndexError || r.value.ValueError?
  {
    if |ids| == 0 then None
    else match FirstNonSpace(ids[0])
      case None => Some(IndexError)
      case Some(c) =>
        if c !in allowed then Some(ValueError(msg + ids[0]))
        else CheckIds(ids[1..], allowed, msg)
  }

  /** An identifier filter: every identifier is checked, then the whole list replaces `params[key]`. */
  function IdFilter(st: State, key: string, ids: IdArg, allowed: set<char>, msg: string): Result<State, QueryError>
  {
    var list := AsList(ids);
    match CheckIds(list, allowed, msg)
    case Some(e) => Failure(e)
    case None => Success(SetParam(st, key, List(list)))
  }

  /** How `concept_id` words its refusal; it shows `self.concept_id_chars` as Python prints a set. */
  function ConceptIdMessage(k: Kind): string
  {
    var chars := match k
      case Granule => "{'G', 'C'}"
      case Collection => "{'C'}"
      case Tool => "{'T'}"
      case Service => "{'S'}"
      case Variable => "{'V'}";
    "Only concept IDs that begin with '" + chars + "' can be provided: "
  }

  function ConceptId(k: Kind, st: State, ids: IdArg): Result<State, QueryError>
  {
    IdFilter(st, "concept_id", ids, ConceptIdChars(k), ConceptIdMessage(k))
  }

  function Provider(st: State, provider: string): Result<State, QueryError>
  {
    SetIfGiven(st, "provider", provider)
  }

  /** `mode`: the base URL becomes the environment's URL followed by the route; `None` raises. */
  function Mode(k: Kind, st: State, mode: Option<string>): Result<State, QueryError>
  {
    match mode
    case None => Failure(ValueError("Please provide a valid mode (CMR_OPS, CMR_UAT, CMR_SIT)"))
    case Some(m) => Success(st.(baseUrl := m + Route(k)))
  }

  /** `token`: a non-empty token replaces the whole header map. */
  function Token(st: State, token: string): Result<State, QueryError>
  {
    if token == "" then Success(st) else Success(st.(headers := map["Authorization" := token]))
  }

  /** `bearer_token`: a non-empty token replaces the whole header map. */
  function BearerToken(st: State, token: string): Result<State, QueryError>
  {
    if token == "" then Success(st) else Success(st.(headers := map["Authorization" := "Bearer " + token]))
  }

  // ------------------------------------------ GranuleCollectionBaseQuery

  /** `online_only` / `downloadable`: a boolean is stored under `key` after `other` is deleted. */
  function ExclusiveFlag(st: State, key: string, other: string, flag: Dyn, msg: string): Result<State, QueryError>
  {
    if !flag.PyBool? then Failure(TypeError(msg))
    else Success(st.(params := Put(Remove(st.params, other), key, Flag(flag.b))))
  }

  function OnlineOnly(st: State, flag: Dyn): Result<State, QueryError>
  {
    ExclusiveFlag(st, "online_only", "downloadable", flag, "Online_only must be of type bool")
  }

  function Downloadable(st: State, flag: Dyn): Result<State, QueryError>
  {
    ExclusiveFlag(st, "downloadable", "online_only", flag, "Downloadable must be of type bool")
  }

  /** The list `temporal` appends to: empty when absent, unusable when the entry is not a list. */
  function TemporalRanges(params: Dict<Value>): Option<seq<string>>
  {
    var v := Get(params, "temporal");
    if v.None? then Some([])
    else if v.value.List? then Some(v.value.items)
    else None
  }

  /**
   * `temporal`: raises when both bounds are given and the lower one's string
   * sorts after the upper one's; otherwise appends one range to the list under
   * `temporal` (creating it at the end of the parameters if absent) and, when
   * asked to, replaces the temporal options with `exclude_boundary` set.
   */
  function TemporalFilter(st: State, from: Bound, to: Bound, excludeBoundary: bool): Result<State, QueryError>
    requires ValidBound(from) && ValidBound(to)
  {
    var f, t := BoundText(from, false), BoundText(to, true);
    if f != "" && t != "" && LexLess(t, f) then Failure(ValueError("date_from must be earlier than date_to."))
    else
      var ranges := TemporalRanges(st.params);
      if ranges.None? then Failure(AttributeError("append"))
      else
        var options := if excludeBoundary then Put(st.options, "temporal", [("exclude_boundary", OptBool(true))])
                       else st.options;
        Success(st.(params := Put(st.params, "temporal", List(ranges.value + [f + "," + t])), options := options))
  }

  function ShortName(st: State, shortName: string): Result<State, QueryError>
  {
    SetIfGiven(st, "short_name", shortName)
  }

  function Version(st: State, version: string): Result<State, QueryError>
  {
    SetIfGiven(st, "version", version)
  }

  function Point(st: State, lon: Coord, lat: Coord): Result<State, QueryError>
  {
    Success(SetParam(st, "point", Str(lon.repr + "," + lat.repr)))
  }

  /** `circle` formats its three arguments as given, without converting them to floats. */
  function Circle(st: State, lon: FloatLike, lat: FloatLike, dist: FloatLike): Result<State, QueryError>
  {
    Success(SetParam(st, "circle", Str(Render(lon) + "," + Render(lat) + "," + Render(dist))))
  }

  /** `as_floats`: the coordinates of the pairs, longitude then latitude, in order. */
  function Flatten(coords: seq<(Coord, Coord)>): (flat: seq<Coord>)
    ensures |flat| == 2 * |coords|
    ensures forall i :: 0 <= i < |coords| ==> flat[2 * i] == coords[i].0 && flat[2 * i + 1] == coords[i].1
  {
    if |coords| == 0 then []
    else Flatten(coords[..|coords| - 1]) + [coords[|coords| - 1].0, coords[|coords| - 1].1]
  }

  /** `[str(val) for val in as_floats]`. */
  function Reprs(cs: seq<Coord>): (r: seq<string>)
    ensures |r| == |cs|
  {
    seq(|cs|, i requires 0 <= i < |cs| => cs[i].repr)
  }

  function Polygon(st: State, coords: seq<(Coord, Coord)>): Result<State, QueryError>
  {
    if |coords| == 0 then Success(st)
    else if |coords| < 4 then Failure(ValueError("A polygon requires at least 4 pairs of coordinates; got " + Decimal(|coords|) + "."))
    else
      var flat := Flatten(coords);
      if flat[0] != flat[|flat| - 2] || flat[1] != flat[|flat| - 1] then
        Failure(ValueError("Coordinates of the last pair must match the first pair"))
      else Success(SetParam(st, "polygon", Str(Join(Reprs(flat), ','))))
  }

  function BoundingBox(st: State, lowerLeftLon: Coord, lowerLeftLat: Coord, upperRightLon: Coord, upperRightLat: Coord)
    : Result<State, QueryError>
  {
    Success(SetParam(st, "bounding_box",
      Str(lowerLeftLon.repr + "," + lowerLeftLat.repr + "," + upperRightLon.repr + "," + upperRightLat.repr)))
  }

  function Line(st: State, coords: seq<(Coord, Coord)>): Result<State, QueryError>
  {
    if |coords| == 0 then Success(st)
    else if |coords| < 2 then Failure(ValueError("A line requires at least 2 pairs of coordinates; got " + Decimal(|coords|) + "."))
    else Success(SetParam(st, "line", Str(Join(Reprs(Flatten(coords)), ','))))
  }

  /** `entry_title` stores the percent-encoded title, even an empty one; `quote` refuses anything but a string. */
  function EntryTitle(st: State, entryTitle: Dyn): Result<State, QueryError>
  {
    if !entryTitle.PyStr? then Failure(TypeError(QuoteTypeMessage))
    else Success(SetParam(st, "entry_title", Str(Quote(entryTitle.s))))
  }

  // --------------------------------------------------------- GranuleQuery

  /** `orbit_number`: a range is stored percent-encoded, a single orbit as the value given. */
  function OrbitNumber(st: State, orbit1: FloatLike, orbit2: FloatLike): Result<State, QueryError>
  {
    if Truthy(orbit2) then Success(SetParam(st, "orbit_number", Str(Quote(Render(orbit1) + "," + Render(orbit2)))))
    else Success(SetParam(st, "orbit_number", Raw(orbit1)))
  }

  const DayNightMessage := "day_night_flag must be 'day', 'night', or 'unspecified': "

  const DayNightValues: set<string> := {"day", "night", "unspecified"}

  function DayNightFlag(st: State, flag: Dyn): Result<State, QueryError>
  {
    if !flag.PyStr? then Failure(TypeError("day_night_flag must be of type str."))
    else if AsciiLower(flag.s) !in DayNightValues then
      Failure(ValueError(DayNightMessage + Repr(flag.s) + "."))
    else Success(SetParam(st, "day_night_flag", Str(AsciiLower(flag.s))))
  }

  /**
   * `cloud_cover`: raises when both bounds are falsy; when both are truthy
   * they are converted in order, a ValueError of `float` (or a reversed
   * range) becoming the "both floats" ValueError and a TypeError of `float`
   * the "convertible to floats" TypeError; the bounds are stored as given.
   */
  function CloudCover(st: State, minCover: FloatLike, maxCover: FloatLike): Result<State, QueryError>
  {
    if !Truthy(minCover) && !Truthy(maxCover) then
      Failure(ValueError("Please provide at least min_cover, max_cover or both"))
    else if Truthy(minCover) && Truthy(maxCover) && !FloatOf(minCover).Converted? then
      Failure(CoverConversionError(FloatOf(minCover)))
    else if Truthy(minCover) && Truthy(maxCover) && !FloatOf(maxCover).Converted? then
      Failure(CoverConversionError(FloatOf(maxCover)))
    else if Truthy(minCover) && Truthy(maxCover) && FloatOf(minCover).value > FloatOf(maxCover).value then
      Failure(ValueError(CoverNotFloats))
    else Success(SetParam(st, "cloud_cover", Str(Render(minCover) + "," + Render(maxCover))))
  }

  const CoverNotFloats := "Please ensure min_cover and max_cover are both floats"

  const CoverNotConvertible := "Please ensure min_cover and max_cover are both convertible to floats"

  /** The exception `cloud_cover` turns a failed `float` into. */
  function CoverConversionError(c: Conversion): QueryError
  {
    if c.NotConvertible? then TypeError(CoverNotConvertible) else ValueError(CoverNotFloats)
  }

  function Instrument(st: State, instrument: string): Result<State, QueryError>
  {
    SetOrRaise(st, "instrument", instrument, "Please provide a value for instrument")
  }

  function Platform(st: State, platform: string): Result<State, QueryError>
  {
    SetOrRaise(st, "platform", platform, "Please provide a value for platform")
  }

  const GranuleSortKeys: set<string> := {
    "campaign", "entry_title", "dataset_id", "data_size", "end_date", "granule_ur",
    "producer_granule_id", "project", "provider", "readable_granule_name", "short_name",
    "start_date", "version", "platform", "instrument", "sensor", "day_night_flag",
    "online_only", "browsable", "browse_only", "cloud_cover", "revision_date"
  }

  const SortKeyMessage := "Please provide a valid sort key for granules query.  See https://cmr.earthdata.nasa.gov/search/site/docs/search/api.html#sorting-granule-results for valid sort keys."

  /** `sort_key`: after every leading `-` is removed the key must be sortable; the key is stored as given. */
  function SortKey(st: State, key: Dyn): Result<State, QueryError>
  {
    if !key.PyStr? || LStrip(key.s, '-') !in GranuleSortKeys then
      Failure(ValueError(SortKeyMessage))
    else Success(SetParam(st, "sort_key", Str(key.s)))
  }

  /** `granule_ur` raises with the message written for `platform`. */
  function GranuleUr(st: State, granuleUr: string): Result<State, QueryError>
  {
    SetOrRaise(st, "granule_ur", granuleUr, "Please provide a value for platform")
  }

  /** `readable_granule_name`: the names replace the parameter and the option `pattern` is switched on. */
  function ReadableGranuleName(st: State, names: IdArg): Result<State, QueryError>
  {
    Success(st.(params := Put(st.params, "readable_granule_name", List(AsList(names))),
                options := Put(st.options, "readable_granule_name", [("pattern", OptBool(true))])))
  }

  // ------------------------------------------------------ CollectionQuery

  function ArchiveCenter(st: State, center: string): Result<State, QueryError>
  {
    SetIfGiven(st, "archive_center", center)
  }

  function Keyword(st: State, text: string): Result<State, QueryError>
  {
    SetIfGiven(st, "keyword", text)
  }

  /** `native_id` (on collection, tool, service and variable queries). */
  function NativeId(st: State, nativeIds: IdArg): Result<State, QueryError>
  {
    Success(SetParam(st, "native_id", List(AsList(nativeIds))))
  }

  const ToolIdMessage := "Only tool concept ID's can be provided (begin with 'T'): "

  const ServiceIdMessage := "Only service concept IDs can be provided (begin with 'S'): "

  function ToolConceptId(st: State, ids: IdArg): Result<State, QueryError>
  {
    IdFilter(st, "tool_concept_id", ids, {'T'}, ToolIdMessage)
  }

  function ServiceConceptId(st: State, ids: IdArg): Result<State, QueryError>
  {
    IdFilter(st, "service_concept_id", ids, {'S'}, ServiceIdMessage)
  }

  // ----------------------------------------- ToolServiceVariableBaseQuery

  function Name(st: State, name: string): Result<State, QueryError>
  {
    SetIfGiven(st, "name", name)
  }
}
