/**
 * The query object itself: `Query` and its subclasses as one class whose
 * `kind` says which subclass it is. Each builder validates its argument and
 * then updates the object's dictionaries in place; each is proved to do
 * what the matching function of `Filters` describes, and to keep `Inv`.
 */
module Queries {
  import opened Wrappers
  import opened OrderedDicts
  import opened Strings
  import opened PercentEncoding
  import opened Temporal
  import opened QueryState
  import opened Validity
  import opened UrlBuilder
  import opened Pagination
  import opened Registry
  import Filters
  import RegistryProperties
  import UrlProperties
  import PaginationProperties

  /**
   * A builder call did what `spec` says: on success it returned and left
   * the state `spec` gives; on failure it raised `spec`'s exception and left
   * the state as it was.
   */
  predicate Reflects(spec: Result<State, QueryError>, before: State, r: Outcome<QueryError>, after: State)
  {
    if spec.Success? then r == Pass && after == spec.value
    else r == Fail(spec.error) && after == before
  }

  class Query {
    /** Which of GranuleQuery, CollectionQuery, ToolQuery, ServiceQuery, VariableQuery this is. */
    const kind: Kind
    var baseUrl: string
    var format: string
    var params: Dict<Value>
    var options: Dict<Dict<OptionValue>>
    var headers: map<string, string>

    /** The object's fields as one value. */
    function Snapshot(): State
      reads this
    {
      State(baseUrl, format, params, options, headers)
    }

    /** The class invariant: every state a query reaches satisfies `Inv`. */
    predicate Valid()
      reads this
    {
      Inv(kind, Snapshot())
    }

    /** `GranuleQuery(mode)` and its siblings: `Query.__init__` with the class's route. */
    constructor (kind: Kind, mode: string)
      ensures this.kind == kind && Snapshot() == Initial(kind, mode)
      ensures Valid()
    {
      this.kind := kind;
      params := [];
      options := [];
      baseUrl := mode + Route(kind);
      format := "json";
      headers := map[];
      new;
      RegistryProperties.InitialInv(kind, mode);
    }

    // ----------------------------------------------------------- helpers

    /** `self.params[key] = value` for a key other than the two flags and `temporal`. */
    method Store(key: string, v: Value)
      requires Valid()
      requires key != "online_only" && key != "downloadable" && key != "temporal"
      modifies this
      ensures Valid()
      ensures Snapshot() == Filters.SetParam(old(Snapshot()), key, v)
    {
      RegistryProperties.SetParamInv(kind, Snapshot(), key, v);
      params := Put(params, key, v);
    }

    /** The setters that return early on a falsy argument. */
    method SetIfGiven(key: string, s: string) returns (r: Outcome<QueryError>)
      requires Valid()
      requires key != "online_only" && key != "downloadable" && key != "temporal"
      modifies this
      ensures Valid()
      ensures Reflects(Filters.SetIfGiven(old(Snapshot()), key, s), old(Snapshot()), r, Snapshot())
    {
      if s == "" {
        return Pass;
      }
      Store(key, Str(s));
      r := Pass;
    }

    /** The setters that raise ValueError on a falsy argument. */
    method SetOrRaise(key: string, s: string, msg: string) returns (r: Outcome<QueryError>)
      requires Valid()
      requires key != "online_only" && key != "downloadable" && key != "temporal"
      modifies this
      ensures Valid()
      ensures Reflects(Filters.SetOrRaise(old(Snapshot()), key, s, msg), old(Snapshot()), r, Snapshot())
    {
      if s == "" {
        return Fail(ValueError(msg));
      }
      Store(key, Str(s));
      r := Pass;
    }

    /** The loop of the identifier filters: check every identifier, then store the whole list. */
    method IdFilter(key: string, ids: IdArg, allowed: set<char>, msg: string) returns (r: Outcome<QueryError>)
      requires Valid()
      requires key != "online_only" && key != "downloadable" && key != "temporal"
      modifies this
      ensures Valid()
      ensures Reflects(Filters.IdFilter(old(Snapshot()), key, ids, allowed, msg), old(Snapshot()), r, Snapshot())
    {
      var list := AsList(ids);
      var i := 0;
      while i < |list|
        invariant 0 <= i <= |list|
        invariant Filters.CheckIds(list, allowed, msg) == Filters.CheckIds(list[i..], allowed, msg)
      {
        assert list[i..][0] == list[i] && list[i..][1..] == list[i + 1..];
        var first := FirstNonSpace(list[i]);
        if first.None? {
          return Fail(IndexError);
        }
        if first.value !in allowed {
          return Fail(ValueError(msg + list[i]));
        }
        i := i + 1;
      }
      Store(key, List(list));
      r := Pass;
    }

    /** `online_only` and `downloadable`: check the type, drop the other flag, store this one. */
    method ExclusiveFlag(key: string, other: string, flag: Dyn, msg: string) returns (r: Outcome<QueryError>)
      requires Valid()
      requires (key == "online_only" && other == "downloadable") || (key == "downloadable" && other == "online_only")
      modifies this
      ensures Valid()
      ensures Reflects(Filters.ExclusiveFlag(old(Snapshot()), key, other, flag, msg), old(Snapshot()), r, Snapshot())
    {
      if !flag.PyBool? {
        return Fail(TypeError(msg));
      }
      RegistryProperties.ExclusiveFlagInv(kind, Snapshot(), key, other, flag, msg);
      if other in Keys(params) {
        params := Remove(params, other);
      }
      params := Put(params, key, Flag(flag.b));
      r := Pass;
    }

    /** The coordinates of the pairs, longitude then latitude, collected one pair at a time. */
    method AsFloats(coords: seq<(Coord, Coord)>) returns (flat: seq<Coord>)
      ensures flat == Filters.Flatten(coords)
    {
      flat := [];
      var i := 0;
      while i < |coords|
        invariant 0 <= i <= |coords|
        invariant flat == Filters.Flatten(coords[..i])
      {
        assert coords[..i + 1][..i] == coords[..i];
        flat := flat + [coords[i].0, coords[i].1];
        i := i + 1;
      }
      assert coords[..|coords|] == coords;
    }

    // ---------------------------------------------------------- Query

    method ConceptId(ids: IdArg) returns (r: Outcome<QueryError>)
      requires Valid()
      modifies this
      ensures Valid()
      ensures Reflects(Filters.ConceptId(kind, old(Snapshot()), ids), old(Snapshot()), r, Snapshot())
    {
      r := IdFilter("concept_id", ids, ConceptIdChars(kind), Filters.ConceptIdMessage(kind));
    }

    method Provider(provider: string) returns (r: Outcome<QueryError>)
      requires Valid()
      modifies this
      ensures Valid()
      ensures Reflects(Filters.Provider(old(Snapshot()), provider), old(Snapshot()), r, Snapshot())
    {
      r := SetIfGiven("provider", provider);
    }

    method Mode(mode: Option<string>) returns (r: Outcome<QueryError>)
      requires Valid()
      modifies this
      ensures Valid()
      ensures Reflects(Filters.Mode(kind, old(Snapshot()), mode), old(Snapshot()), r, Snapshot())
    {
      if mode.None? {
        return Fail(ValueError("Please provide a valid mode (CMR_OPS, CMR_UAT, CMR_SIT)"));
      }
      baseUrl := mode.value + Route(kind);
      r := Pass;
    }

    method Token(token: string) returns (r: Outcome<QueryError>)
      requires Valid()
      modifies this
      ensures Valid()
      ensures Reflects(Filters.Token(old(Snapshot()), token), old(Snapshot()), r, Snapshot())
    {
      if token == "" {
        return Pass;
      }
      headers := map["Authorization" := token];
      r := Pass;
    }

    method BearerToken(bearerToken: string) returns (r: Outcome<QueryError>)
      requires Valid()
      modifies this
      ensures Valid()
      ensures Reflects(Filters.BearerToken(old(Snapshot()), bearerToken), old(Snapshot()), r, Snapshot())
    {
      if bearerToken == "" {
        return Pass;
      }
      headers := map["Authorization" := "Bearer " + bearerToken];
      r := Pass;
    }

    /** `format`: try the kind's patterns in order and keep the format at the first one found in it. */
    method Format(outputFormat: string) returns (r: Outcome<QueryError>)
      requires Valid()
      modifies this
      ensures Valid()
      ensures Reflects(Filters.Format(kind, old(Snapshot()), outputFormat), old(Snapshot()), r, Snapshot())
    {
      var f := if outputFormat == "" then "json" else outputFormat;
      var patterns := FormatPatterns(kind);
      var i := 0;
      while i < |patterns|
        invariant 0 <= i <= |patterns|
        invariant AnySearch(patterns, f) == AnySearch(patterns[i..], f)
      {
        assert patterns[i..][0] == patterns[i] && patterns[i..][1..] == patterns[i + 1..];
        if Search(patterns[i], f) {
          format := f;
          return Pass;
        }
        i := i + 1;
      }
      r := Fail(ValueError(Filters.UnsupportedFormat + "'" + f + "'"));
    }

    // -------------------------------------------- GranuleCollectionBaseQuery

    method OnlineOnly(onlineOnly: Dyn) returns (r: Outcome<QueryError>)
      requires Valid() && (kind.Granule? || kind.Collection?)
      modifies this
      ensures Valid()
      ensures Reflects(Filters.OnlineOnly(old(Snapshot()), onlineOnly), old(Snapshot()), r, Snapshot())
    {
      r := ExclusiveFlag("online_only", "downloadable", onlineOnly, "Online_only must be of type bool");
    }

    method Downloadable(downloadable: Dyn) returns (r: Outcome<QueryError>)
      requires Valid() && (kind.Granule? || kind.Collection?)
      modifies this
      ensures Valid()
      ensures Reflects(Filters.Downloadable(old(Snapshot()), downloadable), old(Snapshot()), r, Snapshot())
    {
      r := ExclusiveFlag("downloadable", "online_only", downloadable, "Downloadable must be of type bool");
    }

    /**
     * `temporal`: format both bounds, check their order, then append one
     * range to the list under `temporal` (which the invariant keeps a list).
     */
    method Temporal(dateFrom: Bound, dateTo: Bound, excludeBoundary: bool) returns (r: Outcome<QueryError>)
      requires Valid() && (kind.Granule? || kind.Collection?)
      requires ValidBound(dateFrom) && ValidBound(dateTo)
      modifies this
      ensures Valid()
      ensures Reflects(Filters.TemporalFilter(old(Snapshot()), dateFrom, dateTo, excludeBoundary), old(Snapshot()), r, Snapshot())
    {
      var from := BoundText(dateFrom, false);
      var to := BoundText(dateTo, true);
      if from != "" && to != "" && LexLess(to, from) {
        return Fail(ValueError("date_from must be earlier than date_to."));
      }
      AppendRange(from + "," + to, excludeBoundary);
      r := Pass;
    }

    /** The writing half of `temporal`: append `range` to the list under `temporal`, set the options if asked. */
    method AppendRange(range: string, excludeBoundary: bool)
      requires Valid()
      modifies this
      ensures Valid()
      ensures var before := old(Snapshot());
        Snapshot() == before.(params := Put(before.params, "temporal", List(Filters.TemporalRanges(before.params).value + [range])),
                              options := if excludeBoundary then Put(before.options, "temporal", [("exclude_boundary", OptBool(true))])
                                         else before.options)
    {
      var existing := OrderedDicts.Get(params, "temporal");
      var ranges := if existing.Some? then existing.value.items else [];
      RegistryProperties.SetParamInv(kind, Snapshot(), "temporal", List(ranges + [range]));
      params := Put(params, "temporal", List(ranges + [range]));
      if excludeBoundary {
        RegistryProperties.OptionPutInv(options, "temporal", [("exclude_boundary", OptBool(true))]);
        options := Put(options, "temporal", [("exclude_boundary", OptBool(true))]);
      }
    }

    method ShortName(shortName: string) returns (r: Outcome<QueryError>)
      requires Valid() && (kind.Granule? || kind.Collection?)
      modifies this
      ensures Valid()
      ensures Reflects(Filters.ShortName(old(Snapshot()), shortName), old(Snapshot()), r, Snapshot())
    {
      r := SetIfGiven("short_name", shortName);
    }

    method Version(version: string) returns (r: Outcome<QueryError>)
      requires Valid() && (kind.Granule? || kind.Collection?)
      modifies this
      ensures Valid()
      ensures Reflects(Filters.Version(old(Snapshot()), version), old(Snapshot()), r, Snapshot())
    {
      r := SetIfGiven("version", version);
    }

    method Point(lon: Coord, lat: Coord) returns (r: Outcome<QueryError>)
      requires Valid() && (kind.Granule? || kind.Collection?)
      modifies this
      ensures Valid()
      ensures Reflects(Filters.Point(old(Snapshot()), lon, lat), old(Snapshot()), r, Snapshot())
    {
      Store("point", Str(lon.repr + "," + lat.repr));
      r := Pass;
    }

    method Circle(lon: FloatLike, lat: FloatLike, dist: FloatLike) returns (r: Outcome<QueryError>)
      requires Valid() && (kind.Granule? || kind.Collection?)
      modifies this
      ensures Valid()
      ensures Reflects(Filters.Circle(old(Snapshot()), lon, lat, dist), old(Snapshot()), r, Snapshot())
    {
      Store("circle", Str(Render(lon) + "," + Render(lat) + "," + Render(dist)));
      r := Pass;
    }

    /** `polygon`: at least four pairs, flattened, and the last pair equal to the first. */
    method Polygon(coordinates: seq<(Coord, Coord)>) returns (r: Outcome<QueryError>)
      requires Valid() && (kind.Granule? || kind.Collection?)
      modifies this
      ensures Valid()
      ensures Reflects(Filters.Polygon(old(Snapshot()), coordinates), old(Snapshot()), r, Snapshot())
    {
      if |coordinates| == 0 {
        return Pass;
      }
      if |coordinates| < 4 {
        return Fail(ValueError("A polygon requires at least 4 pairs of coordinates; got " + Decimal(|coordinates|) + "."));
      }
      var asFloats := AsFloats(coordinates);
      if asFloats[0] != asFloats[|asFloats| - 2] || asFloats[1] != asFloats[|asFloats| - 1] {
        return Fail(ValueError("Coordinates of the last pair must match the first pair"));
      }
      Store("polygon", Str(Join(Filters.Reprs(asFloats), ',')));
      r := Pass;
    }

    method BoundingBox(lowerLeftLon: Coord, lowerLeftLat: Coord, upperRightLon: Coord, upperRightLat: Coord)
      returns (r: Outcome<QueryError>)
      requires Valid() && (kind.Granule? || kind.Collection?)
      modifies this
      ensures Valid()
      ensures Reflects(Filters.BoundingBox(old(Snapshot()), lowerLeftLon, lowerLeftLat, upperRightLon, upperRightLat),
                       old(Snapshot()), r, Snapshot())
    {
      Store("bounding_box",
        Str(lowerLeftLon.repr + "," + lowerLeftLat.repr + "," + upperRightLon.repr + "," + upperRightLat.repr));
      r := Pass;
    }

    /** `line`: at least two pairs, flattened. */
    method Line(coordinates: seq<(Coord, Coord)>) returns (r: Outcome<QueryError>)
      requires Valid() && (kind.Granule? || kind.Collection?)
      modifies this
      ensures Valid()
      ensures Reflects(Filters.Line(old(Snapshot()), coordinates), old(Snapshot()), r, Snapshot())
    {
      if |coordinates| == 0 {
        return Pass;
      }
      if |coordinates| < 2 {
        return Fail(ValueError("A line requires at least 2 pairs of coordinates; got " + Decimal(|coordinates|) + "."));
      }
      var asFloats := AsFloats(coordinates);
      Store("line", Str(Join(Filters.Reprs(asFloats), ',')));
      r := Pass;
    }

    method EntryTitle(entryTitle: Dyn) returns (r: Outcome<QueryError>)
      requires Valid() && (kind.Granule? || kind.Collection?)
      modifies this
      ensures Valid()
      ensures Reflects(Filters.EntryTitle(old(Snapshot()), entryTitle), old(Snapshot()), r, Snapshot())
    {
      if !entryTitle.PyStr? {
        return Fail(TypeError(QuoteTypeMessage));
      }
      Store("entry_title", Str(Quote(entryTitle.s)));
      r := Pass;
    }

    // ------------------------------------------------------- GranuleQuery

    method OrbitNumber(orbit1: FloatLike, orbit2: FloatLike) returns (r: Outcome<QueryError>)
      requires Valid() && kind.Granule?
      modifies this
      ensures Valid()
      ensures Reflects(Filters.OrbitNumber(old(Snapshot()), orbit1, orbit2), old(Snapshot()), r, Snapshot())
    {
      if Truthy(orbit2) {
        Store("orbit_number", Str(Quote(Render(orbit1) + "," + Render(orbit2))));
      } else {
        Store("orbit_number", Raw(orbit1));
      }
      r := Pass;
    }

    method DayNightFlag(dayNightFlag: Dyn) returns (r: Outcome<QueryError>)
      requires Valid() && kind.Granule?
      modifies this
      ensures Valid()
      ensures Reflects(Filters.DayNightFlag(old(Snapshot()), dayNightFlag), old(Snapshot()), r, Snapshot())
    {
      if !dayNightFlag.PyStr? {
        return Fail(TypeError("day_night_flag must be of type str."));
      }
      var flag := AsciiLower(dayNightFlag.s);
      if flag !in Filters.DayNightValues {
        return Fail(ValueError(Filters.DayNightMessage + Repr(dayNightFlag.s) + "."));
      }
      Store("day_night_flag", Str(flag));
      r := Pass;
    }

    method CloudCover(minCover: FloatLike, maxCover: FloatLike) returns (r: Outcome<QueryError>)
      requires Valid() && kind.Granule?
      modifies this
      ensures Valid()
      ensures Reflects(Filters.CloudCover(old(Snapshot()), minCover, maxCover), old(Snapshot()), r, Snapshot())
    {
      if !Truthy(minCover) && !Truthy(maxCover) {
        return Fail(ValueError("Please provide at least min_cover, max_cover or both"));
      }
      if Truthy(minCover) && Truthy(maxCover) {
        var lo := FloatOf(minCover);
        if !lo.Converted? {
          return Fail(Filters.CoverConversionError(lo));
        }
        var hi := FloatOf(maxCover);
        if !hi.Converted? {
          return Fail(Filters.CoverConversionError(hi));
        }
        if lo.value > hi.value {
          return Fail(ValueError(Filters.CoverNotFloats));
        }
      }
      Store("cloud_cover", Str(Render(minCover) + "," + Render(maxCover)));
      r := Pass;
    }

    method Instrument(instrument: string) returns (r: Outcome<QueryError>)
      requires Valid() && kind.Granule?
      modifies this
      ensures Valid()
      ensures Reflects(Filters.Instrument(old(Snapshot()), instrument), old(Snapshot()), r, Snapshot())
    {
      r := SetOrRaise("instrument", instrument, "Please provide a value for instrument");
    }

    method Platform(platform: string) returns (r: Outcome<QueryError>)
      requires Valid() && kind.Granule?
      modifies this
      ensures Valid()
      ensures Reflects(Filters.Platform(old(Snapshot()), platform), old(Snapshot()), r, Snapshot())
    {
      r := SetOrRaise("platform", platform, "Please provide a value for platform");
    }

    method SortKey(sortKey: Dyn) returns (r: Outcome<QueryError>)
      requires Valid() && kind.Granule?
      modifies this
      ensures Valid()
      ensures Reflects(Filters.SortKey(old(Snapshot()), sortKey), old(Snapshot()), r, Snapshot())
    {
      if !sortKey.PyStr? || LStrip(sortKey.s, '-') !in Filters.GranuleSortKeys {
        return Fail(ValueError(Filters.SortKeyMessage));
      }
      Store("sort_key", Str(sortKey.s));
      r := Pass;
    }

    method GranuleUr(granuleUr: string) returns (r: Outcome<QueryError>)
      requires Valid() && kind.Granule?
      modifies this
      ensures Valid()
      ensures Reflects(Filters.GranuleUr(old(Snapshot()), granuleUr), old(Snapshot()), r, Snapshot())
    {
      r := SetOrRaise("granule_ur", granuleUr, "Please provide a value for platform");
    }

    method ReadableGranuleName(names: IdArg) returns (r: Outcome<QueryError>)
      requires Valid() && kind.Granule?
      modifies this
      ensures Valid()
      ensures Reflects(Filters.ReadableGranuleName(old(Snapshot()), names), old(Snapshot()), r, Snapshot())
    {
      RegistryProperties.ReadableGranuleNameInv(kind, Snapshot(), names);
      params := Put(params, "readable_granule_name", List(AsList(names)));
      options := Put(options, "readable_granule_name", [("pattern", OptBool(true))]);
      r := Pass;
    }

    // ----------------------------------------------------- CollectionQuery

    method ArchiveCenter(center: string) returns (r: Outcome<QueryError>)
      requires Valid() && kind.Collection?
      modifies this
      ensures Valid()
      ensures Reflects(Filters.ArchiveCenter(old(Snapshot()), center), old(Snapshot()), r, Snapshot())
    {
      r := SetIfGiven("archive_center", center);
    }

    method Keyword(text: string) returns (r: Outcome<QueryError>)
      requires Valid() && kind.Collection?
      modifies this
      ensures Valid()
      ensures Reflects(Filters.Keyword(old(Snapshot()), text), old(Snapshot()), r, Snapshot())
    {
      r := SetIfGiven("keyword", text);
    }

    /** `native_id`, defined by CollectionQuery and by ToolServiceVariableBaseQuery alike. */
    method NativeId(nativeIds: IdArg) returns (r: Outcome<QueryError>)
      requires Valid() && !kind.Granule?
      modifies this
      ensures Valid()
      ensures Reflects(Filters.NativeId(old(Snapshot()), nativeIds), old(Snapshot()), r, Snapshot())
    {
      Store("native_id", List(AsList(nativeIds)));
      r := Pass;
    }

    method ToolConceptId(ids: IdArg) returns (r: Outcome<QueryError>)
      requires Valid() && kind.Collection?
      modifies this
      ensures Valid()
      ensures Reflects(Filters.ToolConceptId(old(Snapshot()), ids), old(Snapshot()), r, Snapshot())
    {
      r := IdFilter("tool_concept_id", ids, {'T'}, Filters.ToolIdMessage);
    }

    method ServiceConceptId(ids: IdArg) returns (r: Outcome<QueryError>)
      requires Valid() && kind.Collection?
      modifies this
      ensures Valid()
      ensures Reflects(Filters.ServiceConceptId(old(Snapshot()), ids), old(Snapshot()), r, Snapshot())
    {
      r := IdFilter("service_concept_id", ids, {'S'}, Filters.ServiceIdMessage);
    }

    // ---------------------------------------- ToolServiceVariableBaseQuery

    method Name(name: string) returns (r: Outcome<QueryError>)
      requires Valid() && !kind.Granule? && !kind.Collection?
      modifies this
      ensures Valid()
      ensures Reflects(Filters.Name(old(Snapshot()), name), old(Snapshot()), r, Snapshot())
    {
      r := SetIfGiven("name", name);
    }
    // ----------------------------------------------------------- parameters

    /** `methods[key](*val)` once the name is known to be this call's builder. */
    method Dispatch(c: Call) returns (r: Outcome<QueryError>)
      requires Valid() && WellFormed(c) && Offers(kind, KeyOf(c))
      modifies this
      ensures Valid()
      ensures Reflects(Apply(kind, old(Snapshot()), c), old(Snapshot()), r, Snapshot())
    {
      RegistryProperties.OfferedGroup(kind, c);
      if QueryCall(c) {
        r := DispatchQuery(c);
      } else if SpatialCall(c) {
        r := DispatchSpatial(c);
      } else if GranuleCall(c) {
        r := DispatchGranule(c);
      } else if CollectionCall(c) {
        r := DispatchCollection(c);
      } else if c.NativeIdCall? {
        r := NativeId(c.nativeIds);
      } else {
        r := Name(c.name);
      }
    }

    /** Dispatch among the builders of `Query`. */
    method DispatchQuery(c: Call) returns (r: Outcome<QueryError>)
      requires Valid() && QueryCall(c)
      modifies this
      ensures Valid()
      ensures Reflects(ApplyQuery(kind, old(Snapshot()), c), old(Snapshot()), r, Snapshot())
    {
      match c
      case ConceptIdCall(ids) => r := ConceptId(ids);
      case ProviderCall(p) => r := Provider(p);
      case ModeCall(m) => r := Mode(m);
      case TokenCall(t) => r := Token(t);
      case BearerTokenCall(t) => r := BearerToken(t);
      case FormatCall(f) => r := Format(f);
    }

    /** Dispatch among the builders of `GranuleCollectionBaseQuery`. */
    method DispatchSpatial(c: Call) returns (r: Outcome<QueryError>)
      requires Valid() && (kind.Granule? || kind.Collection?) && SpatialCall(c) && WellFormed(c)
      modifies this
      ensures Valid()
      ensures Reflects(ApplySpatial(old(Snapshot()), c), old(Snapshot()), r, Snapshot())
    {
      match c
      case OnlineOnlyCall(b) => r := OnlineOnly(b);
      case TemporalCall(f, t, e) => r := Temporal(f, t, e);
      case ShortNameCall(n) => r := ShortName(n);
      case VersionCall(v) => r := Version(v);
      case PointCall(lon, lat) => r := Point(lon, lat);
      case CircleCall(lon, lat, d) => r := Circle(lon, lat, d);
      case PolygonCall(cs) => r := Polygon(cs);
      case BoundingBoxCall(a, b, c1, d) => r := BoundingBox(a, b, c1, d);
      case LineCall(cs) => r := Line(cs);
      case DownloadableCall(b) => r := Downloadable(b);
      case EntryTitleCall(t) => r := EntryTitle(t);
    }

    /** Dispatch among the builders of `GranuleQuery`. */
    method DispatchGranule(c: Call) returns (r: Outcome<QueryError>)
      requires Valid() && kind.Granule? && GranuleCall(c)
      modifies this
      ensures Valid()
      ensures Reflects(ApplyGranule(old(Snapshot()), c), old(Snapshot()), r, Snapshot())
    {
      match c
      case OrbitNumberCall(o1, o2) => r := OrbitNumber(o1, o2);
      case DayNightFlagCall(f) => r := DayNightFlag(f);
      case CloudCoverCall(lo, hi) => r := CloudCover(lo, hi);
      case InstrumentCall(i) => r := Instrument(i);
      case PlatformCall(p) => r := Platform(p);
      case SortKeyCall(key) => r := SortKey(key);
      case GranuleUrCall(u) => r := GranuleUr(u);
      case ReadableGranuleNameCall(ns) => r := ReadableGranuleName(ns);
    }

    /** Dispatch among the builders only `CollectionQuery` has. */
    method DispatchCollection(c: Call) returns (r: Outcome<QueryError>)
      requires Valid() && kind.Collection? && CollectionCall(c)
      modifies this
      ensures Valid()
      ensures Reflects(ApplyCollection(old(Snapshot()), c), old(Snapshot()), r, Snapshot())
    {
      match c
      case ArchiveCenterCall(a) => r := ArchiveCenter(a);
      case KeywordCall(t) => r := Keyword(t);
      case ToolConceptIdCall(ids) => r := ToolConceptId(ids);
      case ServiceConceptIdCall(ids) => r := ServiceConceptId(ids);
    }

    /**
     * `parameters(**kwargs)`: the keywords in order, each checked against the
     * class's builders and then run; the first exception ends the call and
     * what earlier keywords did stays done.
     */
    method Parameters(kwargs: seq<(Key, Call)>) returns (r: Outcome<QueryError>)
      requires Valid() && AllWellFormed(kwargs)
      modifies this
      ensures Valid()
      ensures ApplyAll(kind, old(Snapshot()), kwargs) == Applied(Snapshot(), if r.Pass? then None else Some(r.error))
    {
      var i := 0;
      while i < |kwargs|
        invariant 0 <= i <= |kwargs| && Valid()
        invariant AllWellFormed(kwargs[i..])
        invariant ApplyAll(kind, old(Snapshot()), kwargs) == ApplyAll(kind, Snapshot(), kwargs[i..])
      {
        assert kwargs[i..][0] == kwargs[i] && kwargs[i..][1..] == kwargs[i + 1..];
        var (key, c) := kwargs[i];
        if !Offers(kind, key) {
          return Fail(ValueError("Unknown key " + KeyName(key)));
        }
        if Argumentless(key) || KeyOf(c) != key {
          return Fail(TypeError(KeyName(key) + "() got arguments it does not take"));
        }
        r := Dispatch(c);
        if r.Fail? {
          return;
        }
        i := i + 1;
      }
      r := Pass;
    }

    // ------------------------------------------------------------ the URL

    /**
     * `_build_url`: the validity check, the parameter fragments in order,
     * the option fragments in order (raising for a value that is not a bool),
     * both joined by `&` after the prefix, trailing `&`s stripped.
     */
    method BuildUrl() returns (r: Result<string, QueryError>)
      ensures r == Url(kind, Snapshot())
    {
      if !ValidState(kind, params) {
        return Failure(RuntimeError(InvalidStateMessage));
      }
      var formattedParams: seq<string> := [];
      var i := 0;
      while i < |params|
        invariant 0 <= i <= |params|
        invariant formattedParams == ParamsFragments(params[..i])
      {
        var (key, val) := params[i];
        var fs := ValueFragments(key, val);
        formattedParams := formattedParams + fs;
        assert params[..i + 1][..i] == params[..i];
        i := i + 1;
      }
      assert params[..|params|] == params;
      var optionsResult := OptionFragments();
      if optionsResult.Failure? {
        return Failure(optionsResult.error);
      }
      var res := baseUrl + "." + format + "?" + Join(formattedParams, '&') + "&" + Join(optionsResult.value, '&');
      r := Success(RStrip(res, '&'));
    }

    /** `key[]=item` for each item, in order. */
    method ItemFragments(key: string, items: seq<string>) returns (fs: seq<string>)
      ensures fs == ListFragments(key, items)
    {
      fs := [];
      var j := 0;
      while j < |items|
        invariant 0 <= j <= |items| && |fs| == j
        invariant forall t :: 0 <= t < j ==> fs[t] == key + "[]=" + items[t]
      {
        fs := fs + [key + "[]=" + items[j]];
        j := j + 1;
      }
    }

    /** The fragments of one parameter; a list gives one `key[]=item` per item, in order, a bool `true` or `false`. */
    method ValueFragments(key: string, val: Value) returns (fs: seq<string>)
      ensures fs == ParamFragments(key, val)
    {
      match val {
        case List(items) => fs := ItemFragments(key, items);
        case Flag(b) => fs := [key + "=" + BoolText(b)];
        case Str(v) => fs := [key + "=" + v];
        case Raw(x) =>
          match x {
            case ListValue(items, _) => fs := ItemFragments(key, items);
            case BoolValue(b) => fs := [key + "=" + BoolText(b)];
            case _ => fs := [key + "=" + Render(x)];
          }
      }
    }

    /** The option fragments of every parameter in order, or the TypeError for the first value that is not a bool. */
    method OptionFragments() returns (r: Result<seq<string>, QueryError>)
      ensures r == OptionsFragments(options)
    {
      var formattedOptions: seq<string> := [];
      var i := 0;
      while i < |options|
        invariant 0 <= i <= |options|
        invariant OptionsFragments(options[..i]) == Success(formattedOptions)
      {
        var (paramKey, inner) := options[i];
        assert options[..i + 1][..i] == options[..i];
        var j := 0;
        ghost var before := formattedOptions;
        while j < |inner|
          invariant 0 <= j <= |inner|
          invariant EntryFragments(paramKey, inner[..j]).Success?
          invariant formattedOptions == before + EntryFragments(paramKey, inner[..j]).value
        {
          var (optionKey, val) := inner[j];
          assert inner[..j + 1][..j] == inner[..j];
          if val.OptOther? {
            UrlProperties.EntryFailurePersists(paramKey, inner, j + 1);
            UrlProperties.OptionsFailurePersists(options, i + 1);
            return Failure(OptionTypeError(paramKey, optionKey));
          }
          formattedOptions := formattedOptions + [OptionFragment(paramKey, optionKey, val.b)];
          j := j + 1;
        }
        assert inner[..|inner|] == inner;
        i := i + 1;
      }
      assert options[..|options|] == options;
      r := Success(formattedOptions);
    }

    // -------------------------------------------------------- the requests

    /**
     * `Query.get(limit)`: pages of `min(limit - n, 2000)` with a copy of the
     * headers, the cursor of each response carried into the next request, until
     * `limit` results have been asked for or a response carries no cursor.
     */
    method CursorGet(server: Server, limit: int) returns (outcome: Result<seq<Item>, QueryError>, sent: seq<Request>)
      ensures Run(outcome, sent) == Pagination.CursorGet(kind, Snapshot(), server, limit)
    {
      var u := BuildUrl();
      if u.Failure? {
        return Failure(u.error), [];
      }
      outcome, sent := CursorPages(server, u.value, format == "json", limit, headers);
    }

    /** The `while more_results` loop of `Query.get`, from a built URL and the query's headers. */
    method CursorPages(server: Server, url: string, json: bool, limit: int, start: map<string, string>)
      returns (outcome: Result<seq<Item>, QueryError>, sent: seq<Request>)
      ensures Run(outcome, sent) == CursorFrom(server, url, json, limit, start, 0)
    {
      var results: seq<Item> := [];
      var hdrs := start;
      var moreResults := true;
      var n := 0;
      sent := [];
      ghost var whole := CursorFrom(server, url, json, limit, start, 0);
      PaginationProperties.ExtendNothing(whole);
      while moreResults
        invariant moreResults ==> whole == Extend(results, sent, CursorFrom(server, url, json, limit, hdrs, n))
        invariant !moreResults ==> whole == Run(Success(results), sent)
        decreases (if moreResults then 1 else 0) + (if n < limit then limit - n else 0)
      {
        var pageSize := Min(limit - n, MaxPageSize);
        var req := Request(url, hdrs, pageSize, None);
        var resp := server(req);
        if IsHttpError(resp.status) {
          return Failure(HttpError(resp.status)), sent + [req];
        }
        var page := PageItems(resp, json);
        if n + pageSize < limit && resp.searchAfter.Some? {
          PaginationProperties.ExtendPrepend(results, sent, req, page,
            CursorFrom(server, url, json, limit, NextHeaders(hdrs, resp), n + pageSize));
        }
        n := n + pageSize;
        results := results + page;
        sent := sent + [req];
        if resp.searchAfter.Some? && resp.searchAfter.value != "" {
          hdrs := hdrs[CursorHeader := resp.searchAfter.value];
        }
        moreResults := n < limit && resp.searchAfter.Some?;
      }
      outcome := Success(results);
    }

    /**
     * `ToolServiceVariableBaseQuery.get(limit)`: page numbers from 1, pages of
     * `min(limit, 2000)`, no headers, until `limit` results are in or a page is empty.
     */
    method PagedGet(server: Server, limit: int) returns (outcome: Result<seq<Item>, QueryError>, sent: seq<Request>)
      ensures Run(outcome, sent) == Pagination.PagedGet(kind, Snapshot(), server, limit)
    {
      var pageSize := Min(limit, MaxPageSize);
      var u := BuildUrl();
      if u.Failure? {
        return Failure(u.error), [];
      }
      outcome, sent := NumberedPages(server, u.value, format == "json", limit, pageSize);
    }

    /** The `while len(results) < limit` loop of the page-number `get`, from page 1. */
    method NumberedPages(server: Server, url: string, json: bool, limit: int, pageSize: int)
      returns (outcome: Result<seq<Item>, QueryError>, sent: seq<Request>)
      ensures Run(outcome, sent) == PagedFrom(server, url, json, limit, pageSize, 1, 0)
    {
      var results: seq<Item> := [];
      var page := 1;
      sent := [];
      ghost var whole := PagedFrom(server, url, json, limit, pageSize, 1, 0);
      PaginationProperties.ExtendNothing(whole);
      while |results| < limit
        invariant whole == Extend(results, sent, PagedFrom(server, url, json, limit, pageSize, page, |results|))
        decreases limit - |results|
      {
        var req := Request(url, map[], pageSize, Some(page));
        var resp := server(req);
        if IsHttpError(resp.status) {
          return Failure(HttpError(resp.status)), sent + [req];
        }
        var latest := PageItems(resp, json);
        if |latest| == 0 {
          assert results + [] == results;
          return Success(results), sent + [req];
        }
        PaginationProperties.ExtendPrepend(results, sent, req, latest,
          PagedFrom(server, url, json, limit, pageSize, page + 1, |results| + |latest|));
        results := results + latest;
        sent := sent + [req];
        page := page + 1;
      }
      assert results + [] == results && sent + [] == sent;
      outcome := Success(results);
    }

    /** `get(limit)`: the cursor loop for granules and collections, the page-number loop for the others. */
    method Get(server: Server, limit: int) returns (outcome: Result<seq<Item>, QueryError>, sent: seq<Request>)
      ensures Run(outcome, sent) == Pagination.Get(kind, Snapshot(), server, limit)
    {
      if kind.Granule? || kind.Collection? {
        outcome, sent := CursorGet(server, limit);
      } else {
        outcome, sent := PagedGet(server, limit);
      }
    }

    /** `hits()`: one request for zero results; the count is the `CMR-Hits` header. */
    method Hits(server: Server) returns (outcome: Result<int, QueryError>, sent: seq<Request>)
      ensures Run(outcome, sent) == Pagination.Hits(kind, Snapshot(), server)
    {
      var u := BuildUrl();
      if u.Failure? {
        return Failure(u.error), [];
      }
      var req := Request(u.value, headers, 0, None);
      var resp := server(req);
      sent := [req];
      if IsHttpError(resp.status) {
        outcome := Failure(HttpError(resp.status));
      } else if resp.hits.None? {
        outcome := Failure(KeyError("CMR-Hits"));
      } else {
        outcome := Success(resp.hits.value);
      }
    }

    /** `get_all()`: `get(hits())`. */
    method GetAll(server: Server) returns (outcome: Result<seq<Item>, QueryError>, sent: seq<Request>)
      ensures Run(outcome, sent) == Pagination.GetAll(kind, Snapshot(), server)
    {
      var hits, hitsSent := Hits(server);
      if hits.Failure? {
        return Failure(hits.error), hitsSent;
      }
      var getSent;
      outcome, getSent := Get(server, hits.value);
      sent := hitsSent + getSent;
    }
  }
}
