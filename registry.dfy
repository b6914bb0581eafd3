/**
 * `Query.parameters(**kwargs)`: each keyword names a builder method of the
 * query's class and its value is that method's argument (a tuple spreads
 * into several). Only names the class defines are accepted.
 */
module Registry {
  import opened Wrappers
  import opened OrderedDicts
  import opened Temporal
  import opened QueryState
  import Filters

  /** The arguments of one builder call; the constructor says which builder. */
  datatype Call =
    // Query
    | ConceptIdCall(ids: IdArg)
    | ProviderCall(provider: string)
    | ModeCall(mode: Option<string>)
    | TokenCall(token: string)
    | BearerTokenCall(bearerToken: string)
    | FormatCall(outputFormat: string)
    // GranuleCollectionBaseQuery
    | OnlineOnlyCall(onlineOnly: Dyn)
    | TemporalCall(dateFrom: Bound, dateTo: Bound, excludeBoundary: bool)
    | ShortNameCall(shortName: string)
    | VersionCall(version: string)
    | PointCall(lon: Coord, lat: Coord)
    | CircleCall(circleLon: FloatLike, circleLat: FloatLike, dist: FloatLike)
    | PolygonCall(polygon: seq<(Coord, Coord)>)
    | BoundingBoxCall(lowerLeftLon: Coord, lowerLeftLat: Coord, upperRightLon: Coord, upperRightLat: Coord)
    | LineCall(line: seq<(Coord, Coord)>)
    | DownloadableCall(downloadable: Dyn)
    | EntryTitleCall(entryTitle: Dyn)
    // GranuleQuery
    | OrbitNumberCall(orbit1: FloatLike, orbit2: FloatLike)
    | DayNightFlagCall(dayNightFlag: Dyn)
    | CloudCoverCall(minCover: FloatLike, maxCover: FloatLike)
    | InstrumentCall(instrument: string)
    | PlatformCall(platform: string)
    | SortKeyCall(sortKey: Dyn)
    | GranuleUrCall(granuleUr: string)
    | ReadableGranuleNameCall(names: IdArg)
    // CollectionQuery
    | ArchiveCenterCall(center: string)
    | KeywordCall(text: string)
    | NativeIdCall(nativeIds: IdArg)
    | ToolConceptIdCall(toolIds: IdArg)
    | ServiceConceptIdCall(serviceIds: IdArg)
    // ToolServiceVariableBaseQuery
    | NameCall(name: string)

  /**
   * The name of a keyword argument: one of the builder names, one of the
   * methods of `Query` that take no argument, or any other name (`OtherKey`
   * stands only for a name that is no method of the class; see `Canonical`).
   */
  datatype Key =
    | ConceptIdKey
    | ProviderKey
    | ModeKey
    | TokenKey
    | BearerTokenKey
    | FormatKey
    | OnlineOnlyKey
    | TemporalKey
    | ShortNameKey
    | VersionKey
    | PointKey
    | CircleKey
    | PolygonKey
    | BoundingBoxKey
    | LineKey
    | DownloadableKey
    | EntryTitleKey
    | OrbitNumberKey
    | DayNightFlagKey
    | CloudCoverKey
    | InstrumentKey
    | PlatformKey
    | SortKeyKey
    | GranuleUrKey
    | ReadableGranuleNameKey
    | ArchiveCenterKey
    | KeywordKey
    | NativeIdKey
    | ToolConceptIdKey
    | ServiceConceptIdKey
    | NameKey
    | HitsKey
    | GetAllKey
    | ParametersKey
    | BuildUrlKey
    | ValidStateKey
    | OtherKey(name: string)

  /** The builder a call is for. */
  function KeyOf(c: Call): Key
  {
    match c
    case ConceptIdCall(_) => ConceptIdKey
    case ProviderCall(_) => ProviderKey
    case ModeCall(_) => ModeKey
    case TokenCall(_) => TokenKey
    case BearerTokenCall(_) => BearerTokenKey
    case FormatCall(_) => FormatKey
    case OnlineOnlyCall(_) => OnlineOnlyKey
    case TemporalCall(_, _, _) => TemporalKey
    case ShortNameCall(_) => ShortNameKey
    case VersionCall(_) => VersionKey
    case PointCall(_, _) => PointKey
    case CircleCall(_, _, _) => CircleKey
    case PolygonCall(_) => PolygonKey
    case BoundingBoxCall(_, _, _, _) => BoundingBoxKey
    case LineCall(_) => LineKey
    case DownloadableCall(_) => DownloadableKey
    case EntryTitleCall(_) => EntryTitleKey
    case OrbitNumberCall(_, _) => OrbitNumberKey
    case DayNightFlagCall(_) => DayNightFlagKey
    case CloudCoverCall(_, _) => CloudCoverKey
    case InstrumentCall(_) => InstrumentKey
    case PlatformCall(_) => PlatformKey
    case SortKeyCall(_) => SortKeyKey
    case GranuleUrCall(_) => GranuleUrKey
    case ReadableGranuleNameCall(_) => ReadableGranuleNameKey
    case ArchiveCenterCall(_) => ArchiveCenterKey
    case KeywordCall(_) => KeywordKey
    case NativeIdCall(_) => NativeIdKey
    case ToolConceptIdCall(_) => ToolConceptIdKey
    case ServiceConceptIdCall(_) => ServiceConceptIdKey
    case NameCall(_) => NameKey
  }

  /** The Python spelling of a keyword name. */
  function KeyName(key: Key): string
  {
    match key
    case ConceptIdKey => "concept_id"
    case ProviderKey => "provider"
    case ModeKey => "mode"
    case TokenKey => "token"
    case BearerTokenKey => "bearer_token"
    case FormatKey => "format"
    case OnlineOnlyKey => "online_only"
    case TemporalKey => "temporal"
    case ShortNameKey => "short_name"
    case VersionKey => "version"
    case PointKey => "point"
    case CircleKey => "circle"
    case PolygonKey => "polygon"
    case BoundingBoxKey => "bounding_box"
    case LineKey => "line"
    case DownloadableKey => "downloadable"
    case EntryTitleKey => "entry_title"
    case OrbitNumberKey => "orbit_number"
    case DayNightFlagKey => "day_night_flag"
    case CloudCoverKey => "cloud_cover"
    case InstrumentKey => "instrument"
    case PlatformKey => "platform"
    case SortKeyKey => "sort_key"
    case GranuleUrKey => "granule_ur"
    case ReadableGranuleNameKey => "readable_granule_name"
    case ArchiveCenterKey => "archive_center"
    case KeywordKey => "keyword"
    case NativeIdKey => "native_id"
    case ToolConceptIdKey => "tool_concept_id"
    case ServiceConceptIdKey => "service_concept_id"
    case NameKey => "name"
    case HitsKey => "hits"
    case GetAllKey => "get_all"
    case ParametersKey => "parameters"
    case BuildUrlKey => "_build_url"
    case ValidStateKey => "_valid_state"
    case OtherKey(name) => name
  }

  /**
   * The builder names a query of each kind defines, following the class
   * hierarchy: `Query` for every kind, `GranuleCollectionBaseQuery` for
   * granules and collections, then each class's own.
   */
  predicate Offers(k: Kind, key: Key)
    ensures Offers(k, key) ==> !key.OtherKey?
    ensures Argumentless(key) ==> Offers(k, key)
  {
    match key
    case ConceptIdKey | ProviderKey | ModeKey | TokenKey | BearerTokenKey | FormatKey => true
    case OnlineOnlyKey | TemporalKey | ShortNameKey | VersionKey | PointKey | CircleKey | PolygonKey
       | BoundingBoxKey | LineKey | DownloadableKey | EntryTitleKey => k.Granule? || k.Collection?
    case OrbitNumberKey | DayNightFlagKey | CloudCoverKey | InstrumentKey | PlatformKey | SortKeyKey
       | GranuleUrKey | ReadableGranuleNameKey => k.Granule?
    case ArchiveCenterKey | KeywordKey | ToolConceptIdKey | ServiceConceptIdKey => k.Collection?
    case NativeIdKey => !k.Granule?
    case NameKey => !k.Granule? && !k.Collection?
    case HitsKey | GetAllKey | ParametersKey | BuildUrlKey | ValidStateKey => true
    case OtherKey(_) => false
  }

  /** The methods of `Query` that take no argument besides `self`. */
  predicate Argumentless(key: Key)
  {
    key.HitsKey? || key.GetAllKey? || key.ParametersKey? || key.BuildUrlKey? || key.ValidStateKey?
  }

  /**
   * A name that is no method of any query class: neither a key above nor
   * `get` or `__init__`, which `parameters` would also find and call.
   */
  ghost predicate NoMethodName(name: string)
  {
    && name != "get" && name != "__init__"
    && forall key: Key :: !key.OtherKey? ==> KeyName(key) != name
  }

  /** A key as `parameters` sees it: `OtherKey` only for a name that is no method. */
  ghost predicate Canonical(key: Key)
  {
    key.OtherKey? ==> NoMethodName(key.name)
  }

  /** A call whose bounds, if it has any, are real dates and instants. */
  predicate WellFormed(c: Call)
  {
    c.TemporalCall? ==> ValidBound(c.dateFrom) && ValidBound(c.dateTo)
  }

  /** A call for one of the builders of `Query`. */
  predicate QueryCall(c: Call)
  {
    c.ConceptIdCall? || c.ProviderCall? || c.ModeCall? || c.TokenCall? || c.BearerTokenCall? || c.FormatCall?
  }

  /** A call for one of the builders of `GranuleCollectionBaseQuery`. */
  predicate SpatialCall(c: Call)
  {
    c.OnlineOnlyCall? || c.TemporalCall? || c.ShortNameCall? || c.VersionCall? || c.PointCall? || c.CircleCall? || c.PolygonCall? || c.BoundingBoxCall? || c.LineCall? || c.DownloadableCall? || c.EntryTitleCall?
  }

  /** A call for one of the builders of `GranuleQuery`. */
  predicate GranuleCall(c: Call)
  {
    c.OrbitNumberCall? || c.DayNightFlagCall? || c.CloudCoverCall? || c.InstrumentCall? || c.PlatformCall? || c.SortKeyCall? || c.GranuleUrCall? || c.ReadableGranuleNameCall?
  }

  /** A call for one of the builders only `CollectionQuery` has. */
  predicate CollectionCall(c: Call)
  {
    c.ArchiveCenterCall? || c.KeywordCall? || c.ToolConceptIdCall? || c.ServiceConceptIdCall?
  }

  /** Calling the builder `c` is for, through the class that defines it. */
  function Apply(k: Kind, st: State, c: Call): Result<State, QueryError>
    requires WellFormed(c)
  {
    if QueryCall(c) then ApplyQuery(k, st, c)
    else if SpatialCall(c) then ApplySpatial(st, c)
    else if GranuleCall(c) then ApplyGranule(st, c)
    else if CollectionCall(c) then ApplyCollection(st, c)
    else if c.NativeIdCall? then Filters.NativeId(st, c.nativeIds)
    else Filters.Name(st, c.name)
  }

  /** Calling one of the builders of `Query`. */
  function ApplyQuery(k: Kind, st: State, c: Call): Result<State, QueryError>
    requires QueryCall(c)
  {
    match c
    case ConceptIdCall(ids) => Filters.ConceptId(k, st, ids)
    case ProviderCall(p) => Filters.Provider(st, p)
    case ModeCall(m) => Filters.Mode(k, st, m)
    case TokenCall(t) => Filters.Token(st, t)
    case BearerTokenCall(t) => Filters.BearerToken(st, t)
    case FormatCall(f) => Filters.Format(k, st, f)
  }

  /** Calling one of the builders of `GranuleCollectionBaseQuery`. */
  function ApplySpatial(st: State, c: Call): Result<State, QueryError>
    requires SpatialCall(c) && WellFormed(c)
  {
    match c
    case OnlineOnlyCall(b) => Filters.OnlineOnly(st, b)
    case TemporalCall(f, t, e) => Filters.TemporalFilter(st, f, t, e)
    case ShortNameCall(s) => Filters.ShortName(st, s)
    case VersionCall(s) => Filters.Version(st, s)
    case PointCall(lon, lat) => Filters.Point(st, lon, lat)
    case CircleCall(lon, lat, d) => Filters.Circle(st, lon, lat, d)
    case PolygonCall(cs) => Filters.Polygon(st, cs)
    case BoundingBoxCall(a, b, c1, d) => Filters.BoundingBox(st, a, b, c1, d)
    case LineCall(cs) => Filters.Line(st, cs)
    case DownloadableCall(b) => Filters.Downloadable(st, b)
    case EntryTitleCall(s) => Filters.EntryTitle(st, s)
  }

  /** Calling one of the builders of `GranuleQuery`. */
  function ApplyGranule(st: State, c: Call): Result<State, QueryError>
    requires GranuleCall(c)
  {
    match c
    case OrbitNumberCall(o1, o2) => Filters.OrbitNumber(st, o1, o2)
    case DayNightFlagCall(f) => Filters.DayNightFlag(st, f)
    case CloudCoverCall(lo, hi) => Filters.CloudCover(st, lo, hi)
    case InstrumentCall(s) => Filters.Instrument(st, s)
    case PlatformCall(s) => Filters.Platform(st, s)
    case SortKeyCall(key) => Filters.SortKey(st, key)
    case GranuleUrCall(s) => Filters.GranuleUr(st, s)
    case ReadableGranuleNameCall(ns) => Filters.ReadableGranuleName(st, ns)
  }

  /** Calling one of the builders only `CollectionQuery` has. */
  function ApplyCollection(st: State, c: Call): Result<State, QueryError>
    requires CollectionCall(c)
  {
    match c
    case ArchiveCenterCall(s) => Filters.ArchiveCenter(st, s)
    case KeywordCall(s) => Filters.Keyword(st, s)
    case ToolConceptIdCall(ids) => Filters.ToolConceptId(st, ids)
    case ServiceConceptIdCall(ids) => Filters.ServiceConceptId(st, ids)
  }

  /**
   * One keyword argument: a name the class does not define is a ValueError;
   * a value that does not fit the named method's parameters is a TypeError,
   * which is always the case for a method that takes no argument.
   */
  function ApplyKeyword(k: Kind, st: State, key: Key, c: Call): (r: Result<State, QueryError>)
    requires WellFormed(c) && Canonical(key)
    ensures !Offers(k, key) ==> r.Failure? && r.error.ValueError?
    ensures Argumentless(key) ==> r.Failure?
    ensures r.Success? ==> Offers(k, key) && KeyOf(c) == key && r == Apply(k, st, c)
  {
    if !Offers(k, key) then Failure(ValueError("Unknown key " + KeyName(key)))
    else if Argumentless(key) || KeyOf(c) != key then Failure(TypeError(KeyName(key) + "() got arguments it does not take"))
    else Apply(k, st, c)
  }

  /** The state after a run of calls, and the exception that stopped it, if any. */
  datatype Applied = Applied(state: State, error: Option<QueryError>)

  ghost predicate AllWellFormed(kwargs: seq<(Key, Call)>)
  {
    forall i :: 0 <= i < |kwargs| ==> WellFormed(kwargs[i].1) && Canonical(kwargs[i].0)
  }

  /** The keywords in order; the first exception stops the run, and what earlier keywords did stays done. */
  function ApplyAll(k: Kind, st: State, kwargs: seq<(Key, Call)>): (r: Applied)
    requires AllWellFormed(kwargs)
    ensures |kwargs| == 0 ==> r == Applied(st, None)
    ensures |kwargs| > 0 && ApplyKeyword(k, st, kwargs[0].0, kwargs[0].1).Failure? ==> r == Applied(st, Some(ApplyKeyword(k, st, kwargs[0].0, kwargs[0].1).error))
    ensures r.error.Some? ==> |kwargs| > 0
    decreases |kwargs|
  {
    if |kwargs| == 0 then Applied(st, None)
    else
      match ApplyKeyword(k, st, kwargs[0].0, kwargs[0].1)
      case Failure(e) => Applied(st, Some(e))
      case Success(st') => ApplyAll(k, st', kwargs[1..])
  }

  // ------------------------------------------------------------- invariant

  /** Every option value is a boolean, as CMR requires. */
  predicate BoolOptions(options: Dict<Dict<OptionValue>>)
  {
    forall e :: e in options ==> forall p :: p in e.1 ==> p.1.OptBool?
  }

  /**
   * What every state reachable from construction satisfies: the dictionaries
   * have distinct keys, the two exclusive flags are never both set, the
   * temporal ranges are a list, every option is a boolean, and the format is
   * one the kind accepts.
   */
  predicate Inv(k: Kind, st: State)
  {
    && Valid(st.params) && Valid(st.options)
    && !("online_only" in Keys(st.params) && "downloadable" in Keys(st.params))
    && Filters.TemporalRanges(st.params).Some?
    && BoolOptions(st.options)
    && AnySearch(FormatPatterns(k), st.format)
  }
}
