/**
 * The state a query object carries (`self.params`, `self.options`,
 * `self.headers`, `self._format`, `self._base_url`), the Python values the
 * builder methods accept, and the per-kind configuration that the source
 * spreads over its subclasses.
 */
module QueryState {
  import opened Wrappers
  import opened OrderedDicts
  import opened Strings

  /** The concrete query classes: GranuleQuery, CollectionQuery, ToolQuery, ServiceQuery, VariableQuery. */
  datatype Kind = Granule | Collection | Tool | Service | Variable

  /** A coordinate after `float(...)`, identified by `str` of that float (Python's shortest round-trip form). */
  datatype Coord = Coord(repr: string)

  /**
   * An argument the source formats with `f"{x}"` and may also pass through
   * `float(...)`: `None`, a string (with what `float` makes of it, `None`
   * where `float` raises ValueError), a number (its `str` and its value), a
   * bool, a list (the `str` of each element and of the whole list), or a
   * value of another type such as a dict (its `str` and its truthiness);
   * `float` refuses lists and other types with TypeError.
   */
  datatype FloatLike =
    | NoneValue
    | StrValue(s: string, asFloat: Option<real>)
    | NumValue(repr: string, value: real)
    | BoolValue(b: bool)
    | ListValue(items: seq<string>, text: string)
    | OtherValue(text: string, truthy: bool)

  /** Python truthiness: `None`, `""`, zero, `False` and the empty list are false. */
  predicate Truthy(x: FloatLike)
  {
    match x
    case NoneValue => false
    case StrValue(s, _) => s != ""
    case NumValue(_, v) => v != 0.0
    case BoolValue(b) => b
    case ListValue(items, _) => |items| > 0
    case OtherValue(_, t) => t
  }

  /** `f"{x}"`. */
  function Render(x: FloatLike): string
  {
    match x
    case NoneValue => "None"
    case StrValue(s, _) => s
    case NumValue(repr, _) => repr
    case BoolValue(b) => if b then "True" else "False"
    case ListValue(_, text) => text
    case OtherValue(text, _) => text
  }

  /** What `float(x)` does: give a value, or raise ValueError or TypeError. */
  datatype Conversion = Converted(value: real) | NotAFloat | NotConvertible

  /** `float(x)`: a string converts or raises ValueError, a bool is 1.0 or 0.0; `None`, lists and other types raise TypeError. */
  function FloatOf(x: FloatLike): (c: Conversion)
    ensures c.NotConvertible? <==> x.NoneValue? || x.ListValue? || x.OtherValue?
    ensures c.NotAFloat? <==> x.StrValue? && x.asFloat.None?
    ensures x.NumValue? ==> c == Converted(x.value)
    ensures x.BoolValue? ==> c == Converted(if x.b then 1.0 else 0.0)
  {
    match x
    case NoneValue => NotConvertible
    case StrValue(_, f) => if f.Some? then Converted(f.value) else NotAFloat
    case NumValue(_, v) => Converted(v)
    case BoolValue(b) => Converted(if b then 1.0 else 0.0)
    case ListValue(_, _) => NotConvertible
    case OtherValue(_, _) => NotConvertible
  }

  /** An argument of any Python type, for the builders that inspect the type with `isinstance`. */
  datatype Dyn = PyBool(b: bool) | PyStr(s: string) | PyOther(repr: string)

  /** A string or a sequence of strings; a lone string is wrapped into a one-element list. */
  datatype IdArg = One(id: string) | Many(ids: seq<string>)

  function AsList(a: IdArg): (l: seq<string>)
    ensures a.One? ==> l == [a.id]
    ensures a.Many? ==> l == a.ids
  {
    match a
    case One(id) => [id]
    case Many(ids) => ids
  }

  /** A value stored in `self.params`. */
  datatype Value = Str(s: string) | Flag(b: bool) | List(items: seq<string>) | Raw(x: FloatLike)

  /** A value stored in an option map `self.options[name]`; the builders only ever store booleans. */
  datatype OptionValue = OptBool(b: bool) | OptOther(repr: string)

  /** The exceptions the core raises, with the parameter or message that identifies them. */
  datatype QueryError =
    | ValueError(msg: string)
    | TypeError(msg: string)
    | IndexError
    | AttributeError(name: string)
    | KeyError(key: string)
    | RuntimeError(msg: string)
    | HttpError(status: int)

  /** Everything a query object may change. */
  datatype State = State(
    baseUrl: string,
    format: string,
    params: Dict<Value>,
    options: Dict<Dict<OptionValue>>,
    headers: map<string, string>)

  const CmrOps := "https://cmr.earthdata.nasa.gov/search/"
  const CmrUat := "https://cmr.uat.earthdata.nasa.gov/search/"
  const CmrSit := "https://cmr.sit.earthdata.nasa.gov/search/"

  /** The route each class passes to `Query.__init__`. */
  function Route(k: Kind): string
  {
    match k
    case Granule => "granules"
    case Collection => "collections"
    case Tool => "tools"
    case Service => "services"
    case Variable => "variables"
  }

  /** `self.concept_id_chars`. */
  function ConceptIdChars(k: Kind): set<char>
  {
    match k
    case Granule => {'G', 'C'}
    case Collection => {'C'}
    case Tool => {'T'}
    case Service => {'S'}
    case Variable => {'V'}
  }

  /** The state right after construction: no parameters, options or headers, JSON output. */
  function Initial(k: Kind, mode: string): (s: State)
    ensures s.params == [] && s.options == [] && s.headers == map[]
  {
    State(mode + Route(k), "json", [], [], map[])
  }

  /** The entries of `self._valid_formats_regex`: literal strings and one pattern. */
  datatype FormatPattern = Literal(text: string) | VersionedUmmJson

  /** The list each kind checks `format` against. */
  function FormatPatterns(k: Kind): seq<FormatPattern>
  {
    var base := [Literal("json"), Literal("xml"), Literal("echo10"), Literal("iso"), Literal("iso19115"),
                 Literal("csv"), Literal("atom"), Literal("kml"), Literal("native")];
    if k.Granule? then base
    else base + [Literal("dif"), Literal("dif10"), Literal("opendata"), Literal("umm_json"), VersionedUmmJson]
  }

  predicate IsDigit(c: char)
  {
    '0' <= c <= '9'
  }

  /** `s` starts with a match of `umm_json_v[0-9]_[0-9]`. */
  predicate VersionedAt(s: string)
  {
    |s| >= 13 && s[..10] == "umm_json_v" && IsDigit(s[10]) && s[11] == '_' && IsDigit(s[12])
  }

  /** `re.search(pattern, s)` succeeds. */
  predicate Search(p: FormatPattern, s: string)
    decreases |s|
  {
    match p
    case Literal(t) => Contains(s, t)
    case VersionedUmmJson => VersionedAt(s) || (|s| > 0 && Search(p, s[1..]))
  }

  /** Some pattern of the list matches somewhere in `s`. */
  predicate AnySearch(ps: seq<FormatPattern>, s: string)
  {
    |ps| > 0 && (Search(ps[0], s) || AnySearch(ps[1..], s))
  }
}
