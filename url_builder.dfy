/**
 * `_build_url`: the check of `_valid_state`, then the parameters and the
 * options written out as `&`-separated fragments after the base URL and the
 * format.
 */
module UrlBuilder {
  import opened Wrappers
  import opened OrderedDicts
  import opened Strings
  import opened QueryState
  import opened Validity

  const InvalidStateMessage := "Spatial parameters must be accompanied by a collection filter (ex: short_name or entry_title)."

  /** `str(b).lower()`. */
  function BoolText(b: bool): (s: string)
    ensures s == "true" || s == "false"
    ensures s == "true" <==> b
  {
    if b then "true" else "false"
  }

  /** `key[]=item` for each item, in order. */
  function ListFragments(key: string, items: seq<string>): (fs: seq<string>)
    ensures |fs| == |items|
  {
    seq(|items|, i requires 0 <= i < |items| => key + "[]=" + items[i])
  }

  /**
   * The fragments of one parameter: `key[]=v` per element of a list,
   * `key=true|false` for a bool, `key=v` otherwise. A value stored as given
   * (`Raw`) is tested the same way, so a raw list or bool is written as a
   * list or a bool.
   */
  function ParamFragments(key: string, v: Value): (fs: seq<string>)
    ensures v.List? ==> |fs| == |v.items|
    ensures v.Raw? && v.x.ListValue? ==> |fs| == |v.x.items|
    ensures Scalar(v) ==> |fs| == 1
  {
    match v
    case List(items) => ListFragments(key, items)
    case Flag(b) => [key + "=" + BoolText(b)]
    case Str(s) => [key + "=" + s]
    case Raw(x) =>
      match x
      case ListValue(items, _) => ListFragments(key, items)
      case BoolValue(b) => [key + "=" + BoolText(b)]
      case _ => [key + "=" + Render(x)]
  }

  /** A value written as a single `key=v` fragment: anything but a list. */
  predicate Scalar(v: Value)
  {
    !v.List? && !(v.Raw? && v.x.ListValue?)
  }

  /** The fragments of the parameters, in insertion order; one per parameter when none is a list. */
  function ParamsFragments(params: Dict<Value>): (fs: seq<string>)
    ensures (forall i :: 0 <= i < |params| ==> Scalar(params[i].1)) ==> |fs| == |params|
  {
    if |params| == 0 then []
    else
      var last := params[|params| - 1];
      ParamsFragments(params[..|params| - 1]) + ParamFragments(last.0, last.1)
  }

  function OptionFragment(paramKey: string, optionKey: string, b: bool): string
  {
    "options[" + paramKey + "][" + optionKey + "]=" + BoolText(b)
  }

  function OptionTypeError(paramKey: string, optionKey: string): QueryError
  {
    TypeError("parameter '" + paramKey + "' with option '" + optionKey + "' must be a boolean")
  }

  /** The fragments of one option map, or the TypeError for its first value that is not a bool. */
  function EntryFragments(paramKey: string, inner: Dict<OptionValue>): (r: Result<seq<string>, QueryError>)
    ensures r.Failure? ==> r.error.TypeError?
  {
    if |inner| == 0 then Success([])
    else
      var last := inner[|inner| - 1];
      match EntryFragments(paramKey, inner[..|inner| - 1])
      case Failure(e) => Failure(e)
      case Success(fs) =>
        match last.1
        case OptBool(b) => Success(fs + [OptionFragment(paramKey, last.0, b)])
        case OptOther(_) => Failure(OptionTypeError(paramKey, last.0))
  }

  /** The fragments of every option map in order, or the first TypeError. */
  function OptionsFragments(options: Dict<Dict<OptionValue>>): (r: Result<seq<string>, QueryError>)
    ensures |options| == 0 ==> r == Success([])
    ensures r.Failure? ==> r.error.TypeError?
  {
    if |options| == 0 then Success([])
    else
      var last := options[|options| - 1];
      match OptionsFragments(options[..|options| - 1])
      case Failure(e) => Failure(e)
      case Success(fs) =>
        match EntryFragments(last.0, last.1)
        case Failure(e) => Failure(e)
        case Success(gs) => Success(fs + gs)
  }

  /** What comes before the query string. */
  function UrlPrefix(st: State): string
  {
    st.baseUrl + "." + st.format + "?"
  }

  /** `_build_url` for a query of kind `k` in state `st`. */
  function Url(k: Kind, st: State): (r: Result<string, QueryError>)
    ensures !ValidState(k, st.params) ==> r == Failure(RuntimeError(InvalidStateMessage))
    ensures ValidState(k, st.params) ==> (r.Failure? <==> OptionsFragments(st.options).Failure?)
    ensures r.Failure? ==> r.error.RuntimeError? || r.error.TypeError?
  {
    if !ValidState(k, st.params) then Failure(RuntimeError(InvalidStateMessage))
    else
      match OptionsFragments(st.options)
      case Failure(e) => Failure(e)
      case Success(os) =>
        Success(RStrip(UrlPrefix(st) + Join(ParamsFragments(st.params), '&') + "&" + Join(os, '&'), '&'))
  }
}
