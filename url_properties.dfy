/** What `_build_url` produces and when it raises. */
module UrlProperties {
  import opened Wrappers
  import opened OrderedDicts
  import opened Strings
  import opened QueryState
  import opened Validity
  import opened UrlBuilder
  import Registry
  import Filters

  // ------------------------------------------------------------ the errors

  /** One option map raises exactly when one of its values is not a bool, and then with TypeError. */
  lemma {:induction false} EntryFragmentsOutcome(paramKey: string, inner: Dict<OptionValue>)
    ensures EntryFragments(paramKey, inner).Failure? <==> exists j :: 0 <= j < |inner| && inner[j].1.OptOther?
    ensures EntryFragments(paramKey, inner).Failure? ==> EntryFragments(paramKey, inner).error.TypeError?
    ensures EntryFragments(paramKey, inner).Success? ==>
      EntryFragments(paramKey, inner).value
        == seq(|inner|, j requires 0 <= j < |inner| && inner[j].1.OptBool? => OptionFragment(paramKey, inner[j].0, inner[j].1.b))
  {
    if |inner| > 0 {
      var init := inner[..|inner| - 1];
      EntryFragmentsOutcome(paramKey, init);
      assert forall j :: 0 <= j < |init| ==> init[j] == inner[j];
    }
  }

  /** All option maps raise exactly when some value in one of them is not a bool, and then with TypeError. */
  lemma {:induction false} OptionsFragmentsOutcome(options: Dict<Dict<OptionValue>>)
    ensures OptionsFragments(options).Failure? <==> !Registry.BoolOptions(options)
    ensures OptionsFragments(options).Failure? ==> OptionsFragments(options).error.TypeError?
  {
    if |options| > 0 {
      var init := options[..|options| - 1];
      var last := options[|options| - 1];
      OptionsFragmentsOutcome(init);
      EntryFragmentsOutcome(last.0, last.1);
      assert options == init + [last];
      if Registry.BoolOptions(options) {
        assert Registry.BoolOptions(init) by {
          forall e | e in init ensures forall p :: p in e.1 ==> p.1.OptBool? { assert e in options; }
        }
        forall j | 0 <= j < |last.1| ensures last.1[j].1.OptBool? { assert last.1[j] in last.1; }
      } else {
        var e, p :| e in options && p in e.1 && !p.1.OptBool?;
        if e == last {
          var j :| 0 <= j < |last.1| && last.1[j] == p;
        } else {
          assert e in init;
        }
      }
    }
  }

  /** Once a prefix of an option map raises, the whole map raises the same way. */
  lemma {:induction false} EntryFailurePersists(paramKey: string, inner: Dict<OptionValue>, m: nat)
    requires m <= |inner| && EntryFragments(paramKey, inner[..m]).Failure?
    ensures EntryFragments(paramKey, inner) == EntryFragments(paramKey, inner[..m])
  {
    if m < |inner| {
      var init := inner[..|inner| - 1];
      assert init[..m] == inner[..m];
      EntryFailurePersists(paramKey, init, m);
    } else {
      assert inner[..m] == inner;
    }
  }

  /** Once a prefix of the options raises, all of them raise the same way. */
  lemma {:induction false} OptionsFailurePersists(options: Dict<Dict<OptionValue>>, m: nat)
    requires m <= |options| && OptionsFragments(options[..m]).Failure?
    ensures OptionsFragments(options) == OptionsFragments(options[..m])
  {
    if m < |options| {
      var init := options[..|options| - 1];
      assert init[..m] == options[..m];
      OptionsFailurePersists(init, m);
    } else {
      assert options[..m] == options;
    }
  }

  /** `_build_url` raises RuntimeError exactly when `_valid_state` fails: that check comes before any encoding. */
  lemma InvalidStateRaises(k: Kind, st: State)
    ensures (Url(k, st).Failure? && Url(k, st).error.RuntimeError?) <==> !ValidState(k, st.params)
    ensures !ValidState(k, st.params) ==> Url(k, st) == Failure(RuntimeError(InvalidStateMessage))
  {
    OptionsFragmentsOutcome(st.options);
  }

  /** It raises TypeError exactly when the state is valid and some option value is not a bool. */
  lemma NonBoolOptionRaises(k: Kind, st: State)
    ensures (Url(k, st).Failure? && Url(k, st).error.TypeError?) <==>
            ValidState(k, st.params) && !Registry.BoolOptions(st.options)
  {
    OptionsFragmentsOutcome(st.options);
  }

  /** From any reachable state it can only raise for an invalid state. */
  lemma ReachableStatesOnlyFailValidity(k: Kind, st: State)
    requires Registry.Inv(k, st)
    ensures Url(k, st).Success? <==> ValidState(k, st.params)
  {
    OptionsFragmentsOutcome(st.options);
  }

  // ------------------------------------------------------------- the shape

  /** No fragment is empty and none contains the separator. */
  predicate Clean(fs: seq<string>)
  {
    forall i :: 0 <= i < |fs| ==> |fs[i]| > 0 && '&' !in fs[i]
  }

  /** Joining two non-empty lists is joining each and putting one separator between. */
  lemma {:induction false} JoinConcat(a: seq<string>, b: seq<string>, sep: char)
    requires |a| > 0 && |b| > 0
    ensures Join(a + b, sep) == Join(a, sep) + [sep] + Join(b, sep)
  {
    if |a| == 1 {
      assert (a + b)[0] == a[0] && (a + b)[1..] == b;
    } else {
      assert (a + b)[0] == a[0] && (a + b)[1..] == a[1..] + b;
      JoinConcat(a[1..], b, sep);
    }
  }

  /** A join of clean fragments ends with the last character of the last fragment. */
  lemma {:induction false} JoinEnd(fs: seq<string>, sep: char)
    requires |fs| > 0 && |fs[|fs| - 1]| > 0
    ensures |Join(fs, sep)| > 0 && Join(fs, sep)[|Join(fs, sep)| - 1] == fs[|fs| - 1][|fs[|fs| - 1]| - 1]
  {
    if |fs| > 1 {
      assert fs[1..][|fs[1..]| - 1] == fs[|fs| - 1];
      JoinEnd(fs[1..], sep);
    }
  }

  /** Stripping a string that does not end with `c` leaves it alone. */
  lemma RStripKeeps(s: string, c: char)
    requires |s| > 0 && s[|s| - 1] != c
    ensures RStrip(s, c) == s
  {
  }

  lemma {:induction false} ParamsFragmentsClean(params: Dict<Value>)
    requires forall i :: 0 <= i < |params| ==> Clean(ParamFragments(params[i].0, params[i].1))
    ensures Clean(ParamsFragments(params))
  {
    if |params| > 0 {
      var init := params[..|params| - 1];
      assert forall i :: 0 <= i < |init| ==> init[i] == params[i];
      ParamsFragmentsClean(init);
    }
  }

  /** One trailing `c` more makes no difference to the stripped string. */
  lemma RStripOneMore(t: string, c: char)
    ensures RStrip(t + [c], c) == RStrip(t, c)
  {
    assert (t + [c])[..|t + [c]| - 1] == t;
  }

  /** Without options, the trailing separator is stripped and nothing else. */
  lemma StripWithoutOptions(pre: string, p: seq<string>)
    requires |pre| > 0 && pre[|pre| - 1] == '?'
    requires Clean(p)
    ensures RStrip(pre + Join(p, '&') + "&" + Join([], '&'), '&') == pre + Join(p, '&')
  {
    var t := pre + Join(p, '&');
    assert pre + Join(p, '&') + "&" + Join([], '&') == t + ['&'];
    RStripOneMore(t, '&');
    if |p| > 0 {
      JoinEnd(p, '&');
      assert t[|t| - 1] == Join(p, '&')[|Join(p, '&')| - 1];
      assert p[|p| - 1][|p[|p| - 1]| - 1] in p[|p| - 1];
    }
    RStripKeeps(t, '&');
  }

  /** With parameters and options, nothing is stripped and the two joins are one. */
  lemma StripWithOptions(pre: string, p: seq<string>, o: seq<string>)
    requires |p| > 0 && |o| > 0 && Clean(o)
    ensures RStrip(pre + Join(p, '&') + "&" + Join(o, '&'), '&') == pre + Join(p + o, '&')
  {
    JoinConcat(p, o, '&');
    var s := pre + Join(p, '&') + "&" + Join(o, '&');
    assert s == pre + Join(p + o, '&');
    JoinEnd(o, '&');
    assert s[|s| - 1] == Join(o, '&')[|Join(o, '&')| - 1];
    assert o[|o| - 1][|o[|o| - 1]| - 1] in o[|o| - 1];
    RStripKeeps(s, '&');
  }

  /**
   * When no key or value holds `&`, the URL is the prefix followed by every
   * parameter fragment and then every option fragment, joined by `&`
   * (as long as an option map does not come without any parameter).
   */
  lemma UrlJoinsFragments(k: Kind, st: State)
    requires Url(k, st).Success?
    requires OptionsFragments(st.options).Success?
    requires Clean(ParamsFragments(st.params)) && Clean(OptionsFragments(st.options).value)
    requires |ParamsFragments(st.params)| > 0 || |OptionsFragments(st.options).value| == 0
    ensures Url(k, st).value == UrlPrefix(st) + Join(ParamsFragments(st.params) + OptionsFragments(st.options).value, '&')
  {
    var p, o := ParamsFragments(st.params), OptionsFragments(st.options).value;
    var pre := UrlPrefix(st);
    assert Url(k, st).value == RStrip(pre + Join(p, '&') + "&" + Join(o, '&'), '&');
    if |o| == 0 {
      assert o == [] && p + o == p;
      StripWithoutOptions(pre, p);
    } else {
      StripWithOptions(pre, p, o);
    }
  }

  /** Under the same conditions the fragments come back out of the URL by splitting at `&`. */
  lemma UrlFragmentsRoundTrip(k: Kind, st: State)
    requires Url(k, st).Success?
    requires OptionsFragments(st.options).Success?
    requires Clean(ParamsFragments(st.params)) && Clean(OptionsFragments(st.options).value)
    requires |ParamsFragments(st.params)| > 0
    ensures UrlPrefix(st) <= Url(k, st).value
    ensures Split(Url(k, st).value[|UrlPrefix(st)|..], '&') == ParamsFragments(st.params) + OptionsFragments(st.options).value
  {
    UrlJoinsFragments(k, st);
    var fs := ParamsFragments(st.params) + OptionsFragments(st.options).value;
    var pre := UrlPrefix(st);
    assert (pre + Join(fs, '&'))[|pre|..] == Join(fs, '&');
    forall i | 0 <= i < |fs| ensures '&' !in fs[i] {
      if i >= |ParamsFragments(st.params)| {
        assert fs[i] == OptionsFragments(st.options).value[i - |ParamsFragments(st.params)|];
      }
    }
    SplitJoin(fs, '&');
  }

  /** A bool is written in lower case. */
  lemma FlagFragment(key: string, b: bool)
    ensures ParamFragments(key, Flag(b)) == [key + "=" + (if b then "true" else "false")]
    ensures OptionFragment(key, "pattern", b) == "options[" + key + "][pattern]=" + (if b then "true" else "false")
  {
  }

  /** A string is written as it is. */
  lemma StrFragment(key: string, v: string)
    ensures ParamFragments(key, Str(v)) == [key + "=" + v]
  {
  }

  /** Two parameters give the fragments of the first and then those of the second. */
  lemma TwoParamsFragments(a: (string, Value), b: (string, Value))
    ensures ParamsFragments([a, b]) == ParamFragments(a.0, a.1) + ParamFragments(b.0, b.1)
  {
    assert [a, b][..1] == [a] && [a][..0] == [];
    assert ParamsFragments([a]) == ParamsFragments([]) + ParamFragments(a.0, a.1);
    assert ParamsFragments([a, b]) == ParamsFragments([a]) + ParamFragments(b.0, b.1);
  }

  /** A bool is written `true` or `false`, whether a builder stored it as a flag or as the argument it was given. */
  lemma BoolsAreLowercase(key: string, v: Value)
    requires v.Flag? || (v.Raw? && v.x.BoolValue?)
    ensures var b := if v.Flag? then v.b else v.x.b;
      ParamFragments(key, v) == [key + "=" + (if b then "true" else "false")]
  {
  }

  /** A list stored as the argument it was given is written one `key[]=item` per item, in order. */
  lemma RawListFragments(key: string, items: seq<string>, text: string)
    ensures |ParamFragments(key, Raw(ListValue(items, text)))| == |items|
    ensures forall i :: 0 <= i < |items| ==> ParamFragments(key, Raw(ListValue(items, text)))[i] == key + "[]=" + items[i]
  {
    assert ParamFragments(key, Raw(ListValue(items, text))) == ListFragments(key, items);
  }

  /** With a falsy second orbit, `orbit_number` stores the first as given, and a bool or list is then written as one. */
  lemma OrbitNumberAsGiven(st: State, orbit1: FloatLike, orbit2: FloatLike)
    requires !Truthy(orbit2)
    ensures Filters.OrbitNumber(st, orbit1, orbit2) == Success(Filters.SetParam(st, "orbit_number", Raw(orbit1)))
    ensures orbit1.BoolValue? ==> ParamFragments("orbit_number", Raw(orbit1)) == ["orbit_number" + "=" + BoolText(orbit1.b)]
    ensures orbit1.ListValue? ==> ParamFragments("orbit_number", Raw(orbit1)) == ListFragments("orbit_number", orbit1.items)
  {
  }

  /** `orbit_number(True)` puts `orbit_number=true` in the URL. */
  lemma OrbitNumberOfBool()
    ensures ParamFragments("orbit_number", Raw(BoolValue(true))) == ["orbit_number=true"]
  {
    assert "orbit_number" + "=" + "true" == "orbit_number=true";
  }

  /** `orbit_number([985, 986])` puts one `orbit_number[]=` per orbit in the URL. */
  lemma OrbitNumberOfList()
    ensures ParamFragments("orbit_number", Raw(ListValue(["985", "986"], "[985, 986]"))) == ["orbit_number[]=985", "orbit_number[]=986"]
  {
    var fs := ParamFragments("orbit_number", Raw(ListValue(["985", "986"], "[985, 986]")));
    RawListFragments("orbit_number", ["985", "986"], "[985, 986]");
    assert "orbit_number" + "[]=" + "985" == "orbit_number[]=985";
    assert "orbit_number" + "[]=" + "986" == "orbit_number[]=986";
  }

  /** The keyword arguments of `parameters(short_name="AST_LIT", online_only=True, downloadable=False)`. */
  function LowercaseBoolKwargs(): seq<(Registry.Key, Registry.Call)>
  {
    [ (Registry.ShortNameKey, Registry.ShortNameCall("AST_LIT")),
      (Registry.OnlineOnlyKey, Registry.OnlineOnlyCall(PyBool(true))),
      (Registry.DownloadableKey, Registry.DownloadableCall(PyBool(false))) ]
  }

  /** The parameters those keyword arguments leave: `downloadable` removed `online_only`. */
  function LowercaseBoolParams(): Dict<Value>
  {
    [("short_name", Str("AST_LIT")), ("downloadable", Flag(false))]
  }

  /** A fresh granule query given those keyword arguments holds exactly those parameters, and nothing raises. */
  lemma LowercaseBoolParameters(mode: string)
    ensures Registry.AllWellFormed(LowercaseBoolKwargs())
    ensures Registry.ApplyAll(Granule, Initial(Granule, mode), LowercaseBoolKwargs())
            == Registry.Applied(Initial(Granule, mode).(params := LowercaseBoolParams()), None)
  {
    var kw := LowercaseBoolKwargs();
    var st0 := Initial(Granule, mode);
    var st1 := st0.(params := [("short_name", Str("AST_LIT"))]);
    var st2 := st0.(params := [("short_name", Str("AST_LIT")), ("online_only", Flag(true))]);
    var st3 := st0.(params := LowercaseBoolParams());
    LowercaseBoolKwargsWellFormed();
    ShortNameStep(st0);
    OnlineOnlyStep(st1);
    DownloadableStep(st2);
    ApplyAllStep(Granule, st2, kw[2..]);
    ApplyAllStep(Granule, st1, kw[1..]);
    assert kw[1..][1..] == kw[2..];
    ApplyAllStep(Granule, st0, kw);
  }

  lemma LowercaseBoolKwargsWellFormed()
    ensures Registry.AllWellFormed(LowercaseBoolKwargs())
    ensures Registry.AllWellFormed(LowercaseBoolKwargs()[1..])
    ensures Registry.AllWellFormed(LowercaseBoolKwargs()[2..])
    ensures LowercaseBoolKwargs()[2..][1..] == []
  {
  }

  /** A first keyword that succeeds hands its state to the rest. */
  lemma ApplyAllStep(k: Kind, st: State, kw: seq<(Registry.Key, Registry.Call)>)
    requires |kw| > 0 && Registry.AllWellFormed(kw)
    requires Registry.ApplyKeyword(k, st, kw[0].0, kw[0].1).Success?
    ensures Registry.AllWellFormed(kw[1..])
    ensures Registry.ApplyAll(k, st, kw) == Registry.ApplyAll(k, Registry.ApplyKeyword(k, st, kw[0].0, kw[0].1).value, kw[1..])
  {
    assert forall i :: 0 <= i < |kw[1..]| ==> kw[1..][i] == kw[i + 1];
  }

  lemma ShortNameStep(st: State)
    requires st.params == []
    ensures Registry.ApplyKeyword(Granule, st, Registry.ShortNameKey, Registry.ShortNameCall("AST_LIT"))
            == Success(st.(params := [("short_name", Str("AST_LIT"))]))
  {
  }

  lemma OnlineOnlyStep(st: State)
    requires st.params == [("short_name", Str("AST_LIT"))]
    ensures Registry.ApplyKeyword(Granule, st, Registry.OnlineOnlyKey, Registry.OnlineOnlyCall(PyBool(true)))
            == Success(st.(params := [("short_name", Str("AST_LIT")), ("online_only", Flag(true))]))
  {
    OnlineOnlyDispatch(st, PyBool(true));
    AddFlag(st.params, "short_name", Str("AST_LIT"), "online_only", "downloadable", true);
  }

  lemma DownloadableStep(st: State)
    requires st.params == [("short_name", Str("AST_LIT")), ("online_only", Flag(true))]
    ensures Registry.ApplyKeyword(Granule, st, Registry.DownloadableKey, Registry.DownloadableCall(PyBool(false)))
            == Success(st.(params := LowercaseBoolParams()))
  {
    DownloadableDispatch(st, PyBool(false));
    SwapFlag(st.params, "short_name", Str("AST_LIT"), "online_only", "downloadable", true, false);
  }

  /** On a granule query, the `online_only` keyword runs its builder. */
  lemma OnlineOnlyDispatch(st: State, b: Dyn)
    ensures Registry.ApplyKeyword(Granule, st, Registry.OnlineOnlyKey, Registry.OnlineOnlyCall(b)) == Filters.OnlineOnly(st, b)
  {
    var c := Registry.OnlineOnlyCall(b);
    assert Registry.Offers(Granule, Registry.KeyOf(c)) && !Registry.Argumentless(Registry.KeyOf(c));
    assert Registry.Apply(Granule, st, c) == Registry.ApplySpatial(st, c);
  }

  /** On a granule query, the `downloadable` keyword runs its builder. */
  lemma DownloadableDispatch(st: State, b: Dyn)
    ensures Registry.ApplyKeyword(Granule, st, Registry.DownloadableKey, Registry.DownloadableCall(b)) == Filters.Downloadable(st, b)
  {
    var c := Registry.DownloadableCall(b);
    assert Registry.Offers(Granule, Registry.KeyOf(c)) && !Registry.Argumentless(Registry.KeyOf(c));
    assert Registry.Apply(Granule, st, c) == Registry.ApplySpatial(st, c);
  }

  /** Setting a flag absent from a one-entry dictionary that lacks the opposite flag appends it. */
  lemma AddFlag(d: Dict<Value>, k: string, v: Value, flag: string, other: string, b: bool)
    requires d == [(k, v)] && k != flag && k != other
    ensures Put(Remove(d, other), flag, Flag(b)) == [(k, v), (flag, Flag(b))]
  {
    assert d[1..] == [];
  }

  /** Setting one flag where its opposite follows one entry replaces the opposite by it at the end. */
  lemma SwapFlag(d: Dict<Value>, k: string, v: Value, flag: string, other: string, was: bool, b: bool)
    requires d == [(k, v), (flag, Flag(was))] && k != flag && k != other && flag != other
    ensures Put(Remove(d, flag), other, Flag(b)) == [(k, v), (other, Flag(b))]
  {
    assert d[1..] == [(flag, Flag(was))] && d[1..][1..] == [];
    assert Remove(d, flag) == [(k, v)];
    assert [(k, v)][1..] == [];
  }

  lemma LowercaseBoolFragments()
    ensures ParamsFragments(LowercaseBoolParams()) == ["short_name=AST_LIT", "downloadable=false"]
  {
    var params := LowercaseBoolParams();
    TwoParamsFragments(params[0], params[1]);
    FlagFragment("downloadable", false);
    StrFragment("short_name", "AST_LIT");
    assert "short_name" + "=" + "AST_LIT" == "short_name=AST_LIT";
    assert "downloadable" + "=" + "false" == "downloadable=false";
  }

  lemma LowercaseBoolJoin()
    ensures Clean(["short_name=AST_LIT", "downloadable=false"])
    ensures Join(["short_name=AST_LIT", "downloadable=false"], '&') == "short_name=AST_LIT&downloadable=false"
  {
    var p := ["short_name=AST_LIT", "downloadable=false"];
    assert p[1..] == ["downloadable=false"];
    assert Join(p, '&') == "short_name=AST_LIT" + "&" + "downloadable=false";
  }

  /** For the dictionary `LowercaseBoolParameters` derives, the URL carries `false` in lower case. */
  lemma LowercaseBoolUrl(baseUrl: string, headers: map<string, string>)
    ensures Url(Granule, State(baseUrl, "json", LowercaseBoolParams(), [], headers))
            == Success(baseUrl + ".json?" + "short_name=AST_LIT&downloadable=false")
  {
    var params := LowercaseBoolParams();
    var st := State(baseUrl, "json", params, [], headers);
    assert Keys(params) == ["short_name", "downloadable"];
    CollectionFilterMakesValid(Granule, params);
    LowercaseBoolFragments();
    LowercaseBoolJoin();
    assert OptionsFragments(st.options) == Success([]);
    UrlJoinsFragments(Granule, st);
    assert ParamsFragments(params) + [] == ParamsFragments(params);
    assert Url(Granule, st).value == UrlPrefix(st) + "short_name=AST_LIT&downloadable=false";
    assert UrlPrefix(st) == baseUrl + ".json?";
  }

  /** End to end: `parameters(short_name="AST_LIT", online_only=True, downloadable=False)` on a fresh granule query, then `_build_url`. */
  lemma LowercaseBoolQueryUrl(mode: string)
    ensures Registry.AllWellFormed(LowercaseBoolKwargs())
    ensures Url(Granule, Registry.ApplyAll(Granule, Initial(Granule, mode), LowercaseBoolKwargs()).state)
            == Success(mode + Route(Granule) + ".json?" + "short_name=AST_LIT&downloadable=false")
  {
    LowercaseBoolParameters(mode);
    LowercaseBoolUrl(mode + Route(Granule), map[]);
  }
}
