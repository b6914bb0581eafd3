/** The invariant every builder keeps, and how `parameters` composes builder calls. */
module RegistryProperties {
  import opened Wrappers
  import opened OrderedDicts
  import opened Strings
  import opened Temporal
  import opened QueryState
  import opened Registry
  import Filters
  import PercentEncoding

  /** A freshly constructed query satisfies the invariant. */
  lemma InitialInv(k: Kind, mode: string)
    ensures Inv(k, Initial(k, mode))
  {
    assert FormatPatterns(k)[0] == Literal("json");
    assert Contains("json", "json");
  }

  /** Setting a parameter other than the two flags (and only a list under `temporal`) keeps the invariant. */
  lemma SetParamInv(k: Kind, st: State, key: string, v: Value)
    requires Inv(k, st)
    requires key != "online_only" && key != "downloadable"
    requires key == "temporal" ==> v.List?
    ensures Inv(k, Filters.SetParam(st, key, v))
  {
    var p := Put(st.params, key, v);
    assert "online_only" in Keys(p) <==> "online_only" in Keys(st.params);
    assert "downloadable" in Keys(p) <==> "downloadable" in Keys(st.params);
    if key != "temporal" {
      assert Get(p, "temporal") == Get(st.params, "temporal");
    }
  }

  lemma ExclusiveFlagInv(k: Kind, st: State, key: string, other: string, flag: Dyn, msg: string)
    requires Inv(k, st)
    requires (key == "online_only" && other == "downloadable") || (key == "downloadable" && other == "online_only")
    requires flag.PyBool?
    ensures Inv(k, Filters.ExclusiveFlag(st, key, other, flag, msg).value)
  {
    var q := Remove(st.params, other);
    var p := Put(q, key, Flag(flag.b));
    assert other !in Keys(p);
    assert Get(p, "temporal") == Get(st.params, "temporal");
  }

  lemma IdFilterInv(k: Kind, st: State, key: string, ids: IdArg, allowed: set<char>, msg: string)
    requires Inv(k, st)
    requires key != "online_only" && key != "downloadable" && key != "temporal"
    requires Filters.IdFilter(st, key, ids, allowed, msg).Success?
    ensures Inv(k, Filters.IdFilter(st, key, ids, allowed, msg).value)
  {
    SetParamInv(k, st, key, List(AsList(ids)));
  }

  lemma GuardedSetInv(k: Kind, st: State, key: string, s: string)
    requires Inv(k, st)
    requires key != "online_only" && key != "downloadable" && key != "temporal"
    ensures Inv(k, Filters.SetIfGiven(st, key, s).value)
  {
    if s != "" { SetParamInv(k, st, key, Str(s)); }
  }

  lemma RequiredSetInv(k: Kind, st: State, key: string, s: string, msg: string)
    requires Inv(k, st)
    requires key != "online_only" && key != "downloadable" && key != "temporal"
    requires Filters.SetOrRaise(st, key, s, msg).Success?
    ensures Inv(k, Filters.SetOrRaise(st, key, s, msg).value)
  {
    SetParamInv(k, st, key, Str(s));
  }

  lemma TemporalInv(k: Kind, st: State, from: Bound, to: Bound, excludeBoundary: bool)
    requires Inv(k, st) && ValidBound(from) && ValidBound(to)
    requires Filters.TemporalFilter(st, from, to, excludeBoundary).Success?
    ensures Inv(k, Filters.TemporalFilter(st, from, to, excludeBoundary).value)
  {
    var ranges := Filters.TemporalRanges(st.params).value;
    var range := BoundText(from, false) + "," + BoundText(to, true);
    var v := List(ranges + [range]);
    var options := if excludeBoundary then Put(st.options, "temporal", [("exclude_boundary", OptBool(true))]) else st.options;
    assert Filters.TemporalFilter(st, from, to, excludeBoundary).value == Filters.SetParam(st, "temporal", v).(options := options);
    SetParamInv(k, st, "temporal", v);
    if excludeBoundary {
      OptionPutInv(st.options, "temporal", [("exclude_boundary", OptBool(true))]);
    }
  }

  lemma ReadableGranuleNameInv(k: Kind, st: State, names: IdArg)
    requires Inv(k, st)
    ensures Inv(k, Filters.ReadableGranuleName(st, names).value)
  {
    var o := [("pattern", OptBool(true))];
    OptionPutInv(st.options, "readable_granule_name", o);
    SetParamInv(k, st, "readable_granule_name", List(AsList(names)));
  }

  /** Storing an option map of booleans keeps every option a boolean. */
  lemma OptionPutInv(options: Dict<Dict<OptionValue>>, key: string, o: Dict<OptionValue>)
    requires BoolOptions(options)
    requires forall p :: p in o ==> p.1.OptBool?
    ensures BoolOptions(Put(options, key, o))
  {
    PutEntries(options, key, o);
    forall e | e in Put(options, key, o) ensures forall p :: p in e.1 ==> p.1.OptBool? {
      assert e in options || e == (key, o);
    }
  }

  /**
   * Keywords compose in order: running two lists of keywords is running the
   * first and, unless it raised, the second from where the first stopped.
   */
  lemma {:induction false} ApplyAllConcat(k: Kind, st: State, first: seq<(Key, Call)>, second: seq<(Key, Call)>)
    requires AllWellFormed(first) && AllWellFormed(second)
    ensures AllWellFormed(first + second)
    ensures var r := ApplyAll(k, st, first);
      ApplyAll(k, st, first + second) == if r.error.None? then ApplyAll(k, r.state, second) else r
    decreases |first|
  {
    assert AllWellFormed(first + second) by {
      forall i | 0 <= i < |first + second| ensures WellFormed((first + second)[i].1) && Canonical((first + second)[i].0) {
        if i < |first| { assert (first + second)[i] == first[i]; }
        else { assert (first + second)[i] == second[i - |first|]; }
      }
    }
    if |first| == 0 {
      assert first + second == second;
    } else {
      assert (first + second)[0] == first[0];
      assert (first + second)[1..] == first[1..] + second;
      assert AllWellFormed(first[1..]) by {
        forall i | 0 <= i < |first[1..]| ensures WellFormed(first[1..][i].1) && Canonical(first[1..][i].0) {
          assert first[1..][i] == first[i + 1];
        }
      }
      var r := ApplyKeyword(k, st, first[0].0, first[0].1);
      if r.Success? {
        ApplyAllConcat(k, r.value, first[1..], second);
      }
    }
  }

  /** A name the class does not define stops `parameters` with ValueError and changes nothing. */
  lemma UnknownKeyword(k: Kind, st: State, key: Key, c: Call, rest: seq<(Key, Call)>)
    requires !Offers(k, key) && WellFormed(c) && Canonical(key) && AllWellFormed(rest)
    ensures AllWellFormed([(key, c)] + rest)
    ensures ApplyAll(k, st, [(key, c)] + rest) == Applied(st, Some(ValueError("Unknown key " + KeyName(key))))
  {
    assert ([(key, c)] + rest)[0] == (key, c);
    assert AllWellFormed([(key, c)] + rest) by {
      forall i | 0 <= i < |[(key, c)] + rest| ensures WellFormed(([(key, c)] + rest)[i].1) && Canonical(([(key, c)] + rest)[i].0) {
        if i > 0 { assert ([(key, c)] + rest)[i] == rest[i - 1]; }
      }
    }
  }

  /**
   * `hits`, `get_all`, `parameters`, `_build_url` and `_valid_state` take no
   * argument, so naming one of them raises TypeError and changes nothing.
   */
  lemma ArgumentlessMethod(k: Kind, st: State, key: Key, c: Call, rest: seq<(Key, Call)>)
    requires Argumentless(key) && WellFormed(c) && AllWellFormed(rest)
    ensures AllWellFormed([(key, c)] + rest)
    ensures ApplyAll(k, st, [(key, c)] + rest) == Applied(st, Some(TypeError(KeyName(key) + "() got arguments it does not take")))
  {
    ArgumentlessKeyword(k, st, key, c);
    assert ([(key, c)] + rest)[0] == (key, c);
    assert AllWellFormed([(key, c)] + rest) by {
      forall i | 0 <= i < |[(key, c)] + rest| ensures WellFormed(([(key, c)] + rest)[i].1) && Canonical(([(key, c)] + rest)[i].0) {
        if i > 0 { assert ([(key, c)] + rest)[i] == rest[i - 1]; }
      }
    }
  }

  lemma ArgumentlessKeyword(k: Kind, st: State, key: Key, c: Call)
    requires Argumentless(key) && WellFormed(c)
    ensures Canonical(key)
    ensures ApplyKeyword(k, st, key, c) == Failure(TypeError(KeyName(key) + "() got arguments it does not take"))
  {
  }

  /** Every call carries the arguments of a builder. */
  lemma CallsAreForBuilders(c: Call)
    ensures !Argumentless(KeyOf(c)) && !KeyOf(c).OtherKey?
  {
  }

  /** The name of a method is never spelled as `OtherKey`: `parameters` would find and call that method. */
  lemma MethodNamesAreNoOtherKey(key: Key)
    requires !key.OtherKey?
    ensures !Canonical(OtherKey(KeyName(key)))
    ensures !Canonical(OtherKey("get")) && !Canonical(OtherKey("__init__"))
  {
  }

  /** A keyword the class defines, given arguments of its builder, runs that builder and nothing else. */
  lemma KnownKeyword(k: Kind, st: State, c: Call)
    requires Offers(k, KeyOf(c)) && WellFormed(c)
    ensures AllWellFormed([(KeyOf(c), c)])
    ensures ApplyAll(k, st, [(KeyOf(c), c)])
            == if Apply(k, st, c).Success? then Applied(Apply(k, st, c).value, None)
               else Applied(st, Some(Apply(k, st, c).error))
  {
    CallsAreForBuilders(c);
    assert [(KeyOf(c), c)][1..] == [];
  }

  /**
   * There is no rollback: an unknown name after keywords that succeeded raises
   * ValueError and leaves what those keywords did in place.
   */
  lemma NoRollback(k: Kind, st: State, first: seq<(Key, Call)>, key: Key, c: Call)
    requires AllWellFormed(first) && WellFormed(c) && Canonical(key) && !Offers(k, key)
    requires ApplyAll(k, st, first).error.None?
    ensures AllWellFormed(first + [(key, c)])
    ensures ApplyAll(k, st, first + [(key, c)])
            == Applied(ApplyAll(k, st, first).state, Some(ValueError("Unknown key " + KeyName(key))))
  {
    assert AllWellFormed([(key, c)]);
    ApplyAllConcat(k, st, first, [(key, c)]);
    UnknownKeyword(k, ApplyAll(k, st, first).state, key, c, []);
    assert [(key, c)] + [] == [(key, c)];
  }

  /** A call the class offers lands in the group of a class the kind descends from. */
  lemma OfferedGroup(k: Kind, c: Call)
    requires Offers(k, KeyOf(c))
    ensures SpatialCall(c) ==> k.Granule? || k.Collection?
    ensures GranuleCall(c) ==> k.Granule?
    ensures CollectionCall(c) ==> k.Collection?
    ensures c.NativeIdCall? ==> !k.Granule?
    ensures c.NameCall? ==> !k.Granule? && !k.Collection?
  {
  }
}
