/** What the builders promise, stated over all inputs. */
module FilterProperties {
  import opened Wrappers
  import opened OrderedDicts
  import opened Strings
  import opened PercentEncoding
  import opened Temporal
  import opened QueryState
  import opened Filters

  /** `st'` is `st` with `params[key]` set to `v` and nothing else touched. */
  ghost predicate SetsOnly(st: State, st': State, key: string, v: Value)
  {
    && Get(st'.params, key) == Some(v)
    && (forall k :: k != key ==> Get(st'.params, k) == Get(st.params, k))
    && st'.options == st.options && st'.headers == st.headers
    && st'.baseUrl == st.baseUrl && st'.format == st.format
  }

  // ------------------------------------------------------ identifier lists

  /** An identifier passes the prefix check: it has a non-blank character and the first one is allowed. */
  predicate IdOk(id: string, allowed: set<char>)
  {
    FirstNonSpace(id).Some? && FirstNonSpace(id).value in allowed
  }

  /**
   * The prefix check fails exactly when some identifier is bad, and it
   * reports the first bad one: IndexError when that one is blank.
   */
  lemma {:induction false} CheckIdsReportsFirstBad(ids: seq<string>, allowed: set<char>, msg: string)
    ensures CheckIds(ids, allowed, msg).None? <==> forall i :: 0 <= i < |ids| ==> IdOk(ids[i], allowed)
    ensures CheckIds(ids, allowed, msg).Some? ==>
      exists i :: 0 <= i < |ids| && !IdOk(ids[i], allowed) && (forall j :: 0 <= j < i ==> IdOk(ids[j], allowed))
        && (CheckIds(ids, allowed, msg) == Some(IndexError) <==> FirstNonSpace(ids[i]).None?)
  {
    if |ids| > 0 {
      CheckIdsReportsFirstBad(ids[1..], allowed, msg);
      if IdOk(ids[0], allowed) {
        assert forall i :: 1 <= i < |ids| ==> ids[i] == ids[1..][i - 1];
        if CheckIds(ids, allowed, msg).Some? {
          var i :| 0 <= i < |ids[1..]| && !IdOk(ids[1..][i], allowed) && (forall j :: 0 <= j < i ==> IdOk(ids[1..][j], allowed))
            && (CheckIds(ids[1..], allowed, msg) == Some(IndexError) <==> FirstNonSpace(ids[1..][i]).None?);
          assert forall j :: 0 <= j < i + 1 ==> IdOk(ids[j], allowed) by {
            forall j | 0 <= j < i + 1 ensures IdOk(ids[j], allowed) {
              if j > 0 { assert ids[j] == ids[1..][j - 1]; }
            }
          }
        }
      } else {
        assert !IdOk(ids[0], allowed);
      }
    }
  }

  /**
   * `concept_id` accepts the batch exactly when every identifier starts
   * with a letter of the kind, and then stores the whole batch; one bad
   * identifier rejects the batch.
   */
  lemma ConceptIdOutcome(k: Kind, st: State, ids: IdArg)
    ensures ConceptId(k, st, ids).Success? <==> forall i :: 0 <= i < |AsList(ids)| ==> IdOk(AsList(ids)[i], ConceptIdChars(k))
    ensures ConceptId(k, st, ids).Success? ==> SetsOnly(st, ConceptId(k, st, ids).value, "concept_id", List(AsList(ids)))
  {
    CheckIdsReportsFirstBad(AsList(ids), ConceptIdChars(k), ConceptIdMessage(k));
  }

  lemma ToolConceptIdOutcome(st: State, ids: IdArg)
    ensures ToolConceptId(st, ids).Success? <==> forall i :: 0 <= i < |AsList(ids)| ==> IdOk(AsList(ids)[i], {'T'})
    ensures ToolConceptId(st, ids).Success? ==> SetsOnly(st, ToolConceptId(st, ids).value, "tool_concept_id", List(AsList(ids)))
  {
    CheckIdsReportsFirstBad(AsList(ids), {'T'}, ToolIdMessage);
  }

  lemma ServiceConceptIdOutcome(st: State, ids: IdArg)
    ensures ServiceConceptId(st, ids).Success? <==> forall i :: 0 <= i < |AsList(ids)| ==> IdOk(AsList(ids)[i], {'S'})
    ensures ServiceConceptId(st, ids).Success? ==> SetsOnly(st, ServiceConceptId(st, ids).value, "service_concept_id", List(AsList(ids)))
  {
    CheckIdsReportsFirstBad(AsList(ids), {'S'}, ServiceIdMessage);
  }

  /** An ID whose first character is not blank is checked by that character. */
  lemma FirstNonSpaceOfId(s: string)
    requires |s| > 0 && !IsWhitespace(s[0])
    ensures FirstNonSpace(s) == Some(s[0])
  {
  }

  /** A granule query takes granule and collection IDs. */
  lemma GranuleTakesGranuleAndCollectionIds(st: State)
    ensures ConceptId(Granule, st, Many(["G1-PROV", " C2-PROV"])).Success?
  {
    ConceptIdOutcome(Granule, st, Many(["G1-PROV", " C2-PROV"]));
    FirstNonSpaceOfId("G1-PROV");
    assert " C2-PROV"[1..] == "C2-PROV";
    FirstNonSpaceOfId("C2-PROV");
    assert FirstNonSpace(" C2-PROV") == Some('C');
  }

  /** A collection query takes only collection IDs: one granule ID makes it refuse the whole batch. */
  lemma CollectionRefusesGranuleIds(st: State)
    ensures ConceptId(Collection, st, Many(["C2-PROV", "G1-PROV"])).Failure?
  {
    ConceptIdOutcome(Collection, st, Many(["C2-PROV", "G1-PROV"]));
    FirstNonSpaceOfId("G1-PROV");
    assert !IdOk(["C2-PROV", "G1-PROV"][1], ConceptIdChars(Collection));
  }

  /** A blank ID is an IndexError, as `"".strip()[0]` is. */
  lemma BlankIdIsIndexError(st: State)
    ensures ConceptId(Collection, st, One("   ")) == Failure(IndexError)
  {
    assert "   "[1..] == "  " && "  "[1..] == " " && " "[1..] == "";
  }

  // ------------------------------------------------------------ flags

  /** `online_only` takes only a bool, and afterwards `downloadable` is gone. */
  lemma OnlineOnlyOutcome(st: State, flag: Dyn)
    ensures OnlineOnly(st, flag).Success? <==> flag.PyBool?
    ensures OnlineOnly(st, flag).Success? ==>
      var p := OnlineOnly(st, flag).value.params;
      Get(p, "online_only") == Some(Flag(flag.b)) && Get(p, "downloadable") == None
      && (forall k :: k != "online_only" && k != "downloadable" ==> Get(p, k) == Get(st.params, k))
  {
  }

  /** `downloadable` takes only a bool, and afterwards `online_only` is gone. */
  lemma DownloadableOutcome(st: State, flag: Dyn)
    ensures Downloadable(st, flag).Success? <==> flag.PyBool?
    ensures Downloadable(st, flag).Success? ==>
      var p := Downloadable(st, flag).value.params;
      Get(p, "downloadable") == Some(Flag(flag.b)) && Get(p, "online_only") == None
      && (forall k :: k != "online_only" && k != "downloadable" ==> Get(p, k) == Get(st.params, k))
  {
  }

  /** Of two calls to the opposite flags, only the last one is left. */
  lemma LastFlagWins(st: State, a: bool, b: bool)
    ensures var st' := OnlineOnly(Downloadable(st, PyBool(a)).value, PyBool(b)).value;
      Get(st'.params, "online_only") == Some(Flag(b)) && "downloadable" !in Keys(st'.params)
  {
  }

  // ---------------------------------------------------------- temporal

  lemma {:induction false} DigitsHaveNoComma(n: nat, w: nat)
    ensures ',' !in Digits(n, w)
  {
    if w > 0 {
      DigitsHaveNoComma(n / 10, w - 1);
    }
  }

  lemma BoundTextHasNoComma(b: Bound, upper: bool)
    requires ValidBound(b)
    ensures ',' !in BoundText(b, upper)
  {
    if !b.NoBound? {
      IsoHasNoComma(Resolve(b, upper).value);
    }
  }

  /** The ISO rendering is numerals and the separators `-`, `T`, `:` and `Z`. */
  lemma IsoHasNoComma(t: DateTime)
    requires ValidDateTime(t)
    ensures ',' !in Iso8601(t)
  {
    DigitsHaveNoComma(t.date.year, 4);
    DigitsHaveNoComma(t.date.month, 2);
    DigitsHaveNoComma(t.date.day, 2);
    DigitsHaveNoComma(t.hour, 2);
    DigitsHaveNoComma(t.minute, 2);
    DigitsHaveNoComma(t.second, 2);
    var tail := Digits(t.second, 2) + "Z";
    assert ',' !in tail;
    tail := Digits(t.minute, 2) + (":" + tail);
    assert ',' !in tail;
    tail := Digits(t.hour, 2) + (":" + tail);
    assert ',' !in tail;
    tail := Digits(t.date.day, 2) + ("T" + tail);
    assert ',' !in tail;
    tail := Digits(t.date.month, 2) + ("-" + tail);
    assert ',' !in tail;
    assert Iso8601(t) == Digits(t.date.year, 4) + ("-" + tail);
  }

  /**
   * `temporal` raises ValueError exactly when both bounds are given and the
   * upper instant is strictly before the lower one; it raises AttributeError
   * when an existing `temporal` parameter is not a list. Otherwise it appends
   * one range, whose two halves are the formatted bounds, and touches the
   * options only when asked to exclude the boundary.
   */
  lemma TemporalOutcome(st: State, from: Bound, to: Bound, excludeBoundary: bool)
    requires ValidBound(from) && ValidBound(to)
    ensures var r := TemporalFilter(st, from, to, excludeBoundary);
      && ((r == Failure(ValueError("date_from must be earlier than date_to.")))
            <==> !from.NoBound? && !to.NoBound? && Earlier(Resolve(to, true).value, Resolve(from, false).value))
      && (r.Failure? && r.error.AttributeError? <==>
            !(!from.NoBound? && !to.NoBound? && Earlier(Resolve(to, true).value, Resolve(from, false).value))
            && TemporalRanges(st.params).None?)
      && (r.Success? ==>
            var range := BoundText(from, false) + "," + BoundText(to, true);
            && Get(r.value.params, "temporal") == Some(List(TemporalRanges(st.params).value + [range]))
            && Split(range, ',') == [BoundText(from, false), BoundText(to, true)]
            && (forall k :: k != "temporal" ==> Get(r.value.params, k) == Get(st.params, k))
            && (excludeBoundary ==> Get(r.value.options, "temporal") == Some([("exclude_boundary", OptBool(true))]))
            && (!excludeBoundary ==> r.value.options == st.options))
  {
    if !from.NoBound? && !to.NoBound? {
      IsoOrderIsChronological(Resolve(to, true).value, Resolve(from, false).value);
    }
    var f, t := BoundText(from, false), BoundText(to, true);
    BoundTextHasNoComma(from, false);
    BoundTextHasNoComma(to, true);
    SplitJoin([f, t], ',');
    assert Join([f, t], ',') == f + "," + t;
  }

  /** A day given as both bounds is a valid range: it covers the day from midnight to 23:59:59. */
  lemma SameDayIsARange(st: State, d: Date)
    requires ValidDate(d) && TemporalRanges(st.params).Some?
    ensures TemporalFilter(st, OnDate(d), OnDate(d), false).Success?
  {
    TemporalOutcome(st, OnDate(d), OnDate(d), false);
  }

  // --------------------------------------------------------- geometry

  /** `polygon` is a no-op for no pairs, and otherwise needs four pairs with the last equal to the first. */
  lemma PolygonOutcome(st: State, coords: seq<(Coord, Coord)>)
    ensures |coords| == 0 ==> Polygon(st, coords) == Success(st)
    ensures Polygon(st, coords).Failure? <==> |coords| > 0 && (|coords| < 4 || coords[0] != coords[|coords| - 1])
  {
    if |coords| >= 4 {
      FlattenEnds(coords);
    }
  }

  /** Three pairs are too few, and the message says how many there were. */
  lemma ShortPolygon(st: State, a: Coord, b: Coord)
    ensures Polygon(st, [(a, b), (b, a), (a, b)]) == Failure(ValueError("A polygon requires at least 4 pairs of coordinates; got 3."))
  {
    assert Decimal(3) == "3";
    assert |[(a, b), (b, a), (a, b)]| == 3;
    assert "A polygon requires at least 4 pairs of coordinates; got " + "3" + "."
        == "A polygon requires at least 4 pairs of coordinates; got 3.";
  }

  /** An accepted polygon is stored as its joined coordinates, and nothing else changes. */
  lemma PolygonStores(st: State, coords: seq<(Coord, Coord)>)
    requires |coords| >= 4 && coords[0] == coords[|coords| - 1]
    requires forall i :: 0 <= i < |coords| ==> ',' !in coords[i].0.repr && ',' !in coords[i].1.repr
    ensures Polygon(st, coords).Success?
    ensures var v := Get(Polygon(st, coords).value.params, "polygon");
      v.Some? && v.value.Str?
      && var parts := Split(v.value.s, ',');
         |parts| == 2 * |coords|
         && forall i :: 0 <= i < |coords| ==> parts[2 * i] == coords[i].0.repr && parts[2 * i + 1] == coords[i].1.repr
    ensures forall k :: k != "polygon" ==> Get(Polygon(st, coords).value.params, k) == Get(st.params, k)
  {
    FlattenEnds(coords);
    CoordinatesRoundTrip(coords);
  }

  /** An accepted line is stored as text that splits back into its coordinates, and nothing else changes. */
  lemma LineStores(st: State, coords: seq<(Coord, Coord)>)
    requires |coords| >= 2
    requires forall i :: 0 <= i < |coords| ==> ',' !in coords[i].0.repr && ',' !in coords[i].1.repr
    ensures Line(st, coords).Success?
    ensures var v := Get(Line(st, coords).value.params, "line");
      v.Some? && v.value.Str?
      && var parts := Split(v.value.s, ',');
         |parts| == 2 * |coords|
         && forall i :: 0 <= i < |coords| ==> parts[2 * i] == coords[i].0.repr && parts[2 * i + 1] == coords[i].1.repr
    ensures forall k :: k != "line" ==> Get(Line(st, coords).value.params, k) == Get(st.params, k)
  {
    CoordinatesRoundTrip(coords);
  }

  /** The first and last coordinates that `polygon` compares are those of the first and last pairs. */
  lemma FlattenEnds(coords: seq<(Coord, Coord)>)
    requires |coords| > 0
    ensures var flat := Flatten(coords);
      flat[0] == coords[0].0 && flat[1] == coords[0].1
      && flat[|flat| - 2] == coords[|coords| - 1].0 && flat[|flat| - 1] == coords[|coords| - 1].1
  {
    var flat := Flatten(coords);
    var n := |coords| - 1;
    assert flat[2 * n] == coords[n].0 && flat[2 * n + 1] == coords[n].1;
    assert flat[2 * 0] == coords[0].0 && flat[2 * 0 + 1] == coords[0].1;
  }

  /** `line` is a no-op for no pairs and needs at least two. */
  lemma LineOutcome(st: State, coords: seq<(Coord, Coord)>)
    ensures |coords| == 0 ==> Line(st, coords) == Success(st)
    ensures Line(st, coords).Failure? <==> |coords| == 1
  {
  }

  /**
   * The joined coordinates split back, at the commas, into the longitude
   * and latitude of every pair in order, when no coordinate's text has a comma.
   */
  lemma CoordinatesRoundTrip(coords: seq<(Coord, Coord)>)
    requires |coords| > 0
    requires forall i :: 0 <= i < |coords| ==> ',' !in coords[i].0.repr && ',' !in coords[i].1.repr
    ensures var parts := Split(Join(Reprs(Flatten(coords)), ','), ',');
      |parts| == 2 * |coords|
      && forall i :: 0 <= i < |coords| ==> parts[2 * i] == coords[i].0.repr && parts[2 * i + 1] == coords[i].1.repr
  {
    var flat := Flatten(coords);
    var reprs := Reprs(flat);
    forall j | 0 <= j < |reprs| ensures ',' !in reprs[j] {
      var i := j / 2;
      assert reprs[j] == flat[j].repr;
      if j % 2 == 0 {
        assert j == 2 * i;
        assert flat[2 * i] == coords[i].0;
      } else {
        assert j == 2 * i + 1;
        assert flat[2 * i + 1] == coords[i].1;
      }
    }
    SplitJoin(reprs, ',');
    forall i | 0 <= i < |coords| ensures reprs[2 * i] == coords[i].0.repr && reprs[2 * i + 1] == coords[i].1.repr {
      assert flat[2 * i] == coords[i].0 && flat[2 * i + 1] == coords[i].1;
    }
  }

  // ------------------------------------------------------ granule filters

  /** The default call `cloud_cover()`, with 0 and 100, stores `0,100`. */
  lemma CloudCoverDefaults(st: State)
    ensures CloudCover(st, NumValue("0", 0.0), NumValue("100", 100.0)) == Success(SetParam(st, "cloud_cover", Str("0,100")))
  {
    assert Render(NumValue("0", 0.0)) + "," + Render(NumValue("100", 100.0)) == "0,100";
  }

  lemma CloudCoverReversed(st: State)
    ensures CloudCover(st, NumValue("50", 50.0), NumValue("10", 10.0)).Failure?
  {
  }

  lemma CloudCoverNotAFloat(st: State)
    ensures CloudCover(st, StrValue("x", None), NumValue("10", 10.0)) == Failure(ValueError(CoverNotFloats))
  {
  }

  /** A bound `float` cannot take at all, such as a list, is a TypeError. */
  lemma CloudCoverNotConvertible(st: State)
    ensures CloudCover(st, ListValue(["1"], "[1]"), NumValue("10", 10.0)) == Failure(TypeError(CoverNotConvertible))
    ensures CloudCover(st, NumValue("10", 10.0), ListValue(["1"], "[1]")) == Failure(TypeError(CoverNotConvertible))
  {
  }

  /** The minimum is converted first, so its ValueError wins over a TypeError of the maximum. */
  lemma CloudCoverMinimumFirst(st: State)
    ensures CloudCover(st, StrValue("x", None), ListValue(["1"], "[1]")) == Failure(ValueError(CoverNotFloats))
  {
  }

  /**
   * `cloud_cover` refuses two falsy bounds, and two truthy bounds that are
   * not floats in order; the refusal is a TypeError exactly when the first
   * bound that fails to convert is one `float` cannot take; what it stores
   * is the two bounds as given.
   */
  lemma CloudCoverOutcome(st: State, minCover: FloatLike, maxCover: FloatLike)
    ensures CloudCover(st, minCover, maxCover).Failure? <==>
      (!Truthy(minCover) && !Truthy(maxCover))
      || (Truthy(minCover) && Truthy(maxCover)
          && !(FloatOf(minCover).Converted? && FloatOf(maxCover).Converted? && FloatOf(minCover).value <= FloatOf(maxCover).value))
    ensures CloudCover(st, minCover, maxCover).Failure? ==>
      (CloudCover(st, minCover, maxCover).error.TypeError? <==>
        Truthy(minCover) && Truthy(maxCover)
        && (FloatOf(minCover).NotConvertible? || (FloatOf(minCover).Converted? && FloatOf(maxCover).NotConvertible?)))
    ensures CloudCover(st, minCover, maxCover).Failure? ==>
      CloudCover(st, minCover, maxCover).error in
        {ValueError("Please provide at least min_cover, max_cover or both"), ValueError(CoverNotFloats), TypeError(CoverNotConvertible)}
    ensures CloudCover(st, minCover, maxCover).Success? ==>
      SetsOnly(st, CloudCover(st, minCover, maxCover).value, "cloud_cover", Str(Render(minCover) + "," + Render(maxCover)))
  {
  }

  /** `sort_key` accepts a string exactly when it is a sort key after its leading dashes; it stores the string as given. */
  lemma SortKeyOutcome(st: State, key: Dyn)
    ensures SortKey(st, key).Success? <==> key.PyStr? && LStrip(key.s, '-') in GranuleSortKeys
    ensures SortKey(st, key).Success? ==> SetsOnly(st, SortKey(st, key).value, "sort_key", Str(key.s))
  {
  }

  lemma DescendingSortKey(st: State)
    ensures SortKey(st, PyStr("-start_date")).Success?
  {
    SortKeyOutcome(st, PyStr("-start_date"));
    assert "-start_date"[1..] == "start_date";
    assert LStrip("-start_date", '-') == "start_date";
  }

  lemma DashIsNoSortKey(st: State)
    ensures SortKey(st, PyStr("-")).Failure?
  {
    SortKeyOutcome(st, PyStr("-"));
    assert "-"[1..] == "";
    assert LStrip("-", '-') == "";
    assert "" !in GranuleSortKeys;
  }

  /** Every sort key has at least six characters. */
  lemma SortKeysAreLong()
    ensures forall s :: s in GranuleSortKeys ==> |s| >= 6
  {
  }

  lemma UnknownSortKey(st: State)
    ensures SortKey(st, PyStr("start")) == Failure(ValueError(SortKeyMessage))
  {
    SortKeyOutcome(st, PyStr("start"));
    assert LStrip("start", '-') == "start";
    SortKeysAreLong();
    assert |"start"| == 5;
  }

  lemma SortKeyMustBeAString(st: State)
    ensures SortKey(st, PyOther("1")).Failure?
  {
  }

  /** `day_night_flag` takes a string whose lowercase form is a period of the day, and stores that form. */
  lemma DayNightFlagOutcome(st: State, flag: Dyn)
    ensures DayNightFlag(st, flag).Failure? && DayNightFlag(st, flag).error.TypeError? <==> !flag.PyStr?
    ensures DayNightFlag(st, flag).Success? <==> flag.PyStr? && AsciiLower(flag.s) in DayNightValues
    ensures DayNightFlag(st, flag).Success? ==>
      SetsOnly(st, DayNightFlag(st, flag).value, "day_night_flag", Str(AsciiLower(flag.s)))
  {
  }

  lemma DayNightFlagExamples(st: State)
    ensures DayNightFlag(st, PyStr("DAY")) == Success(SetParam(st, "day_night_flag", Str("day")))
    ensures DayNightFlag(st, PyBool(true)).Failure?
  {
    assert AsciiLower("DAY") == "day";
  }

  /** A value that is no period of the day is refused, and the message shows its `repr`. */
  lemma DuskIsRefused(st: State)
    ensures DayNightFlag(st, PyStr("dusk")) == Failure(ValueError(DayNightMessage + "'dusk'."))
  {
    DuskIsNoPeriod();
    RefusedFlagMessage(st, "dusk");
    DuskRepr();
    assert DayNightMessage + Repr("dusk") + "." == DayNightMessage + (Repr("dusk") + ".");
  }

  /** A string whose lowercase form is no period of the day is refused with its `repr` in the message. */
  lemma RefusedFlagMessage(st: State, s: string)
    requires AsciiLower(s) !in DayNightValues
    ensures DayNightFlag(st, PyStr(s)) == Failure(ValueError(DayNightMessage + Repr(s) + "."))
  {
  }

  /** `repr("dusk")` is the word between single quotes. */
  lemma DuskRepr()
    ensures Repr("dusk") + "." == "'dusk'."
  {
    ReprPlain("dusk");
    assert "'" + "dusk" + "'" + "." == "'dusk'.";
  }

  /** `dusk` is already lower case and is no period of the day. */
  lemma DuskIsNoPeriod()
    ensures AsciiLower("dusk") == "dusk" && "dusk" !in DayNightValues
  {
    assert |AsciiLower("dusk")| == 4;
    assert AsciiLower("dusk")[0] == 'd' && AsciiLower("dusk")[1] == 'u' && AsciiLower("dusk")[2] == 's' && AsciiLower("dusk")[3] == 'k';
    assert "dusk" != "day" && "dusk" != "night" && "dusk" != "unspecified";
  }

  /** A range of orbits is stored percent-encoded, so its comma is sent as `%2C`. */
  lemma OrbitRangeIsQuoted(st: State)
    ensures OrbitNumber(st, NumValue("985", 985.0), NumValue("986", 986.0)) ==
      Success(SetParam(st, "orbit_number", Str("985%2C986")))
    ensures OrbitNumber(st, NumValue("985", 985.0), NoneValue) == Success(SetParam(st, "orbit_number", Raw(NumValue("985", 985.0))))
  {
    QuoteAround("985", ',', "986");
    QuoteSeparators();
    assert Render(NumValue("985", 985.0)) + "," + Render(NumValue("986", 986.0)) == "985" + [','] + "986";
    assert "985" + "%2C" + "986" == "985%2C986";
  }

  /** Titles are sent percent-encoded: a space becomes `%20`, and the encoding decodes back. */
  lemma EntryTitleIsQuoted(st: State, title: string)
    ensures EntryTitle(st, PyStr(title)).Success?
    ensures var v := Get(EntryTitle(st, PyStr(title)).value.params, "entry_title").value;
      v.Str? && DecodeBytes(v.s) == Some(Utf8String(title)) && ' ' !in v.s && ',' !in v.s
  {
    QuoteRoundTrip(title);
    QuoteIsQueryText(title);
  }

  /** `entry_title` fails exactly for a value that is not a string, with the TypeError of `quote`; otherwise only entry_title is set. */
  lemma EntryTitleOutcome(st: State, title: Dyn)
    ensures EntryTitle(st, title).Failure? <==> !title.PyStr?
    ensures EntryTitle(st, title).Failure? ==> EntryTitle(st, title).error == TypeError(QuoteTypeMessage)
    ensures EntryTitle(st, title).Success? ==> SetsOnly(st, EntryTitle(st, title).value, "entry_title", Str(Quote(title.s)))
  {
  }

  /** `entry_title(None)` raises where `quote(None)` does. */
  lemma EntryTitleOfNone(st: State)
    ensures EntryTitle(st, PyOther("None")) == Failure(TypeError("quote_from_bytes() expected bytes"))
  {
  }

  lemma EntryTitleExample(st: State)
    ensures EntryTitle(st, PyStr("DatasetId 5")) == Success(SetParam(st, "entry_title", Str("DatasetId%205")))
  {
    QuoteAround("DatasetId", ' ', "5");
    QuoteSeparators();
    assert "DatasetId" + [' '] + "5" == "DatasetId 5";
    assert "DatasetId" + "%20" + "5" == "DatasetId%205";
  }

  // ------------------------------------------------------ plain setters

  /** The setters that ignore a falsy argument. */
  lemma OptionalSetters(st: State, s: string)
    ensures s == "" ==>
      && Provider(st, s) == Success(st) && ShortName(st, s) == Success(st)
      && Version(st, s) == Success(st) && ArchiveCenter(st, s) == Success(st)
      && Keyword(st, s) == Success(st) && Name(st, s) == Success(st)
    ensures s != "" ==>
      && SetsOnly(st, Provider(st, s).value, "provider", Str(s))
      && SetsOnly(st, ShortName(st, s).value, "short_name", Str(s))
      && SetsOnly(st, Version(st, s).value, "version", Str(s))
      && SetsOnly(st, ArchiveCenter(st, s).value, "archive_center", Str(s))
      && SetsOnly(st, Keyword(st, s).value, "keyword", Str(s))
      && SetsOnly(st, Name(st, s).value, "name", Str(s))
  {
  }

  /** The setters that refuse a falsy argument. */
  lemma RequiredSetters(st: State, s: string)
    ensures Instrument(st, s).Failure? <==> s == ""
    ensures Platform(st, s).Failure? <==> s == ""
    ensures GranuleUr(st, s).Failure? <==> s == ""
    ensures s != "" ==>
      && SetsOnly(st, Instrument(st, s).value, "instrument", Str(s))
      && SetsOnly(st, Platform(st, s).value, "platform", Str(s))
      && SetsOnly(st, GranuleUr(st, s).value, "granule_ur", Str(s))
  {
  }

  /** `readable_granule_name` stores the names and switches on pattern matching; nothing else changes. */
  lemma ReadableGranuleNameOutcome(st: State, names: IdArg)
    ensures ReadableGranuleName(st, names).Success?
    ensures var st' := ReadableGranuleName(st, names).value;
      && Get(st'.params, "readable_granule_name") == Some(List(AsList(names)))
      && Get(st'.options, "readable_granule_name") == Some([("pattern", OptBool(true))])
      && (forall k :: k != "readable_granule_name" ==> Get(st'.params, k) == Get(st.params, k))
      && (forall k :: k != "readable_granule_name" ==> Get(st'.options, k) == Get(st.options, k))
      && st'.headers == st.headers && st'.baseUrl == st.baseUrl && st'.format == st.format
  {
  }

  /** A token replaces every header; an empty token changes nothing. */
  lemma TokenOutcome(st: State, token: string)
    ensures token == "" ==> Token(st, token) == Success(st) && BearerToken(st, token) == Success(st)
    ensures token != "" ==>
      && Token(st, token).value.headers == map["Authorization" := token]
      && BearerToken(st, token).value.headers == map["Authorization" := "Bearer " + token]
      && Token(st, token).value.params == st.params
      && BearerToken(st, token).value.params == st.params
  {
  }

  /** `mode` moves the query to another environment, keeping its route. */
  lemma ModeOutcome(k: Kind, st: State, mode: Option<string>)
    ensures Mode(k, st, mode).Failure? <==> mode.None?
    ensures mode.Some? ==>
      && Mode(k, st, mode).value.baseUrl == mode.value + Route(k)
      && Mode(k, st, mode).value.params == st.params
  {
  }

  // ------------------------------------------------------------ format

  /** The literal entries of a kind's format list. */
  function LiteralFormats(k: Kind): (ts: seq<string>)
    ensures k.Granule? ==> "umm_json" !in ts
    ensures !k.Granule? ==> "umm_json" in ts
  {
    var base := ["json", "xml", "echo10", "iso", "iso19115", "csv", "atom", "kml", "native"];
    if k.Granule? then base else base + ["dif", "dif10", "opendata", "umm_json"]
  }

  lemma {:induction false} VersionedImpliesUmmJson(s: string)
    ensures Search(VersionedUmmJson, s) ==> Contains(s, "umm_json")
    decreases |s|
  {
    if VersionedAt(s) {
      assert s[..8] == "umm_json" by { assert s[..8] == s[..10][..8]; }
      assert "umm_json" <= s;
    } else if |s| > 0 && Search(VersionedUmmJson, s[1..]) {
      VersionedImpliesUmmJson(s[1..]);
    }
  }

  lemma {:induction false} AnySearchLiterals(ps: seq<FormatPattern>, s: string)
    requires forall i :: 0 <= i < |ps| ==> ps[i].Literal?
    ensures AnySearch(ps, s) <==> exists i :: 0 <= i < |ps| && Contains(s, ps[i].text)
  {
    if |ps| > 0 {
      AnySearchLiterals(ps[1..], s);
      if exists i :: 0 <= i < |ps| && Contains(s, ps[i].text) {
        var i :| 0 <= i < |ps| && Contains(s, ps[i].text);
        if i > 0 { assert ps[1..][i - 1] == ps[i]; }
      }
      if AnySearch(ps[1..], s) && !Search(ps[0], s) {
        var i :| 0 <= i < |ps[1..]| && Contains(s, ps[1..][i].text);
        assert ps[i + 1] == ps[1..][i];
      }
    }
  }

  /**
   * The regular-expression test is a substring test: a format is accepted
   * exactly when one of the kind's literal formats occurs in it, because
   * every match of the versioned UMM-JSON pattern contains `umm_json`.
   */
  lemma FormatIsSubstringTest(k: Kind, f: string)
    ensures AnySearch(FormatPatterns(k), f) <==> exists t :: t in LiteralFormats(k) && Contains(f, t)
  {
    var ps := FormatPatterns(k);
    var lits := if k.Granule? then ps else ps[..13];
    assert forall i :: 0 <= i < |lits| ==> lits[i].Literal? && lits[i].text == LiteralFormats(k)[i];
    AnySearchLiterals(lits, f);
    if !k.Granule? {
      AnySearchSplit(lits, [VersionedUmmJson], f);
      assert ps == lits + [VersionedUmmJson];
      VersionedImpliesUmmJson(f);
      assert AnySearch([VersionedUmmJson], f) == Search(VersionedUmmJson, f) by {
        assert [VersionedUmmJson][1..] == [];
      }
      assert lits[12].text == "umm_json";
    }
    if exists t :: t in LiteralFormats(k) && Contains(f, t) {
      var t :| t in LiteralFormats(k) && Contains(f, t);
      var i :| 0 <= i < |LiteralFormats(k)| && LiteralFormats(k)[i] == t;
      assert lits[i].text == t;
    }
  }

  lemma {:induction false} AnySearchSplit(ps: seq<FormatPattern>, qs: seq<FormatPattern>, s: string)
    ensures AnySearch(ps + qs, s) <==> AnySearch(ps, s) || AnySearch(qs, s)
  {
    if |ps| > 0 {
      assert (ps + qs)[0] == ps[0] && (ps + qs)[1..] == ps[1..] + qs;
      AnySearchSplit(ps[1..], qs, s);
    } else {
      assert ps + qs == qs;
    }
  }

  /** `format` keeps any string in which a known format occurs, and turns an empty one into `json`. */
  lemma FormatOutcome(k: Kind, st: State, f: string)
    ensures var name := if f == "" then "json" else f;
      && (Format(k, st, f).Success? <==> exists t :: t in LiteralFormats(k) && Contains(name, t))
      && (Format(k, st, f).Success? ==> Format(k, st, f).value == st.(format := name))
      && (Format(k, st, f).Failure? ==> Format(k, st, f).error == ValueError(UnsupportedFormat + "'" + name + "'"))
  {
    FormatIsSubstringTest(k, if f == "" then "json" else f);
  }

  lemma EmptyFormatIsJson(st: State)
    ensures Format(Granule, st, "") == Success(st.(format := "json"))
  {
    FormatIsSubstringTest(Granule, "json");
    assert Contains("json", "json");
  }

  /** Substring matching lets near-misses through. */
  lemma NearMissFormats(st: State)
    ensures Format(Granule, st, "jsonn").Success?
    ensures Format(Granule, st, "iso19116").Success?
  {
    FormatIsSubstringTest(Granule, "jsonn");
    assert Contains("jsonn", "json");
    FormatIsSubstringTest(Granule, "iso19116");
    assert Contains("iso19116", "iso");
  }

  lemma VersionedUmmJsonFormat(st: State)
    ensures Format(Collection, st, "umm_json_v1_9").Success?
  {
    FormatIsSubstringTest(Collection, "umm_json_v1_9");
    assert Contains("umm_json_v1_9", "umm_json");
  }

  lemma UnknownFormat(st: State)
    ensures Format(Granule, st, "umm").Failure?
  {
    var ps := FormatPatterns(Granule);
    forall i | 0 <= i < |ps| ensures !Search(ps[i], "umm") {
      if |ps[i].text| > 3 { ShortNoContains("umm", ps[i].text); }
      else { SameLengthContains("umm", ps[i].text); }
    }
    NoSearchNoAny(ps, "umm");
  }

  /** The message quotes the refused format. */
  lemma UnknownFormatMessage(st: State)
    ensures Format(Granule, st, "umm") == Failure(ValueError(UnsupportedFormat + "'umm'"))
  {
    UnknownFormat(st);
    assert UnsupportedFormat + "'" + "umm" + "'" == UnsupportedFormat + "'umm'";
  }

  /** Found inside `umm_json`, the literal `json` lets a granule query take it too. */
  lemma GranuleUmmJsonViaJson(st: State)
    ensures Format(Granule, st, "umm_json").Success?
  {
    FormatOutcome(Granule, st, "umm_json");
    assert "umm_json"[4..] == "json";
    assert Contains("json", "json");
    assert Contains("umm_json", "json");
  }

  lemma {:induction false} NoSearchNoAny(ps: seq<FormatPattern>, s: string)
    requires forall i :: 0 <= i < |ps| ==> !Search(ps[i], s)
    ensures !AnySearch(ps, s)
  {
    if |ps| > 0 {
      assert forall i :: 0 <= i < |ps| - 1 ==> ps[1..][i] == ps[i + 1];
      NoSearchNoAny(ps[1..], s);
    }
  }

  lemma SameLengthContains(s: string, t: string)
    requires |s| == |t|
    ensures Contains(s, t) <==> s == t
  {
    if |s| > 0 { ShortNoContains(s[1..], t); }
  }

  lemma {:induction false} ShortNoContains(s: string, t: string)
    requires |t| > |s|
    ensures !Contains(s, t)
    decreases |s|
  {
    if |s| > 0 { ShortNoContains(s[1..], t); }
  }
}
