/** The parts of Python's `str` that the query builder relies on. */
module Strings {
  import opened Wrappers

  /** `str(n)` for a natural number: its decimal digits, without leading zeros. */
  function Decimal(n: nat): (s: string)
    ensures |s| >= 1 && (|s| > 1 ==> s[0] != '0')
    ensures forall i :: 0 <= i < |s| ==> '0' <= s[i] <= '9'
  {
    var last := ((n % 10) + '0' as int) as char;
    if n < 10 then [last] else Decimal(n / 10) + [last]
  }

  /** `int(s)` for a string of decimal digits. */
  function DecimalValue(s: string): nat
    requires forall i :: 0 <= i < |s| ==> '0' <= s[i] <= '9'
  {
    if |s| == 0 then 0 else DecimalValue(s[..|s| - 1]) * 10 + (s[|s| - 1] as int - '0' as int)
  }

  /** Reading the digits back gives the number. */
  lemma {:induction false} DecimalRoundTrip(n: nat)
    ensures DecimalValue(Decimal(n)) == n
  {
    var s := Decimal(n);
    if n >= 10 {
      assert s[..|s| - 1] == Decimal(n / 10);
      DecimalRoundTrip(n / 10);
    }
  }

  /** `sep.join(parts)`. */
  function Join(parts: seq<string>, sep: char): string
  {
    if |parts| == 0 then ""
    else if |parts| == 1 then parts[0]
    else parts[0] + [sep] + Join(parts[1..], sep)
  }

  /** `s.split(sep)`: the pieces between separators; `""` splits into `[""]`. */
  function Split(s: string, sep: char): (parts: seq<string>)
    ensures |parts| >= 1
  {
    if |s| == 0 then [""]
    else
      var rest := Split(s[1..], sep);
      if s[0] == sep then [""] + rest
      else [[s[0]] + rest[0]] + rest[1..]
  }

  /** Splitting a string with no separator in it, followed by more text, leaves the string as the first piece. */
  lemma {:induction false} SplitPrefix(p: string, t: string, sep: char)
    requires sep !in p
    ensures Split(p + t, sep) == [p + Split(t, sep)[0]] + Split(t, sep)[1..]
  {
    if |p| > 0 {
      assert (p + t)[1..] == p[1..] + t;
      SplitPrefix(p[1..], t, sep);
      assert [p[0]] + (p[1..] + Split(t, sep)[0]) == p + Split(t, sep)[0];
    } else {
      var parts := Split(t, sep);
      assert p + t == t && p + parts[0] == parts[0];
      assert [parts[0]] + parts[1..] == parts;
    }
  }

  /** Splitting undoes joining when no part contains the separator. */
  lemma {:induction false} SplitJoin(parts: seq<string>, sep: char)
    requires |parts| >= 1
    requires forall i :: 0 <= i < |parts| ==> sep !in parts[i]
    ensures Split(Join(parts, sep), sep) == parts
  {
    if |parts| == 1 {
      SplitPrefix(parts[0], "", sep);
      assert parts[0] + "" == parts[0];
    } else {
      var t := [sep] + Join(parts[1..], sep);
      assert Join(parts, sep) == parts[0] + t;
      SplitPrefix(parts[0], t, sep);
      SplitJoin(parts[1..], sep);
      assert t[1..] == Join(parts[1..], sep);
      assert Split(t, sep) == [""] + parts[1..];
      assert parts[0] + "" == parts[0];
    }
  }

  /** `t in s` for strings: `t` occurs in `s` as a contiguous substring. */
  predicate Contains(s: string, t: string)
    decreases |s|
  {
    t <= s || (|s| > 0 && Contains(s[1..], t))
  }

  /** A substring's own substrings are substrings. */
  lemma {:induction false} ContainsTransitive(s: string, t: string, u: string)
    requires Contains(s, t) && Contains(t, u)
    ensures Contains(s, u)
    decreases |s|
  {
    if t <= s {
      PrefixContains(s, t, u);
    } else {
      ContainsTransitive(s[1..], t, u);
    }
  }

  lemma {:induction false} PrefixContains(s: string, t: string, u: string)
    requires t <= s && Contains(t, u)
    ensures Contains(s, u)
    decreases |t|
  {
    if u <= t {
      assert u <= s;
    } else {
      assert |t| > 0 && Contains(t[1..], u);
      assert t[1..] <= s[1..];
      PrefixContains(s[1..], t[1..], u);
    }
  }

  /** `str.isspace()` for one character: the Unicode whitespace characters Python strips. */
  predicate IsWhitespace(c: char)
  {
    c == ' ' || ('\t' <= c <= '\r') || ('\U{1C}' <= c <= '\U{1F}') || c == '\U{85}' || c == '\U{A0}'
    || c == '\U{1680}' || ('\U{2000}' <= c <= '\U{200A}') || c == '\U{2028}' || c == '\U{2029}'
    || c == '\U{202F}' || c == '\U{205F}' || c == '\U{3000}'
  }

  /** `s.strip()[0]`: the first character that is not whitespace; `None` where Python raises IndexError. */
  function FirstNonSpace(s: string): (r: Option<char>)
    ensures r.Some? <==> exists i :: 0 <= i < |s| && !IsWhitespace(s[i])
    ensures r.Some? ==> exists i :: 0 <= i < |s| && s[i] == r.value && !IsWhitespace(s[i])
                          && forall j :: 0 <= j < i ==> IsWhitespace(s[j])
  {
    if |s| == 0 then None
    else if !IsWhitespace(s[0]) then Some(s[0])
    else
      var r := FirstNonSpace(s[1..]);
      assert forall i :: 1 <= i < |s| ==> s[i] == s[1..][i - 1];
      if r.Some? then
        var i :| 0 <= i < |s[1..]| && s[1..][i] == r.value && !IsWhitespace(s[1..][i])
                 && forall j :: 0 <= j < i ==> IsWhitespace(s[1..][j]);
        assert s[i + 1] == r.value;
        r
      else r
  }

  /** `s.lstrip(c)`: every leading `c` removed. */
  function LStrip(s: string, c: char): (r: string)
    ensures |r| <= |s| && r == s[|s| - |r|..]
    ensures |r| == 0 || r[0] != c
    ensures forall i :: 0 <= i < |s| - |r| ==> s[i] == c
  {
    if |s| > 0 && s[0] == c then LStrip(s[1..], c) else s
  }

  /** `s.rstrip(c)`: every trailing `c` removed. */
  function RStrip(s: string, c: char): (r: string)
    ensures r <= s
    ensures |r| == 0 || r[|r| - 1] != c
    ensures forall i :: |r| <= i < |s| ==> s[i] == c
  {
    if |s| > 0 && s[|s| - 1] == c then RStrip(s[..|s| - 1], c) else s
  }

  /** Lower-cases the ASCII letters and leaves every other character alone. */
  function AsciiLower(s: string): (r: string)
    ensures |r| == |s|
    ensures forall i :: 0 <= i < |s| ==> r[i] == if 'A' <= s[i] <= 'Z' then (s[i] as int + 32) as char else s[i]
  {
    if |s| == 0 then "" else [if 'A' <= s[0] <= 'Z' then (s[0] as int + 32) as char else s[0]] + AsciiLower(s[1..])
  }

  /** A lower-case hexadecimal digit, as `repr` writes it. */
  function LowerHexDigit(d: nat): (c: char)
    requires d < 16
    ensures ('0' <= c <= '9') || ('a' <= c <= 'f')
  {
    if d < 10 then (d + '0' as int) as char else (d - 10 + 'a' as int) as char
  }

  /** How `repr` writes one character inside quotes `q`. */
  function ReprChar(c: char, q: char): string
  {
    if c == q || c == '\\' then ['\\', c]
    else if c == '\t' then "\\t"
    else if c == '\n' then "\\n"
    else if c == '\r' then "\\r"
    else if c < ' ' || c as int == 127 then "\\x" + [LowerHexDigit(c as int / 16), LowerHexDigit(c as int % 16)]
    else [c]
  }

  function ReprBody(s: string, q: char): string
  {
    if |s| == 0 then "" else ReprChar(s[0], q) + ReprBody(s[1..], q)
  }

  /** `repr(s)`: single quotes, unless `s` has a single quote and no double quote. */
  function Repr(s: string): (r: string)
    ensures |r| >= 2 && r[0] == r[|r| - 1] && (r[0] == '\'' || r[0] == '"')
  {
    var q := if '\'' in s && '"' !in s then '"' else '\'';
    [q] + ReprBody(s, q) + [q]
  }

  /** The value of a hexadecimal digit, upper or lower case. */
  function HexDigitValue(c: char): Option<nat>
  {
    if '0' <= c <= '9' then Some(c as int - '0' as int)
    else if 'a' <= c <= 'f' then Some(c as int - 'a' as int + 10)
    else if 'A' <= c <= 'F' then Some(c as int - 'A' as int + 10)
    else None
  }

  /** Reads the text between the quotes of a string literal back: the escapes `repr` writes become their characters. */
  function Unescape(t: string): Option<string>
  {
    if |t| == 0 then Some("")
    else if t[0] != '\\' then
      var rest := Unescape(t[1..]);
      if rest.Some? then Some([t[0]] + rest.value) else None
    else if |t| < 2 then None
    else if t[1] == 'x' then
      if |t| < 4 || HexDigitValue(t[2]).None? || HexDigitValue(t[3]).None? then None
      else
        var rest := Unescape(t[4..]);
        if rest.Some? then Some([(HexDigitValue(t[2]).value * 16 + HexDigitValue(t[3]).value) as char] + rest.value) else None
    else
      var c := if t[1] == 't' then '\t' else if t[1] == 'n' then '\n' else if t[1] == 'r' then '\r' else t[1];
      var rest := Unescape(t[2..]);
      if rest.Some? then Some([c] + rest.value) else None
  }

  /** The escape `repr` writes for one character reads back as that character. */
  lemma UnescapeChar(c: char, q: char, t: string)
    requires q == '\'' || q == '"'
    requires Unescape(t).Some?
    ensures Unescape(ReprChar(c, q) + t) == Some([c] + Unescape(t).value)
  {
    var e := ReprChar(c, q);
    if c == q || c == '\\' {
      assert (e + t)[2..] == t;
    } else if c == '\t' || c == '\n' || c == '\r' {
      assert (e + t)[2..] == t;
    } else if c < ' ' || c as int == 127 {
      assert (e + t)[4..] == t;
    } else {
      assert (e + t)[1..] == t;
    }
  }

  /** Reading the body of `repr(s)` back gives `s`. */
  lemma {:induction false} ReprBodyRoundTrip(s: string, q: char)
    requires q == '\'' || q == '"'
    ensures Unescape(ReprBody(s, q)) == Some(s)
  {
    if |s| > 0 {
      ReprBodyRoundTrip(s[1..], q);
      UnescapeChar(s[0], q, ReprBody(s[1..], q));
      assert [s[0]] + s[1..] == s;
    }
  }

  /** Reading `repr(s)` back between its quotes gives `s`. */
  lemma ReprRoundTrip(s: string)
    ensures var r := Repr(s); Unescape(r[1..|r| - 1]) == Some(s)
  {
    var q := if '\'' in s && '"' !in s then '"' else '\'';
    var r := Repr(s);
    assert r[1..|r| - 1] == ReprBody(s, q);
    ReprBodyRoundTrip(s, q);
  }

  /** Printable ASCII text that needs no escape. */
  predicate PlainText(s: string)
  {
    forall i :: 0 <= i < |s| ==> ' ' <= s[i] <= '~' && s[i] != '\'' && s[i] != '\\'
  }

  /** Such text is written between single quotes as it is. */
  lemma {:induction false} ReprPlain(s: string)
    requires PlainText(s)
    ensures Repr(s) == "'" + s + "'"
  {
    assert '\'' !in s;
    ReprBodyPlain(s);
  }

  lemma {:induction false} ReprBodyPlain(s: string)
    requires PlainText(s)
    ensures ReprBody(s, '\'') == s
  {
    if |s| > 0 {
      assert PlainText(s[1..]) by {
        forall i | 0 <= i < |s[1..]| ensures ' ' <= s[1..][i] <= '~' && s[1..][i] != '\'' && s[1..][i] != '\\' {
          assert s[1..][i] == s[i + 1];
        }
      }
      ReprBodyPlain(s[1..]);
      assert [s[0]] + s[1..] == s;
    }
  }

  /** Python's `a < b` on strings: lexicographic by code point, a proper prefix first. */
  predicate LexLess(a: string, b: string)
  {
    if |b| == 0 then false
    else if |a| == 0 then true
    else if a[0] != b[0] then a[0] < b[0]
    else LexLess(a[1..], b[1..])
  }

  /** Comparing two strings that start with blocks of one width compares the blocks first. */
  lemma {:induction false} LexLessConcat(a: string, c: string, b: string, d: string)
    requires |a| == |b|
    ensures LexLess(a + c, b + d) <==> LexLess(a, b) || (a == b && LexLess(c, d))
  {
    if |a| > 0 {
      assert (a + c)[0] == a[0] && (b + d)[0] == b[0];
      assert (a + c)[1..] == a[1..] + c && (b + d)[1..] == b[1..] + d;
      LexLessConcat(a[1..], c, b[1..], d);
      if a[0] == b[0] {
        assert a == b <==> a[1..] == b[1..] by {
          if a[1..] == b[1..] { assert a == [a[0]] + a[1..] && b == [b[0]] + b[1..]; }
        }
      }
    } else {
      assert a + c == c && b + d == d;
    }
  }

  /** A string is never less than itself. */
  lemma {:induction false} LexLessIrreflexive(a: string)
    ensures !LexLess(a, a)
  {
    if |a| > 0 { LexLessIrreflexive(a[1..]); }
  }
}
