/**
 * `urllib.parse.quote(s)` with its default `safe='/'`: the string is encoded
 * as UTF-8 and every byte outside the unreserved set of section 2.3 of
 * RFC 3986 (letters, digits, `-`, `.`, `_`, `~`) and `/` becomes `%XY`, with
 * upper-case hexadecimal digits, as section 2.1 of RFC 3986 describes.
 */
module PercentEncoding {
  import opened Wrappers

  type Byte = x: int | 0 <= x < 256

  /** The UTF-8 encoding of one Unicode scalar value. */
  function Utf8(c: char): (bs: seq<Byte>)
    ensures 1 <= |bs| <= 4
    ensures (c as int < 0x80) <==> |bs| == 1
    ensures |bs| == 1 ==> bs[0] == c as int
    ensures forall i :: 1 <= i < |bs| ==> 0x80 <= bs[i] < 0xC0
  {
    var n := c as int;
    if n < 0x80 then [n]
    else if n < 0x800 then [0xC0 + n / 64, 0x80 + n % 64]
    else if n < 0x10000 then [0xE0 + n / 4096, 0x80 + (n / 64) % 64, 0x80 + n % 64]
    else [0xF0 + n / 262144, 0x80 + (n / 4096) % 64, 0x80 + (n / 64) % 64, 0x80 + n % 64]
  }

  function Utf8String(s: string): seq<Byte>
  {
    if |s| == 0 then [] else Utf8(s[0]) + Utf8String(s[1..])
  }

  /** Bytes that `quote` leaves as they are. */
  predicate Unreserved(b: Byte)
  {
    ('A' as int <= b <= 'Z' as int) || ('a' as int <= b <= 'z' as int) || ('0' as int <= b <= '9' as int)
    || b == '-' as int || b == '.' as int || b == '_' as int || b == '~' as int || b == '/' as int
  }

  function HexDigit(d: int): char
    requires 0 <= d < 16
  {
    "0123456789ABCDEF"[d]
  }

  /** The value of an upper-case hexadecimal digit. */
  function HexValue(c: char): Option<int>
  {
    if '0' <= c <= '9' then Some(c as int - '0' as int)
    else if 'A' <= c <= 'F' then Some(c as int - 'A' as int + 10)
    else None
  }

  lemma HexValueOfDigit(d: int)
    requires 0 <= d < 16
    ensures HexValue(HexDigit(d)) == Some(d)
  {
  }

  function EncodeByte(b: Byte): string
  {
    if Unreserved(b) then [b as char] else ['%', HexDigit(b / 16), HexDigit(b % 16)]
  }

  function EncodeBytes(bs: seq<Byte>): string
  {
    if |bs| == 0 then "" else EncodeByte(bs[0]) + EncodeBytes(bs[1..])
  }

  /** What `quote` raises for an argument that is neither `str` nor `bytes`. */
  const QuoteTypeMessage := "quote_from_bytes() expected bytes"

  /** `quote(s)`: percent-encoded text that decodes back to the UTF-8 bytes of `s`. */
  function Quote(s: string): (r: string)
    ensures DecodeBytes(r) == Some(Utf8String(s))
  {
    DecodeEncodeBytes(Utf8String(s));
    EncodeBytes(Utf8String(s))
  }

  /** `unquote_to_bytes`: each `%XY` back to its byte, each other ASCII character to its code; `None` on anything else. */
  function DecodeBytes(s: string): Option<seq<Byte>>
  {
    if |s| == 0 then Some([])
    else if s[0] == '%' then
      if |s| < 3 then None
      else match (HexValue(s[1]), HexValue(s[2]), DecodeBytes(s[3..]))
        case (Some(hi), Some(lo), Some(rest)) => Some([hi * 16 + lo] + rest)
        case _ => None
    else if s[0] as int < 0x80 then
      match DecodeBytes(s[1..])
      case Some(rest) => Some([s[0] as int] + rest)
      case None => None
    else None
  }

  /** Percent-decoding recovers exactly the bytes that were encoded. */
  lemma {:induction false} DecodeEncodeBytes(bs: seq<Byte>)
    ensures DecodeBytes(EncodeBytes(bs)) == Some(bs)
  {
    if |bs| > 0 {
      var b := bs[0];
      var head := EncodeByte(b);
      var tail := EncodeBytes(bs[1..]);
      DecodeEncodeBytes(bs[1..]);
      if Unreserved(b) {
        assert (head + tail)[0] == b as char && (head + tail)[1..] == tail;
      } else {
        HexValueOfDigit(b / 16);
        HexValueOfDigit(b % 16);
        assert (head + tail)[0] == '%' && (head + tail)[1] == HexDigit(b / 16) && (head + tail)[2] == HexDigit(b % 16);
        assert (head + tail)[3..] == tail;
      }
      assert [bs[0]] + bs[1..] == bs;
    }
  }

  /** What `quote` produces decodes to the UTF-8 bytes of its argument. */
  lemma QuoteRoundTrip(s: string)
    ensures DecodeBytes(Quote(s)) == Some(Utf8String(s))
  {
    DecodeEncodeBytes(Utf8String(s));
  }

  /** What comes out of `quote` is a string of unreserved characters, `/`, `%` and hexadecimal digits. */
  predicate QuotedChar(c: char)
  {
    c == '%' || (c as int < 0x80 && Unreserved(c as int))
  }

  predicate QuotedText(s: string)
  {
    forall i :: 0 <= i < |s| ==> QuotedChar(s[i])
  }

  lemma {:induction false} EncodeBytesQuoted(bs: seq<Byte>)
    ensures QuotedText(EncodeBytes(bs))
  {
    if |bs| > 0 {
      EncodeBytesQuoted(bs[1..]);
      var head := EncodeByte(bs[0]);
      var tail := EncodeBytes(bs[1..]);
      assert QuotedText(head);
      assert forall i :: |head| <= i < |head + tail| ==> (head + tail)[i] == tail[i - |head|];
    }
  }

  /** `quote(s)` never contains a character that is special in a query string, such as `&`, `=` or `,`. */
  lemma QuoteIsQueryText(s: string)
    ensures QuotedText(Quote(s))
    ensures '&' !in Quote(s) && '=' !in Quote(s) && ',' !in Quote(s) && ' ' !in Quote(s)
  {
    EncodeBytesQuoted(Utf8String(s));
  }

  lemma {:induction false} Utf8StringConcat(a: string, b: string)
    ensures Utf8String(a + b) == Utf8String(a) + Utf8String(b)
  {
    if |a| > 0 {
      assert (a + b)[0] == a[0] && (a + b)[1..] == a[1..] + b;
      Utf8StringConcat(a[1..], b);
    } else {
      assert a + b == b;
    }
  }

  lemma {:induction false} EncodeBytesConcat(a: seq<Byte>, b: seq<Byte>)
    ensures EncodeBytes(a + b) == EncodeBytes(a) + EncodeBytes(b)
  {
    if |a| > 0 {
      assert (a + b)[0] == a[0] && (a + b)[1..] == a[1..] + b;
      EncodeBytesConcat(a[1..], b);
    } else {
      assert a + b == b;
    }
  }

  /** `quote` works character by character. */
  lemma QuoteConcat(a: string, b: string)
    ensures Quote(a + b) == Quote(a) + Quote(b)
  {
    Utf8StringConcat(a, b);
    EncodeBytesConcat(Utf8String(a), Utf8String(b));
  }

  /** `quote` leaves a string of unreserved ASCII characters unchanged. */
  lemma {:induction false} QuoteUnreserved(s: string)
    requires forall i :: 0 <= i < |s| ==> s[i] as int < 0x80 && Unreserved(s[i] as int)
    ensures Quote(s) == s
  {
    if |s| > 0 {
      QuoteUnreserved(s[1..]);
      QuoteConcat([s[0]], s[1..]);
      assert [s[0]] + s[1..] == s;
      assert Utf8String([s[0]]) == [s[0] as int] by {
        assert [s[0]][1..] == [];
      }
      assert EncodeBytes([s[0] as int]) == [s[0]] by {
        assert [s[0] as int][1..] == [];
      }
    }
  }

  /** The characters `quote` encodes in the query strings of this model. */
  lemma QuoteSeparators()
    ensures Quote(",") == "%2C" && Quote(" ") == "%20"
  {
    assert Utf8String(",") == [44] by { assert ","[1..] == []; }
    assert Utf8String(" ") == [32] by { assert " "[1..] == []; }
    assert EncodeBytes([44]) == EncodeByte(44) by { assert [44][1..] == []; }
    assert EncodeBytes([32]) == EncodeByte(32) by { assert [32][1..] == []; }
  }

  /** Two runs of unreserved ASCII around one character: only that character is encoded. */
  lemma QuoteAround(a: string, c: char, b: string)
    requires forall i :: 0 <= i < |a| ==> a[i] as int < 0x80 && Unreserved(a[i] as int)
    requires forall i :: 0 <= i < |b| ==> b[i] as int < 0x80 && Unreserved(b[i] as int)
    ensures Quote(a + [c] + b) == a + Quote([c]) + b
  {
    QuoteConcat(a, [c]);
    QuoteConcat(a + [c], b);
    QuoteUnreserved(a);
    QuoteUnreserved(b);
  }
}
