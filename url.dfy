/**
 * Go's url.PathEscape, which the cache key is built with, and its partner
 * url.PathUnescape. Go strings are byte strings, and a URL path after
 * decoding may hold any byte, so the path is a sequence of bytes here; the
 * escaped form is ASCII, so it is a Dafny string.
 */
module Url {
  import opened Wrappers
  import opened Bytes

  const UpperHex := "0123456789ABCDEF"

  /** The character whose code is b. */
  function CharOf(b: byte): char
  {
    b as int as char
  }

  /**
   * shouldEscape(b, encodePathSegment): letters, digits and the marks
   * - _ . ~ stay; of the reserved characters $ & + , / : ; = ? @ only
   * / ; , ? are escaped; every other byte, including all non-ASCII bytes,
   * is escaped.
   */
  predicate ShouldEscape(b: byte)
  {
    var c := CharOf(b);
    if 'a' <= c <= 'z' || 'A' <= c <= 'Z' || '0' <= c <= '9' then false
    else if c == '-' || c == '_' || c == '.' || c == '~' then false
    else if c == '$' || c == '&' || c == '+' || c == ':' || c == '=' || c == '@' then false
    else true
  }

  /** The characters PathEscape may produce. */
  predicate IsSafe(c: char)
  {
    'a' <= c <= 'z' || 'A' <= c <= 'Z' || '0' <= c <= '9'
    || c == '-' || c == '_' || c == '.' || c == '~'
    || c == '$' || c == '&' || c == '+' || c == ':' || c == '=' || c == '@' || c == '%'
  }

  /** One byte of the path: itself, or "%" and two upper-case hex digits. */
  function EscapeByte(b: byte): (s: string)
    ensures ShouldEscape(b) ==> |s| == 3 && s[0] == '%'
    ensures !ShouldEscape(b) ==> s == [CharOf(b)] && s[0] != '%'
    ensures forall i :: 0 <= i < |s| ==> IsSafe(s[i])
  {
    if ShouldEscape(b) then ['%', UpperHex[b as int / 16], UpperHex[b as int % 16]]
    else [CharOf(b)]
  }

  /**
   * url.PathEscape: the path byte by byte. The result is never shorter
   * than the path, at most three times as long, and holds only safe
   * characters (no '/', '?', ';', ',', space or non-ASCII character).
   */
  function PathEscape(p: seq<byte>): (s: string)
    ensures |p| <= |s| <= 3 * |p|
    ensures forall i :: 0 <= i < |s| ==> IsSafe(s[i])
    ensures p != [] && ShouldEscape(p[0]) ==> s[0] == '%'
  {
    if p == [] then "" else EscapeByte(p[0]) + PathEscape(p[1..])
  }

  predicate IsHex(c: char)
  {
    '0' <= c <= '9' || 'a' <= c <= 'f' || 'A' <= c <= 'F'
  }

  function HexValue(c: char): (v: int)
    requires IsHex(c)
    ensures 0 <= v < 16
  {
    if '0' <= c <= '9' then c as int - '0' as int
    else if 'a' <= c <= 'f' then c as int - 'a' as int + 10
    else c as int - 'A' as int + 10
  }

  /**
   * url.PathUnescape: "%" and two hex digits (either case) give that byte,
   * any other character gives its own code. A "%" without two hex digits
   * after it is an error, and so is a character that is not a byte.
   */
  function PathUnescape(s: string): (r: Option<seq<byte>>)
    decreases |s|
  {
    if s == [] then Some([])
    else if s[0] == '%' then
      if |s| >= 3 && IsHex(s[1]) && IsHex(s[2]) then
        match PathUnescape(s[3..])
        case None => None
        case Some(rest) => Some([(HexValue(s[1]) * 16 + HexValue(s[2])) as byte] + rest)
      else None
    else if s[0] as int < 256 then
      match PathUnescape(s[1..])
      case None => None
      case Some(rest) => Some([s[0] as int as byte] + rest)
    else None
  }

  /** Each upper-case hex digit reads back as its value. */
  lemma HexDigitValue(d: int)
    requires 0 <= d < 16
    ensures IsHex(UpperHex[d]) && HexValue(UpperHex[d]) == d
  {
  }

  /** Unescaping undoes the escape of one byte in front of any string. */
  lemma UnescapeByte(b: byte, t: string)
    ensures PathUnescape(EscapeByte(b) + t) ==
      match PathUnescape(t)
      case None => None
      case Some(rest) => Some([b] + rest)
  {
    var s := EscapeByte(b) + t;
    if ShouldEscape(b) {
      var hi, lo := b as int / 16, b as int % 16;
      HexDigitValue(hi);
      HexDigitValue(lo);
      assert s[0] == '%' && s[1] == UpperHex[hi] && s[2] == UpperHex[lo] && s[3..] == t;
      assert (HexValue(s[1]) * 16 + HexValue(s[2])) as byte == b;
    } else {
      assert s[0] == CharOf(b) && s[0] != '%' && s[1..] == t;
      assert s[0] as int as byte == b;
    }
  }

  /** PathUnescape inverts PathEscape, so PathEscape is injective. */
  lemma {:induction false} PathEscapeRoundTrip(p: seq<byte>)
    ensures PathUnescape(PathEscape(p)) == Some(p)
  {
    if p != [] {
      PathEscapeRoundTrip(p[1..]);
      UnescapeByte(p[0], PathEscape(p[1..]));
      assert [p[0]] + p[1..] == p;
    }
  }

  lemma PathEscapeInjective(p: seq<byte>, q: seq<byte>)
    requires PathEscape(p) == PathEscape(q)
    ensures p == q
  {
    PathEscapeRoundTrip(p);
    PathEscapeRoundTrip(q);
  }
}
