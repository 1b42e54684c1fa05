/** Percent-encoding of one URL path segment, section 2.1 of RFC 3986. An id
    is a sequence of octets; every octet outside the unreserved set of
    section 2.3 becomes `%` and two upper-case hex digits, so reserved
    characters such as `:` and `%` itself can never split or end the
    segment. Characters of the escaped text are ASCII, one octet each. */
module PathEscape {
  import opened Results

  type byte = x: int | 0 <= x < 256

  /** ALPHA / DIGIT / "-" / "." / "_" / "~" (section 2.3 of RFC 3986). */
  predicate IsUnreservedChar(c: char) {
    || 'a' <= c <= 'z' || 'A' <= c <= 'Z' || '0' <= c <= '9'
    || c == '-' || c == '.' || c == '_' || c == '~'
  }

  predicate IsUnreserved(b: byte) {
    IsUnreservedChar(b as char)
  }

  predicate IsUpperHex(c: char) {
    '0' <= c <= '9' || 'A' <= c <= 'F'
  }

  /** Hex digits are read in either case. */
  predicate IsHex(c: char) {
    IsUpperHex(c) || 'a' <= c <= 'f'
  }

  function HexDigit(n: int): (c: char)
    requires 0 <= n < 16
    ensures IsUpperHex(c)
  {
    if n < 10 then ('0' as int + n) as char else ('A' as int + n - 10) as char
  }

  function HexValue(c: char): (n: int)
    requires IsHex(c)
    ensures 0 <= n < 16
  {
    if '0' <= c <= '9' then c as int - '0' as int
    else if 'A' <= c <= 'F' then c as int - 'A' as int + 10
    else c as int - 'a' as int + 10
  }

  /** Reading back a written digit gives the digit's value. */
  lemma HexRoundTrip(n: int)
    requires 0 <= n < 16
    ensures HexValue(HexDigit(n)) == n
  {
  }

  /** The two-digit value of `%hl`. */
  function OctetOf(h: char, l: char): byte
    requires IsHex(h) && IsHex(l)
  {
    HexValue(h) * 16 + HexValue(l)
  }

  function EscapeOctet(b: byte): string {
    if IsUnreserved(b) then [b as char] else ['%', HexDigit(b / 16), HexDigit(b % 16)]
  }

  /** The escaped segment: only unreserved characters and `%` escapes, so no
      `/`, `?`, `#` or `:` survives into the request path. */
  function Escape(id: seq<byte>): (s: string)
    ensures forall k | 0 <= k < |s| :: s[k] == '%' || IsUnreservedChar(s[k])
    ensures |id| <= |s| <= 3 * |id|
  {
    if |id| == 0 then "" else EscapeOctet(id[0]) + Escape(id[1..])
  }

  /** Decoding a segment: `%` must start a two-digit hex escape, and any
      other ASCII character is its own octet. A character from 128 on, which
      stands for its UTF-8 octets, is not decoded. */
  function Unescape(s: string): Option<seq<byte>>
  {
    if |s| == 0 then Some([])
    else if s[0] == '%' then
      if |s| >= 3 && IsHex(s[1]) && IsHex(s[2]) then
        Prepend(OctetOf(s[1], s[2]), Unescape(s[3..]))
      else None
    else if s[0] as int < 128 then Prepend(s[0] as int, Unescape(s[1..]))
    else None
  }

  function Prepend(b: byte, rest: Option<seq<byte>>): Option<seq<byte>> {
    match rest
    case None => None
    case Some(bs) => Some([b] + bs)
  }

  /** The text Escape produces: unreserved characters, and `%XX` escapes in
      upper case that stand for octets outside the unreserved set. */
  predicate IsCanonical(s: string)
  {
    if |s| == 0 then true
    else if s[0] == '%' then
      && |s| >= 3 && IsUpperHex(s[1]) && IsUpperHex(s[2])
      && !IsUnreserved(OctetOf(s[1], s[2]))
      && IsCanonical(s[3..])
    else IsUnreservedChar(s[0]) && IsCanonical(s[1..])
  }

  /** Escaping one octet and then reading the text back yields that octet
      followed by whatever the rest reads as. */
  lemma UnescapeEscapeOctet(b: byte, rest: string)
    ensures Unescape(EscapeOctet(b) + rest) == Prepend(b, Unescape(rest))
  {
    var s := EscapeOctet(b) + rest;
    if IsUnreserved(b) {
      assert s[0] == b as char && s[1..] == rest;
    } else {
      HexRoundTrip(b / 16);
      HexRoundTrip(b % 16);
      assert s[3..] == rest;
    }
  }

  /** Round trip: decoding the escaped segment recovers the id exactly. */
  lemma {:induction false} UnescapeEscape(id: seq<byte>)
    ensures Unescape(Escape(id)) == Some(id)
  {
    if |id| > 0 {
      UnescapeEscape(id[1..]);
      UnescapeEscapeOctet(id[0], Escape(id[1..]));
      assert [id[0]] + id[1..] == id;
    }
  }

  /** Escape only ever writes canonical text. */
  lemma {:induction false} EscapeIsCanonical(id: seq<byte>)
    ensures IsCanonical(Escape(id))
  {
    if |id| > 0 {
      EscapeIsCanonical(id[1..]);
      var b := id[0];
      var s := Escape(id);
      if IsUnreserved(b) {
        assert s[1..] == Escape(id[1..]);
      } else {
        HexRoundTrip(b / 16);
        HexRoundTrip(b % 16);
        assert s[3..] == Escape(id[1..]);
      }
    }
  }

  /** The other direction: canonical text that decodes to an id is exactly
      that id's escaping, so every id has one escaped form and back. */
  lemma {:induction false} EscapeUnescape(s: string, id: seq<byte>)
    requires IsCanonical(s) && Unescape(s) == Some(id)
    ensures Escape(id) == s
  {
    if |s| > 0 {
      if s[0] == '%' {
        var rest := Unescape(s[3..]).value;
        EscapeUnescape(s[3..], rest);
        EscapedHead(s, rest);
      } else {
        var rest := Unescape(s[1..]).value;
        EscapeUnescape(s[1..], rest);
        PlainHead(s, rest);
      }
    }
  }

  /** A canonical `%XX` escape followed by the escaping of the rest is the
      escaping of the octet XX followed by the rest. */
  lemma EscapedHead(s: string, rest: seq<byte>)
    requires |s| >= 3 && s[0] == '%' && IsUpperHex(s[1]) && IsUpperHex(s[2])
    requires !IsUnreserved(OctetOf(s[1], s[2])) && Escape(rest) == s[3..]
    ensures Escape([OctetOf(s[1], s[2])] + rest) == s
  {
    var b := OctetOf(s[1], s[2]);
    assert EscapeOctet(b) == s[..3] by {
      OctetDigits(s[1], s[2]);
      HexDigitOfValue(s[1]);
      HexDigitOfValue(s[2]);
    }
    assert ([b] + rest)[1..] == rest;
    assert s == s[..3] + s[3..];
  }

  /** An unreserved character followed by the escaping of the rest is the
      escaping of that character's octet followed by the rest. */
  lemma PlainHead(s: string, rest: seq<byte>)
    requires |s| >= 1 && IsUnreservedChar(s[0]) && s[0] as int < 128 && Escape(rest) == s[1..]
    ensures Escape([s[0] as int] + rest) == s
  {
  }

  /** The two digits of `%hl` are the high and the low half of its octet. */
  lemma OctetDigits(h: char, l: char)
    requires IsHex(h) && IsHex(l)
    ensures OctetOf(h, l) / 16 == HexValue(h) && OctetOf(h, l) % 16 == HexValue(l)
  {
  }

  /** An upper-case digit is the digit its value writes. */
  lemma HexDigitOfValue(c: char)
    requires IsUpperHex(c)
    ensures HexDigit(HexValue(c)) == c
  {
  }

  /** Escaping works octet by octet, so it distributes over concatenation. */
  lemma {:induction false} EscapeAppend(a: seq<byte>, b: seq<byte>)
    ensures Escape(a + b) == Escape(a) + Escape(b)
  {
    if |a| > 0 {
      EscapeAppend(a[1..], b);
      assert (a + b)[1..] == a[1..] + b;
    } else {
      assert a + b == b;
    }
  }

  /** The octets of an ASCII string: each character is its own octet. */
  function Octets(s: string): (b: seq<byte>)
    requires forall k | 0 <= k < |s| :: s[k] as int < 128
    ensures |b| == |s| && forall k | 0 <= k < |s| :: b[k] == s[k] as int
  {
    if |s| == 0 then [] else [s[0] as int] + Octets(s[1..])
  }

  /** Text of unreserved characters only. */
  predicate IsPlain(s: string) {
    forall k | 0 <= k < |s| :: IsUnreservedChar(s[k]) && s[k] as int < 128
  }

  /** Plain text is its own escaping. */
  lemma {:induction false} EscapeKeepsUnreserved(s: string)
    requires IsPlain(s)
    ensures Escape(Octets(s)) == s
  {
    if |s| > 0 {
      EscapeKeepsUnreserved(s[1..]);
      assert Octets(s)[1..] == Octets(s[1..]);
      assert s == [s[0]] + s[1..];
    }
  }
}
