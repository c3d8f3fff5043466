/**
 * `Uri.EscapeDataString`: percent-encoding of a data string as in section
 * 2.1 of RFC 3986. Unreserved characters (section 2.3) are kept; every other
 * character is written as its UTF-8 bytes, each as `%` and two upper-case
 * hexadecimal digits.
 */
module PercentEncoding {

  /** The unreserved set of section 2.3 of RFC 3986. */
  predicate IsUnreserved(c: char) {
    ('A' <= c <= 'Z') || ('a' <= c <= 'z') || ('0' <= c <= '9')
    || c == '-' || c == '.' || c == '_' || c == '~'
  }

  /** What may appear in an escaped string: unreserved characters and `%`. */
  predicate IsEscaped(s: string) {
    forall i :: 0 <= i < |s| ==> IsUnreserved(s[i]) || s[i] == '%'
  }

  predicate IsByte(b: int) {
    0 <= b < 256
  }

  predicate IsUpperHex(c: char) {
    ('0' <= c <= '9') || ('A' <= c <= 'F')
  }

  function HexDigit(d: nat): (c: char)
    requires d < 16
    ensures IsUpperHex(c) && IsUnreserved(c)
  {
    if d < 10 then ('0' as int + d) as char else ('A' as int + d - 10) as char
  }

  function HexValue(c: char): (d: nat)
    requires IsUpperHex(c)
    ensures d < 16
  {
    if c <= '9' then c as int - '0' as int else c as int - 'A' as int + 10
  }

  lemma HexRoundTrip(d: nat)
    requires d < 16
    ensures HexValue(HexDigit(d)) == d
  {
  }

  /** The UTF-8 encoding of one Unicode scalar value (RFC 3629, section 3). */
  function Utf8(c: char): (bytes: seq<int>)
    ensures 1 <= |bytes| <= 4
    ensures forall i :: 0 <= i < |bytes| ==> IsByte(bytes[i])
    ensures |bytes| == 1 <==> c as int < 0x80
    ensures |bytes| == 1 ==> bytes[0] == c as int
  {
    var v := c as int;
    if v < 0x80 then [v]
    else if v < 0x800 then [0xC0 + v / 64, 0x80 + v % 64]
    else if v < 0x1_0000 then [0xE0 + v / 4096, 0x80 + (v / 64) % 64, 0x80 + v % 64]
    else [0xF0 + v / 262144, 0x80 + (v / 4096) % 64, 0x80 + (v / 64) % 64, 0x80 + v % 64]
  }

  /** The UTF-8 encoding of a string. */
  function Utf8String(s: string): (bytes: seq<int>)
    decreases |s|
  {
    if |s| == 0 then [] else Utf8(s[0]) + Utf8String(s[1..])
  }

  /** One byte as `%XY`. */
  function EscapeByte(b: int): (r: string)
    requires IsByte(b)
    ensures |r| == 3 && r[0] == '%' && IsUpperHex(r[1]) && IsUpperHex(r[2])
    ensures IsEscaped(r)
  {
    ['%', HexDigit(b / 16), HexDigit(b % 16)]
  }

  function EscapeBytes(bytes: seq<int>): (r: string)
    requires forall i :: 0 <= i < |bytes| ==> IsByte(bytes[i])
    ensures IsEscaped(r)
    ensures |r| == 3 * |bytes|
    decreases |bytes|
  {
    if |bytes| == 0 then "" else EscapeByte(bytes[0]) + EscapeBytes(bytes[1..])
  }

  function EscapeChar(c: char): (r: string)
    ensures IsEscaped(r)
  {
    if IsUnreserved(c) then [c] else EscapeBytes(Utf8(c))
  }

  /** `Uri.EscapeDataString(s)`. */
  function Escape(s: string): (r: string)
    ensures IsEscaped(r)
    ensures |r| >= |s|
    decreases |s|
  {
    if |s| == 0 then "" else EscapeChar(s[0]) + Escape(s[1..])
  }

  /**
   * Reading an escaped string back as UTF-8 bytes: `%XY` is the byte XY,
   * any other character its own code.
   */
  function UnescapeBytes(t: string): seq<int>
    decreases |t|
  {
    if |t| >= 3 && t[0] == '%' && IsUpperHex(t[1]) && IsUpperHex(t[2]) then
      [HexValue(t[1]) * 16 + HexValue(t[2])] + UnescapeBytes(t[3..])
    else if |t| > 0 then [t[0] as int] + UnescapeBytes(t[1..])
    else []
  }

  /**
   * Escaped text read as a run of units, each a `%XY` triple or one
   * unreserved character: every `%` starts a complete triple.
   */
  predicate WellFormed(t: string)
    decreases |t|
  {
    if |t| == 0 then true
    else if t[0] == '%' then |t| >= 3 && IsUpperHex(t[1]) && IsUpperHex(t[2]) && WellFormed(t[3..])
    else IsUnreserved(t[0]) && WellFormed(t[1..])
  }

  /** Decoding well-formed text followed by anything decodes the two parts apart. */
  lemma {:induction false} UnescapeAppend(a: string, b: string)
    requires WellFormed(a)
    ensures UnescapeBytes(a + b) == UnescapeBytes(a) + UnescapeBytes(b)
    decreases |a|
  {
    if |a| == 0 {
      assert a + b == b;
    } else if a[0] == '%' {
      var head := [HexValue(a[1]) * 16 + HexValue(a[2])];
      assert (a + b)[..3] == a[..3];
      assert (a + b)[3..] == a[3..] + b;
      UnescapeAppend(a[3..], b);
      calc {
        UnescapeBytes(a + b);
        head + UnescapeBytes(a[3..] + b);
        head + (UnescapeBytes(a[3..]) + UnescapeBytes(b));
        (head + UnescapeBytes(a[3..])) + UnescapeBytes(b);
      }
    } else {
      var head := [a[0] as int];
      assert (a + b)[0] == a[0];
      assert (a + b)[1..] == a[1..] + b;
      UnescapeAppend(a[1..], b);
      calc {
        UnescapeBytes(a + b);
        head + UnescapeBytes(a[1..] + b);
        head + (UnescapeBytes(a[1..]) + UnescapeBytes(b));
        (head + UnescapeBytes(a[1..])) + UnescapeBytes(b);
      }
    }
  }

  lemma {:induction false} WellFormedAppend(a: string, b: string)
    requires WellFormed(a) && WellFormed(b)
    ensures WellFormed(a + b)
    decreases |a|
  {
    if |a| == 0 {
      assert a + b == b;
    } else if a[0] == '%' {
      assert (a + b)[..3] == a[..3];
      assert (a + b)[3..] == a[3..] + b;
      WellFormedAppend(a[3..], b);
    } else {
      assert (a + b)[0] == a[0];
      assert (a + b)[1..] == a[1..] + b;
      WellFormedAppend(a[1..], b);
    }
  }

  lemma {:induction false} EscapeBytesWellFormed(bytes: seq<int>)
    requires forall i :: 0 <= i < |bytes| ==> IsByte(bytes[i])
    ensures WellFormed(EscapeBytes(bytes))
    ensures UnescapeBytes(EscapeBytes(bytes)) == bytes
    decreases |bytes|
  {
    if |bytes| > 0 {
      var head := EscapeByte(bytes[0]);
      var rest := EscapeBytes(bytes[1..]);
      EscapeBytesWellFormed(bytes[1..]);
      assert head[3..] == "";
      assert WellFormed(head);
      WellFormedAppend(head, rest);
      UnescapeAppend(head, rest);
      HexRoundTrip(bytes[0] / 16);
      HexRoundTrip(bytes[0] % 16);
      assert UnescapeBytes(head) == [bytes[0]];
      assert bytes == [bytes[0]] + bytes[1..];
    }
  }

  lemma {:induction false} EscapeCharWellFormed(c: char)
    ensures WellFormed(EscapeChar(c))
    ensures UnescapeBytes(EscapeChar(c)) == Utf8(c)
  {
    if IsUnreserved(c) {
      assert [c][1..] == "";
    } else {
      EscapeBytesWellFormed(Utf8(c));
    }
  }

  /**
   * Decoding what `Escape` wrote gives back the UTF-8 bytes of the input:
   * escaping loses nothing.
   */
  lemma {:induction false} UnescapeEscape(s: string)
    ensures WellFormed(Escape(s))
    ensures UnescapeBytes(Escape(s)) == Utf8String(s)
    decreases |s|
  {
    if |s| > 0 {
      EscapeCharWellFormed(s[0]);
      UnescapeEscape(s[1..]);
      WellFormedAppend(EscapeChar(s[0]), Escape(s[1..]));
      UnescapeAppend(EscapeChar(s[0]), Escape(s[1..]));
    }
  }

  /** A string of unreserved characters is left as it is. */
  lemma {:induction false} EscapeUnreserved(s: string)
    requires forall i :: 0 <= i < |s| ==> IsUnreserved(s[i])
    ensures Escape(s) == s
    decreases |s|
  {
    if |s| > 0 {
      EscapeUnreserved(s[1..]);
      assert s == [s[0]] + s[1..];
    }
  }

  /** Escaping distributes over concatenation. */
  lemma {:induction false} EscapeAppend(a: string, b: string)
    ensures Escape(a + b) == Escape(a) + Escape(b)
    decreases |a|
  {
    if |a| > 0 {
      assert (a + b)[0] == a[0];
      assert (a + b)[1..] == a[1..] + b;
      EscapeAppend(a[1..], b);
      calc {
        Escape(a + b);
        EscapeChar(a[0]) + Escape(a[1..] + b);
        EscapeChar(a[0]) + (Escape(a[1..]) + Escape(b));
        (EscapeChar(a[0]) + Escape(a[1..])) + Escape(b);
      }
    } else {
      assert a + b == b;
    }
  }

  /** A reserved character other than `%` never survives escaping. */
  lemma EscapedLacks(s: string, c: char)
    requires !IsUnreserved(c) && c != '%'
    ensures c !in Escape(s)
  {
    var r := Escape(s);
    forall i | 0 <= i < |r| ensures r[i] != c {
      assert IsUnreserved(r[i]) || r[i] == '%';
    }
  }
}
