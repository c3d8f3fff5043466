/**
 * The string primitives of the .NET base library that the clients rely on:
 * `char.IsWhiteSpace`, `string.IsNullOrEmpty`, `string.IsNullOrWhiteSpace`,
 * ordinal case-insensitive comparison, `ToLowerInvariant`, `Contains`,
 * `string.Join` and splitting on one separator character.
 */
module Text {
  import opened Wrappers

  /** `char.IsWhiteSpace`: the characters Unicode marks White_Space. */
  predicate IsWhiteSpace(c: char) {
    || ('\U{0009}' <= c <= '\U{000D}')
    || c == ' ' || c == '\U{0085}' || c == '\U{00A0}' || c == '\U{1680}'
    || ('\U{2000}' <= c <= '\U{200A}')
    || c == '\U{2028}' || c == '\U{2029}' || c == '\U{202F}' || c == '\U{205F}' || c == '\U{3000}'
  }

  /** `string.IsNullOrEmpty`. */
  predicate IsNullOrEmpty(s: Option<string>) {
    s.None? || s.value == ""
  }

  /** `string.IsNullOrWhiteSpace`. */
  predicate IsNullOrWhiteSpace(s: Option<string>) {
    s.None? || forall i :: 0 <= i < |s.value| ==> IsWhiteSpace(s.value[i])
  }

  /** The value of a string that is neither null nor empty, `None` otherwise. */
  function NonEmpty(s: Option<string>): (r: Option<string>)
    ensures r.Some? <==> !IsNullOrEmpty(s)
    ensures r.Some? ==> r == s
  {
    if IsNullOrEmpty(s) then None else s
  }

  /** Upper-case folding as ordinal ignore-case comparison performs it on ASCII letters. */
  function FoldUpper(c: char): char {
    if 'a' <= c <= 'z' then (c as int - 32) as char else c
  }

  /** `char.ToLowerInvariant` on ASCII letters. */
  function FoldLower(c: char): char {
    if 'A' <= c <= 'Z' then (c as int + 32) as char else c
  }

  /** `string.ToLowerInvariant`. */
  function ToLower(s: string): (r: string)
    ensures |r| == |s|
    ensures forall i :: 0 <= i < |s| ==> r[i] == FoldLower(s[i])
  {
    seq(|s|, i requires 0 <= i < |s| => FoldLower(s[i]))
  }

  /** `s.StartsWith(prefix, StringComparison.OrdinalIgnoreCase)`. */
  predicate StartsWithIgnoreCase(s: string, prefix: string) {
    |prefix| <= |s| && forall i :: 0 <= i < |prefix| ==> FoldUpper(s[i]) == FoldUpper(prefix[i])
  }

  /** `string.Equals(a, b, StringComparison.OrdinalIgnoreCase)`. */
  predicate EqualsIgnoreCase(a: string, b: string) {
    |a| == |b| && StartsWithIgnoreCase(a, b)
  }

  /** `sub` occurs in `s` at position `i`. */
  predicate OccursAt(s: string, sub: string, i: int) {
    0 <= i && i + |sub| <= |s| && s[i..i + |sub|] == sub
  }

  /** `s.Contains(sub)` (ordinal). */
  predicate Contains(s: string, sub: string) {
    exists i :: 0 <= i <= |s| && OccursAt(s, sub, i)
  }

  /** `sub` occurs in `s` at position `i`, ignoring ASCII case. */
  predicate OccursAtIgnoreCase(s: string, sub: string, i: int) {
    0 <= i && i + |sub| <= |s| && StartsWithIgnoreCase(s[i..], sub)
  }

  /** A pattern with no upper-case ASCII letter. */
  predicate NoUpper(p: string) {
    forall k | 0 <= k < |p| :: !('A' <= p[k] <= 'Z')
  }

  /** Lower-casing a character gives `c` exactly when it equals `c` ignoring case. */
  lemma FoldLowerMatch(x: char, c: char)
    requires !('A' <= c <= 'Z')
    ensures FoldLower(x) == c <==> FoldUpper(x) == FoldUpper(c)
  {
  }

  /**
   * Against a pattern with no upper-case letter, a match in the lower-cased
   * text is a case-insensitive match in the text itself.
   */
  lemma LowerMatch(s: string, p: string, i: int)
    requires NoUpper(p) && 0 <= i && i + |p| <= |s|
    ensures OccursAt(ToLower(s), p, i) <==> OccursAtIgnoreCase(s, p, i)
  {
    var low := ToLower(s);
    forall k | 0 <= k < |p|
      ensures low[i..i + |p|][k] == p[k] <==> FoldUpper(s[i..][k]) == FoldUpper(p[k])
    {
      FoldLowerMatch(s[i + k], p[k]);
    }
    if OccursAtIgnoreCase(s, p, i) {
      assert low[i..i + |p|] == p;
    }
  }

  /** `s.Contains(sub, StringComparison.OrdinalIgnoreCase)`. */
  predicate ContainsIgnoreCase(s: string, sub: string) {
    exists i :: 0 <= i <= |s| && OccursAtIgnoreCase(s, sub, i)
  }

  /** `string.Join(sep, parts)` for a one-character separator. */
  function Join(parts: seq<string>, sep: char): string {
    if |parts| == 0 then ""
    else if |parts| == 1 then parts[0]
    else parts[0] + [sep] + Join(parts[1..], sep)
  }

  /** Joining one more part appends the separator and the part. */
  lemma {:induction false} JoinSnoc(parts: seq<string>, p: string, sep: char)
    requires |parts| > 0
    ensures Join(parts + [p], sep) == Join(parts, sep) + [sep] + p
    decreases |parts|
  {
    if |parts| == 1 {
      assert (parts + [p])[1..] == [p];
    } else {
      JoinSnoc(parts[1..], p, sep);
      assert (parts + [p])[1..] == parts[1..] + [p];
    }
  }

  /** Splitting on every occurrence of `sep`: the inverse of `Join` (see SplitJoin). */
  function Split(s: string, sep: char): (parts: seq<string>)
    ensures |parts| > 0
  {
    if |s| == 0 then [""]
    else
      var rest := Split(s[1..], sep);
      if s[0] == sep then [""] + rest else [[s[0]] + rest[0]] + rest[1..]
  }

  /** No part contains the separator. */
  predicate Separable(parts: seq<string>, sep: char) {
    forall i :: 0 <= i < |parts| ==> sep !in parts[i]
  }

  lemma {:induction false} SplitWithout(s: string, sep: char)
    requires sep !in s
    ensures Split(s, sep) == [s]
    decreases |s|
  {
    if |s| > 0 {
      SplitWithout(s[1..], sep);
      assert [s[0]] + s[1..] == s;
    }
  }

  lemma {:induction false} SplitAt(a: string, b: string, sep: char)
    requires sep !in a
    ensures Split(a + [sep] + b, sep) == [a] + Split(b, sep)
    decreases |a|
  {
    if |a| == 0 {
      assert a + [sep] + b == [sep] + b;
      assert ([sep] + b)[1..] == b;
    } else {
      SplitAt(a[1..], b, sep);
      assert (a + [sep] + b)[1..] == a[1..] + [sep] + b;
      assert [a[0]] + a[1..] == a;
    }
  }

  /** Splitting a join on its separator gives the parts back. */
  lemma {:induction false} SplitJoin(parts: seq<string>, sep: char)
    requires |parts| > 0 && Separable(parts, sep)
    ensures Split(Join(parts, sep), sep) == parts
    decreases |parts|
  {
    if |parts| == 1 {
      SplitWithout(parts[0], sep);
    } else {
      SplitJoin(parts[1..], sep);
      SplitAt(parts[0], Join(parts[1..], sep), sep);
      assert [parts[0]] + parts[1..] == parts;
    }
  }

  /** The characters of a join are those of the parts and the separator. */
  lemma {:induction false} JoinChars(parts: seq<string>, sep: char, c: char)
    requires c in Join(parts, sep)
    ensures c == sep || exists i :: 0 <= i < |parts| && c in parts[i]
    decreases |parts|
  {
    if |parts| > 1 {
      if c in parts[0] {
      } else if c == sep {
      } else {
        assert c in Join(parts[1..], sep);
        JoinChars(parts[1..], sep, c);
        var i :| 0 <= i < |parts[1..]| && c in parts[1..][i];
        assert c in parts[i + 1];
      }
    }
  }
}
