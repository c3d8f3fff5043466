/**
 * The parameters the clients' query builders emit: ids written in decimal
 * when present, strings percent-escaped when neither null nor empty, dates
 * as `yyyy-MM-dd` when present, and parameters that are always emitted. A
 * builder appends them one conditional `Add` at a time; `Emit` is the proof
 * step for one such `Add`, `ReadBack` what a finished query promises.
 */
module QueryParams {
  import opened Wrappers
  import Text
  import Decimal
  import PercentEncoding
  import Dates
  import opened QueryStrings

  /**
   * The value `if (x.HasValue) queryParams.Add($"{name}={x.Value}")` emits
   * for a `long?` or `int?`: present exactly when the id is, and then its
   * decimal text, which parses back to the id.
   */
  function IdValue(v: Option<Decimal.Long>): (r: Option<string>)
    ensures r.Some? <==> v.Some?
    ensures v.Some? ==> Decimal.ParseLong(r.value) == Some(v.value as int)
    ensures r.Some? ==> '&' !in r.value
  {
    if v.Some? then
      Decimal.ParseLongOfIntToString(v.value);
      IntHasNoAmpersand(v.value);
      Some(Decimal.IntToString(v.value))
    else
      None
  }

  /**
   * The value `if (!string.IsNullOrEmpty(s)) queryParams.Add($"{name}={Uri.EscapeDataString(s)}")`
   * emits: present exactly when the string is neither null nor empty, and
   * then percent-escaped text that decodes to the string's UTF-8 bytes.
   */
  function EscapedValue(v: Option<string>): (r: Option<string>)
    ensures r.Some? <==> !Text.IsNullOrEmpty(v)
    ensures r.Some? ==> PercentEncoding.UnescapeBytes(r.value) == PercentEncoding.Utf8String(v.value)
    ensures r.Some? ==> '&' !in r.value
  {
    if Text.IsNullOrEmpty(v) then
      None
    else
      PercentEncoding.UnescapeEscape(v.value);
      EscapedHasNoAmpersand(v.value);
      Some(PercentEncoding.Escape(v.value))
  }

  /**
   * The value `if (d.HasValue) queryParams.Add($"{name}={d.Value:yyyy-MM-dd}")`
   * emits: present exactly when the date is, and then text that parses back
   * to its calendar date (the time of day is dropped).
   */
  function DateValue(v: Option<Dates.DateTime>): (r: Option<string>)
    ensures r.Some? <==> v.Some?
    ensures v.Some? ==> Dates.ParseDate(r.value) == Some(v.value.date)
    ensures r.Some? ==> '&' !in r.value
  {
    if v.Some? then
      Dates.ParseFormatDate(v.value.date);
      DateHasNoAmpersand(v.value.date);
      Some(Dates.FormatDate(v.value.date))
    else
      None
  }

  /** A parameter name that cannot be confused with the separators. */
  predicate Plain(name: string) {
    '=' !in name && '&' !in name
  }

  /** A candidate that reads back unambiguously once emitted. */
  predicate Encoded(c: Candidate) {
    Plain(c.name) && (c.value.Some? ==> '&' !in c.value.value)
  }

  lemma IntHasNoAmpersand(n: int)
    ensures '&' !in Decimal.IntToString(n)
  {
    var s := Decimal.IntToString(n);
    forall i | 0 <= i < |s| ensures s[i] != '&' {
      if n < 0 && i > 0 {
        assert s[1..][i - 1] == s[i];
      }
    }
  }

  lemma EscapedHasNoAmpersand(s: string)
    ensures '&' !in PercentEncoding.Escape(s)
  {
    var r := PercentEncoding.Escape(s);
    forall i | 0 <= i < |r| ensures r[i] != '&' {
      assert PercentEncoding.IsUnreserved(r[i]) || r[i] == '%';
    }
  }

  lemma DateHasNoAmpersand(d: Dates.CalendarDate)
    ensures '&' !in Dates.FormatDate(d)
  {
    var s := Dates.FormatDate(d);
    forall i | 0 <= i < |s| ensures s[i] != '&' {
      if i < 4 {
        assert s[..4][i] == s[i];
      } else if 4 < i < 7 {
        assert s[5..7][i - 5] == s[i];
      } else if 7 < i {
        assert s[8..][i - 8] == s[i];
      }
    }
  }

  /**
   * One conditional `Add` of a builder: adding the candidate to the
   * rendered list of those before it renders them all.
   */
  lemma Emit(done: seq<Candidate>, c: Candidate)
    ensures RenderAll(Present(done + [c])) == AddIfPresent(RenderAll(Present(done)), c)
  {
    PresentSnoc(done, c);
    var ps := Present(done);
    if c.value.Some? {
      var p := Param(c.name, c.value.value);
      assert RenderAll(ps + [p]) == RenderAll(ps) + [Render(p)];
    }
  }

  /*
   * The four kinds of `Add` the builders make. Each is one guarded append of
   * `$"{name}={value}"`; the ghost `done` is the list of candidates the
   * builder has considered so far, and the contract says that the list of
   * strings renders them and then this one.
   */

  /** `if (v.HasValue) queryParams.Add($"{name}={v.Value}")`. */
  method AddIfHasValue(queryParams: seq<string>, name: string, v: Option<Decimal.Long>, ghost done: seq<Candidate>)
    returns (next: seq<string>)
    requires queryParams == RenderAll(Present(done))
    ensures next == RenderAll(Present(done + [Candidate(name, IdValue(v))]))
    ensures |next| >= |queryParams|
  {
    next := queryParams;
    if v.Some? {
      next := next + [name + "=" + Decimal.IntToString(v.value)];
    }
    Emit(done, Candidate(name, IdValue(v)));
  }

  /** `if (!string.IsNullOrEmpty(s)) queryParams.Add($"{name}={Uri.EscapeDataString(s)}")`. */
  method AddIfNotEmpty(queryParams: seq<string>, name: string, v: Option<string>, ghost done: seq<Candidate>)
    returns (next: seq<string>)
    requires queryParams == RenderAll(Present(done))
    ensures next == RenderAll(Present(done + [Candidate(name, EscapedValue(v))]))
    ensures |next| >= |queryParams|
  {
    next := queryParams;
    if !Text.IsNullOrEmpty(v) {
      next := next + [name + "=" + PercentEncoding.Escape(v.value)];
    }
    Emit(done, Candidate(name, EscapedValue(v)));
  }

  /** `if (d.HasValue) queryParams.Add($"{name}={d.Value:yyyy-MM-dd}")`. */
  method AddDateIfHasValue(queryParams: seq<string>, name: string, v: Option<Dates.DateTime>, ghost done: seq<Candidate>)
    returns (next: seq<string>)
    requires queryParams == RenderAll(Present(done))
    ensures next == RenderAll(Present(done + [Candidate(name, DateValue(v))]))
    ensures |next| >= |queryParams|
  {
    next := queryParams;
    if v.Some? {
      next := next + [name + "=" + Dates.FormatDate(v.value.date)];
    }
    Emit(done, Candidate(name, DateValue(v)));
  }

  /** `queryParams.Add($"{name}={value}")`. */
  method AddAlways(queryParams: seq<string>, name: string, value: string, ghost done: seq<Candidate>)
    returns (next: seq<string>)
    requires queryParams == RenderAll(Present(done))
    ensures next == RenderAll(Present(done + [Candidate(name, Some(value))]))
    ensures |next| == |queryParams| + 1
  {
    next := queryParams + [name + "=" + value];
    Emit(done, Candidate(name, Some(value)));
  }

  /** `queryParams.Any() ? "?" + string.Join("&", queryParams) : ""` (also written with `Count > 0`). */
  function JoinQuery(queryParams: seq<string>): (q: string)
    ensures q == QueryString(queryParams)
  {
    if |queryParams| > 0 then "?" + Text.Join(queryParams, '&') else ""
  }

  /**
   * A candidate list a query can be read back from: distinct names, every
   * candidate encoded.
   */
  predicate Readable(cs: seq<Candidate>) {
    Distinct(Names(cs)) && forall c | c in cs :: Encoded(c)
  }

  /** A value that cannot end its parameter early. */
  predicate NoAmpersand(v: Option<string>) {
    v.Some? ==> '&' !in v.value
  }

  /** The candidates with the given names and values, position by position. */
  function Zip(ns: seq<string>, vs: seq<Option<string>>): (cs: seq<Candidate>)
    requires |ns| == |vs|
    ensures |cs| == |ns|
    ensures forall i :: 0 <= i < |cs| ==> cs[i] == Candidate(ns[i], vs[i])
  {
    seq(|ns|, i requires 0 <= i < |ns| => Candidate(ns[i], vs[i]))
  }

  /**
   * A builder's list is readable when its names are distinct and plain and
   * none of its values holds an `&`: the check splits into one about the
   * names, which are constants, and one about each value.
   */
  lemma ReadableZip(ns: seq<string>, vs: seq<Option<string>>)
    requires |ns| == |vs| && Distinct(ns)
    requires forall n | n in ns :: Plain(n)
    requires forall v | v in vs :: NoAmpersand(v)
    ensures Readable(Zip(ns, vs))
  {
    var cs := Zip(ns, vs);
    assert Names(cs) == ns;
    forall c | c in cs ensures Encoded(c) {
      var i :| 0 <= i < |cs| && cs[i] == c;
      assert ns[i] in ns && vs[i] in vs;
    }
  }

  /**
   * What a finished query promises: it reads back as exactly the present
   * candidates — each candidate name gives its value, or nothing when its
   * guard left it out, and no other name appears.
   */
  lemma ReadBack(cs: seq<Candidate>, name: string)
    requires Readable(cs)
    ensures name !in Names(cs) ==> QueryValue(BuildQuery(cs), name).None?
    ensures forall i :: 0 <= i < |cs| && cs[i].name == name ==> QueryValue(BuildQuery(cs), name) == cs[i].value
  {
    assert forall i :: 0 <= i < |cs| ==> cs[i] in cs;
    QueryValues(cs, name);
  }
}
