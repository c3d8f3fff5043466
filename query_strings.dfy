/**
 * Query strings as the clients build them: a list of `name=value` parts,
 * appended one by one when a value is present, then joined as
 * `"?" + string.Join("&", parts)`, or "" when there is no part.
 */
module QueryStrings {
  import opened Wrappers
  import Text

  datatype Param = Param(name: string, value: string)

  /** `$"{name}={value}"`. */
  function Render(p: Param): string {
    p.name + "=" + p.value
  }

  function RenderAll(ps: seq<Param>): (parts: seq<string>)
    ensures |parts| == |ps|
    ensures forall i :: 0 <= i < |ps| ==> parts[i] == Render(ps[i])
  {
    seq(|ps|, i requires 0 <= i < |ps| => Render(ps[i]))
  }

  /** `queryParams.Any() ? "?" + string.Join("&", queryParams) : ""`. */
  function QueryString(parts: seq<string>): (q: string)
    ensures q == "" <==> parts == []
    ensures q != "" ==> q[0] == '?'
  {
    if |parts| == 0 then "" else "?" + Text.Join(parts, '&')
  }

  /** A parameter the source may emit: `None` when its guard leaves it out. */
  datatype Candidate = Candidate(name: string, value: Option<string>)

  /** The candidates whose value is present, in candidate order. */
  function Present(cs: seq<Candidate>): (ps: seq<Param>)
    ensures |ps| <= |cs|
    decreases |cs|
  {
    if |cs| == 0 then []
    else
      var head := if cs[0].value.Some? then [Param(cs[0].name, cs[0].value.value)] else [];
      head + Present(cs[1..])
  }

  /** Emitting candidates in two runs emits the two runs' parameters in order. */
  lemma {:induction false} PresentAppend(a: seq<Candidate>, b: seq<Candidate>)
    ensures Present(a + b) == Present(a) + Present(b)
    decreases |a|
  {
    if |a| == 0 {
      assert a + b == b;
    } else {
      var head := if a[0].value.Some? then [Param(a[0].name, a[0].value.value)] else [];
      assert (a + b)[0] == a[0];
      assert (a + b)[1..] == a[1..] + b;
      PresentAppend(a[1..], b);
      calc {
        Present(a + b);
        head + Present(a[1..] + b);
        head + (Present(a[1..]) + Present(b));
        (head + Present(a[1..])) + Present(b);
        Present(a) + Present(b);
      }
    }
  }

  /** One more conditional `Add`: the step each query builder repeats. */
  lemma PresentSnoc(cs: seq<Candidate>, c: Candidate)
    ensures Present(cs + [c]) == Present(cs) + (if c.value.Some? then [Param(c.name, c.value.value)] else [])
  {
    PresentAppend(cs, [c]);
    assert [c][1..] == [];
  }

  /** A query builder's running list after one more conditional `Add`. */
  function AddIfPresent(parts: seq<string>, c: Candidate): seq<string> {
    if c.value.Some? then parts + [Render(Param(c.name, c.value.value))] else parts
  }

  /** The value of the first parameter with the given name. */
  function Lookup(ps: seq<Param>, name: string): (v: Option<string>)
    ensures v.Some? ==> exists i :: 0 <= i < |ps| && ps[i] == Param(name, v.value)
    decreases |ps|
  {
    if |ps| == 0 then None
    else if ps[0].name == name then Some(ps[0].value)
    else Lookup(ps[1..], name)
  }

  function Names(cs: seq<Candidate>): (ns: seq<string>)
    ensures |ns| == |cs|
    ensures forall i :: 0 <= i < |cs| ==> ns[i] == cs[i].name
  {
    seq(|cs|, i requires 0 <= i < |cs| => cs[i].name)
  }

  predicate Distinct(ns: seq<string>) {
    forall i, j :: 0 <= i < j < |ns| ==> ns[i] != ns[j]
  }

  /**
   * With distinct names, looking a name up among the emitted parameters
   * gives exactly its candidate's value: present values appear, absent ones
   * do not, and no other name appears.
   */
  lemma {:induction false} LookupPresent(cs: seq<Candidate>, name: string)
    requires Distinct(Names(cs))
    ensures name !in Names(cs) ==> Lookup(Present(cs), name).None?
    ensures forall i :: 0 <= i < |cs| && cs[i].name == name ==> Lookup(Present(cs), name) == cs[i].value
    decreases |cs|
  {
    if |cs| > 0 {
      assert Names(cs[1..]) == Names(cs)[1..];
      LookupPresent(cs[1..], name);
      var head := if cs[0].value.Some? then [Param(cs[0].name, cs[0].value.value)] else [];
      if cs[0].name != name {
        LookupSkip(head, Present(cs[1..]), name);
      } else {
        forall j | 0 <= j < |cs| - 1 ensures Names(cs[1..])[j] != name {
          assert Names(cs)[0] != Names(cs)[j + 1];
        }
        if cs[0].value.None? {
          assert head + Present(cs[1..]) == Present(cs[1..]);
        }
      }
    }
  }

  lemma LookupSkip(head: seq<Param>, rest: seq<Param>, name: string)
    requires forall i :: 0 <= i < |head| ==> head[i].name != name
    requires |head| <= 1
    ensures Lookup(head + rest, name) == Lookup(rest, name)
  {
    if |head| == 1 {
      assert (head + rest)[1..] == rest;
    } else {
      assert head + rest == rest;
    }
  }

  /** Splitting one part at its first `=`. */
  function ParseParam(s: string): (p: Param)
    decreases |s|
  {
    if |s| == 0 then Param("", "")
    else if s[0] == '=' then Param("", s[1..])
    else
      var rest := ParseParam(s[1..]);
      Param([s[0]] + rest.name, rest.value)
  }

  /** Reading a query string back: drop `?`, split on `&`, split each part at its first `=`. */
  function ParseQuery(q: string): seq<Param> {
    if |q| == 0 || q[0] != '?' then []
    else
      var parts := Text.Split(q[1..], '&');
      seq(|parts|, i requires 0 <= i < |parts| => ParseParam(parts[i]))
  }

  /** A parameter that reads back unambiguously: no `=` in its name, no `&` anywhere. */
  predicate Safe(p: Param) {
    '=' !in p.name && '&' !in p.name && '&' !in p.value
  }

  lemma {:induction false} ParseRender(p: Param)
    requires '=' !in p.name
    ensures ParseParam(Render(p)) == p
    decreases |p.name|
  {
    if |p.name| == 0 {
      assert Render(p) == "=" + p.value;
      assert Render(p)[1..] == p.value;
    } else {
      ParseRender(Param(p.name[1..], p.value));
      assert Render(p)[1..] == Render(Param(p.name[1..], p.value));
      assert [p.name[0]] + p.name[1..] == p.name;
    }
  }

  /** A query string of safe parameters reads back as those parameters, in order. */
  lemma ParseQueryString(ps: seq<Param>)
    requires forall i :: 0 <= i < |ps| ==> Safe(ps[i])
    ensures ParseQuery(QueryString(RenderAll(ps))) == ps
  {
    if |ps| > 0 {
      var parts := RenderAll(ps);
      forall i | 0 <= i < |parts| ensures '&' !in parts[i] {
        assert parts[i] == ps[i].name + "=" + ps[i].value;
      }
      Text.SplitJoin(parts, '&');
      var q := QueryString(parts);
      assert q[1..] == Text.Join(parts, '&');
      forall i | 0 <= i < |ps| ensures ParseParam(parts[i]) == ps[i] {
        ParseRender(ps[i]);
      }
    }
  }

  /** The value a URL's query string gives a name, after the route. */
  function QueryValue(query: string, name: string): Option<string> {
    Lookup(ParseQuery(query), name)
  }

  /** The query string a builder writes for its candidates. */
  function BuildQuery(cs: seq<Candidate>): string {
    QueryString(RenderAll(Present(cs)))
  }

  /**
   * What a query builder promises in one statement: with distinct, safe
   * candidates, the query it writes gives each name exactly its candidate's
   * value, and nothing for a name that is not a candidate.
   */
  lemma QueryValues(cs: seq<Candidate>, name: string)
    requires Distinct(Names(cs))
    requires forall i :: 0 <= i < |cs| ==> '=' !in cs[i].name && '&' !in cs[i].name
    requires forall i :: 0 <= i < |cs| && cs[i].value.Some? ==> '&' !in cs[i].value.value
    ensures name !in Names(cs) ==> QueryValue(BuildQuery(cs), name).None?
    ensures forall i :: 0 <= i < |cs| && cs[i].name == name ==> QueryValue(BuildQuery(cs), name) == cs[i].value
  {
    var ps := Present(cs);
    PresentSafe(cs);
    ParseQueryString(ps);
    LookupPresent(cs, name);
  }

  lemma {:induction false} PresentSafe(cs: seq<Candidate>)
    requires forall i :: 0 <= i < |cs| ==> '=' !in cs[i].name && '&' !in cs[i].name
    requires forall i :: 0 <= i < |cs| && cs[i].value.Some? ==> '&' !in cs[i].value.value
    ensures forall i :: 0 <= i < |Present(cs)| ==> Safe(Present(cs)[i])
    decreases |cs|
  {
    if |cs| > 0 {
      PresentSafe(cs[1..]);
    }
  }
}
