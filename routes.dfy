/**
 * Route composition shared by the clients: `$"{BaseRoute}/{id}"` and
 * `$"{BaseRoute}/{id}/{action}"`, with a reader that recovers the id and the
 * action, so that distinct calls are shown to go to distinct URLs.
 */
module Routes {
  import opened Wrappers
  import Decimal

  /** `$"{route}/{segment}"`. */
  function Child(route: string, segment: string): string {
    route + "/" + segment
  }

  /** `$"{route}/{id}"` for a `long` id. */
  function Member(route: string, id: int): string {
    Child(route, Decimal.IntToString(id))
  }

  /** `$"{route}/{id}/{action}"`. */
  function MemberAction(route: string, id: int, action: string): string {
    Child(Member(route, id), action)
  }

  /** Everything up to the first `/`, and what follows it (`None` without a `/`). */
  function SplitFirst(s: string): (r: (string, Option<string>))
    ensures r.1.None? ==> r.0 == s && '/' !in s
    ensures r.1.Some? ==> s == r.0 + "/" + r.1.value && '/' !in r.0
    decreases |s|
  {
    if |s| == 0 then ("", None)
    else if s[0] == '/' then ("", Some(s[1..]))
    else
      var (head, tail) := SplitFirst(s[1..]);
      ([s[0]] + head, tail)
  }

  lemma {:induction false} SplitFirstOf(a: string, b: Option<string>)
    requires '/' !in a
    ensures SplitFirst(if b.Some? then a + "/" + b.value else a) == (a, b)
    decreases |a|
  {
    var s := if b.Some? then a + "/" + b.value else a;
    if |a| > 0 {
      SplitFirstOf(a[1..], b);
      assert s[1..] == if b.Some? then a[1..] + "/" + b.value else a[1..];
      assert [a[0]] + a[1..] == a;
    } else if b.Some? {
      assert s == "/" + b.value;
      assert s[1..] == b.value;
    }
  }

  /**
   * Reading an endpoint under `route`: the id and, when a further segment
   * follows, the rest of the path.
   */
  function ParseMember(route: string, endpoint: string): Option<(int, Option<string>)> {
    var prefix := route + "/";
    if |prefix| <= |endpoint| && endpoint[..|prefix|] == prefix then
      var (idText, rest) := SplitFirst(endpoint[|prefix|..]);
      var id := Decimal.ParseLong(idText);
      if id.Some? then Some((id.value, rest)) else None
    else None
  }

  lemma IdHasNoSlash(id: int)
    ensures '/' !in Decimal.IntToString(id)
  {
  }

  /** `Member` reads back as its id. */
  lemma ParseMemberOf(route: string, id: int)
    requires Decimal.InLong(id)
    ensures ParseMember(route, Member(route, id)) == Some((id, None))
  {
    var e := Member(route, id);
    var text := Decimal.IntToString(id);
    assert e[..|route + "/"|] == route + "/";
    assert e[|route + "/"|..] == text;
    IdHasNoSlash(id);
    SplitFirstOf(text, None);
    Decimal.ParseLongOfIntToString(id);
  }

  /** `MemberAction` reads back as its id and action. */
  lemma ParseMemberActionOf(route: string, id: int, action: string)
    requires Decimal.InLong(id)
    ensures ParseMember(route, MemberAction(route, id, action)) == Some((id, Some(action)))
  {
    var e := MemberAction(route, id, action);
    var text := Decimal.IntToString(id);
    assert e[..|route + "/"|] == route + "/";
    assert e[|route + "/"|..] == text + "/" + action;
    IdHasNoSlash(id);
    SplitFirstOf(text, Some(action));
    Decimal.ParseLongOfIntToString(id);
  }

  /**
   * Distinct (id, action) pairs under one route give distinct endpoints,
   * and no member endpoint is an action endpoint.
   */
  lemma RoutesDistinct(route: string, id1: int, a1: string, id2: int, a2: string)
    requires Decimal.InLong(id1) && Decimal.InLong(id2)
    ensures MemberAction(route, id1, a1) == MemberAction(route, id2, a2) ==> id1 == id2 && a1 == a2
    ensures Member(route, id1) == Member(route, id2) ==> id1 == id2
    ensures Member(route, id1) != MemberAction(route, id2, a2)
  {
    ParseMemberActionOf(route, id1, a1);
    ParseMemberActionOf(route, id2, a2);
    ParseMemberOf(route, id1);
    ParseMemberOf(route, id2);
  }

  /** A word: a segment that starts with a lower-case letter, as every fixed action name does. */
  predicate IsWord(segment: string) {
    |segment| > 0 && 'a' <= segment[0] <= 'z'
  }

  /** An endpoint whose first segment under `route` is a word never reads as a record. */
  lemma WordIsNotMember(route: string, segment: string)
    requires IsWord(segment)
    ensures ParseMember(route, Child(route, segment)) == None
  {
    var e := Child(route, segment);
    var prefix := route + "/";
    assert e[..|prefix|] == prefix;
    assert e[|prefix|..] == segment;
    var (head, tail) := SplitFirst(segment);
    assert head[0] == segment[0] by {
      if tail.Some? {
        assert segment == head + ("/" + tail.value);
      }
    }
    assert Decimal.TrimStart(head) == head;
    var t := Decimal.TrimEnd(head);
    assert |t| > 0 ==> t[0] == head[0];
    assert Decimal.SignedDigits(t) == None by {
      if |t| > 0 {
        assert !Decimal.IsDigit(t[0]);
      }
    }
  }

  /**
   * A collection endpoint (`{route}/bulk`, `{route}/validate`, ...) is
   * neither a record's endpoint nor one of its action endpoints.
   */
  lemma WordIsNeitherMemberNorAction(route: string, segment: string, id: int, action: string)
    requires IsWord(segment) && Decimal.InLong(id)
    ensures Child(route, segment) != Member(route, id)
    ensures Child(route, segment) != MemberAction(route, id, action)
  {
    WordIsNotMember(route, segment);
    ParseMemberOf(route, id);
    ParseMemberActionOf(route, id, action);
  }
}
