/**
 * `AuthenticationHandlerFilter` of the web application: when a named
 * `HttpClient`'s handler pipeline is built, it appends an
 * `AuthenticationHandler` unless the client must not have one, and all the
 * handlers it appends share one lazily resolved authentication service.
 */
module WebAppExtensions {
  import opened Wrappers
  import Text
  import opened Authentication
  import opened Handlers

  const AuthServiceClientName: string := "IApiAuthenticationService"
  const ExplicitlyConfiguredClients: seq<string> := ["MesApi"]

  /**
   * `shouldSkip`: no name, a name containing the authentication service's
   * client name, or one of the clients that configure their own handler,
   * all compared ignoring case.
   */
  predicate ShouldSkip(name: Option<string>) {
    || name.None?
    || Text.ContainsIgnoreCase(name.value, AuthServiceClientName)
    || exists i :: 0 <= i < |ExplicitlyConfiguredClients| && Text.EqualsIgnoreCase(name.value, ExplicitlyConfiguredClients[i])
  }

  /** Two names that differ only in ASCII letter case. */
  predicate SameIgnoringCase(a: string, b: string) {
    |a| == |b| && forall i :: 0 <= i < |a| ==> Text.FoldUpper(a[i]) == Text.FoldUpper(b[i])
  }

  lemma {:induction false} StartsWithTransfer(a: string, b: string, p: string)
    requires SameIgnoringCase(a, b) && Text.StartsWithIgnoreCase(a, p)
    ensures Text.StartsWithIgnoreCase(b, p)
  {
    forall k | 0 <= k < |p| ensures Text.FoldUpper(b[k]) == Text.FoldUpper(p[k]) {
      assert Text.FoldUpper(a[k]) == Text.FoldUpper(b[k]);
    }
  }

  lemma {:induction false} ContainsTransfer(a: string, b: string, p: string)
    requires SameIgnoringCase(a, b) && Text.ContainsIgnoreCase(a, p)
    ensures Text.ContainsIgnoreCase(b, p)
  {
    var i :| 0 <= i <= |a| && Text.OccursAtIgnoreCase(a, p, i);
    assert SameIgnoringCase(a[i..], b[i..]) by {
      forall k | 0 <= k < |a[i..]| ensures Text.FoldUpper(a[i..][k]) == Text.FoldUpper(b[i..][k]) {
        assert a[i..][k] == a[i + k] && b[i..][k] == b[i + k];
      }
    }
    StartsWithTransfer(a[i..], b[i..], p);
    assert Text.OccursAtIgnoreCase(b, p, i);
  }

  /** Whether a client is skipped does not depend on the letter case of its name. */
  lemma ShouldSkipIgnoresCase(a: string, b: string)
    requires SameIgnoringCase(a, b)
    ensures ShouldSkip(Some(a)) <==> ShouldSkip(Some(b))
  {
    assert SameIgnoringCase(b, a);
    if Text.ContainsIgnoreCase(a, AuthServiceClientName) { ContainsTransfer(a, b, AuthServiceClientName); }
    if Text.ContainsIgnoreCase(b, AuthServiceClientName) { ContainsTransfer(b, a, AuthServiceClientName); }
    if Text.EqualsIgnoreCase(a, ExplicitlyConfiguredClients[0]) {
      StartsWithTransfer(a, b, ExplicitlyConfiguredClients[0]);
      assert Text.EqualsIgnoreCase(b, ExplicitlyConfiguredClients[0]);
    }
    if Text.EqualsIgnoreCase(b, ExplicitlyConfiguredClients[0]) {
      StartsWithTransfer(b, a, ExplicitlyConfiguredClients[0]);
      assert Text.EqualsIgnoreCase(a, ExplicitlyConfiguredClients[0]);
    }
  }

  /** A handler in a builder's `AdditionalHandlers`: one of ours, or one another filter put there. */
  datatype HandlerEntry = Auth(handler: AuthenticationHandler) | Foreign(id: nat)

  /** `HttpMessageHandlerBuilder`, reduced to its name and additional handlers. */
  class HttpMessageHandlerBuilder {
    const name: Option<string>
    var additionalHandlers: seq<HandlerEntry>

    constructor (name: Option<string>)
      ensures this.name == name && additionalHandlers == []
    {
      this.name := name;
      additionalHandlers := [];
    }
  }

  /**
   * `GetOrCreateAuthService` as a function of the cached instance and of
   * what the service provider would return: the result, and whether the
   * provider was asked.
   */
  function Resolve(cached: ApiAuthenticationService?, provided: ApiAuthenticationService?): (r: (ApiAuthenticationService?, bool)) {
    if cached != null then (cached, false) else (provided, true)
  }

  /** The results of successive calls, each with what the provider would return at that call. */
  function ResolveAll(cached: ApiAuthenticationService?, provided: seq<ApiAuthenticationService?>): (rs: seq<ApiAuthenticationService?>)
    ensures |rs| == |provided|
    decreases |provided|
  {
    if |provided| == 0 then []
    else
      var (s, _) := Resolve(cached, provided[0]);
      [s] + ResolveAll(s, provided[1..])
  }

  /**
   * Once a call has resolved an instance, every later call returns that
   * same instance, so every appended handler shares one token cache; before
   * that, a null from the provider is not remembered.
   */
  lemma {:induction false} SharedInstance(cached: ApiAuthenticationService?, provided: seq<ApiAuthenticationService?>, i: int, j: int)
    requires 0 <= i < j < |provided|
    ensures var rs := ResolveAll(cached, provided);
      rs[i] != null ==> rs[j] == rs[i]
    ensures var rs := ResolveAll(cached, provided);
      cached == null && rs[i] == null ==> rs[i + 1] == provided[i + 1]
    decreases |provided|
  {
    var (s, _) := Resolve(cached, provided[0]);
    var rs := ResolveAll(cached, provided);
    assert rs[1..] == ResolveAll(s, provided[1..]);
    if s != null {
      StaysCached(s, provided[1..]);
      assert rs[j] == rs[1..][j - 1];
      if i > 0 { assert rs[i] == rs[1..][i - 1]; }
    } else if i > 0 {
      SharedInstance(s, provided[1..], i - 1, j - 1);
    } else if j > 1 {
      SharedInstance(s, provided[1..], 0, j - 1);
    }
  }

  lemma {:induction false} StaysCached(cached: ApiAuthenticationService?, provided: seq<ApiAuthenticationService?>)
    requires cached != null
    ensures forall k :: 0 <= k < |provided| ==> ResolveAll(cached, provided)[k] == cached
    decreases |provided|
  {
    if |provided| > 0 {
      StaysCached(cached, provided[1..]);
      assert ResolveAll(cached, provided)[1..] == ResolveAll(cached, provided[1..]);
    }
  }

  class AuthenticationHandlerFilter {
    var cachedAuthService: ApiAuthenticationService?

    constructor ()
      ensures cachedAuthService == null
    {
      cachedAuthService := null;
    }

    /** `GetOrCreateAuthService`; `provided` is what `GetService` returns if asked. */
    method GetOrCreateAuthService(provided: ApiAuthenticationService?) returns (service: ApiAuthenticationService?, consulted: bool)
      modifies this
      ensures (service, consulted) == Resolve(old(cachedAuthService), provided)
      ensures cachedAuthService == service
    {
      if cachedAuthService != null {
        return cachedAuthService, false;
      }
      cachedAuthService := provided;
      return cachedAuthService, true;
    }

    /**
     * The action `Configure(next)` returns, applied to one builder: `next`
     * first (as a function of the handler list), then at most one new
     * `AuthenticationHandler` for a client that is not skipped and only if
     * a service was resolved.
     */
    method Configure(builder: HttpMessageHandlerBuilder, next: seq<HandlerEntry> -> seq<HandlerEntry>,
                     provided: ApiAuthenticationService?)
      returns (appended: Option<AuthenticationHandler>)
      modifies this, builder
      ensures var afterNext := next(old(builder.additionalHandlers));
        && (ShouldSkip(builder.name) ==> appended.None? && builder.additionalHandlers == afterNext
                                         && cachedAuthService == old(cachedAuthService))
        && (!ShouldSkip(builder.name) ==>
              var (service, _) := Resolve(old(cachedAuthService), provided);
              && cachedAuthService == service
              && (service == null ==> appended.None? && builder.additionalHandlers == afterNext)
              && (service != null ==>
                    && appended.Some? && fresh(appended.value)
                    && appended.value.authService == service && appended.value.defaultCompanyId.None?
                    && builder.additionalHandlers == afterNext + [Auth(appended.value)]))
    {
      builder.additionalHandlers := next(builder.additionalHandlers);
      var shouldSkip := builder.name.None?
        || Text.ContainsIgnoreCase(builder.name.value, AuthServiceClientName)
        || Text.EqualsIgnoreCase(builder.name.value, ExplicitlyConfiguredClients[0]);
      assert shouldSkip == ShouldSkip(builder.name);
      appended := None;
      if !shouldSkip {
        var authService, _ := GetOrCreateAuthService(provided);
        if authService != null {
          var authHandler := new AuthenticationHandler(authService, None);
          builder.additionalHandlers := builder.additionalHandlers + [Auth(authHandler)];
          appended := Some(authHandler);
        }
      }
    }
  }
}
