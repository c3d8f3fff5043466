/**
 * `AuthenticationHandler`: the delegating handler that puts a Bearer token
 * (section 2.1 of RFC 6750) on every outgoing request, leaves the token
 * endpoint alone, and on a 401 (section 15.5.2 of RFC 9110) clears the
 * token cache and sends the request once more.
 */
module Handlers {
  import opened Wrappers
  import Text
  import Decimal
  import opened Authentication

  /** An outgoing request: the absolute path of its URI, its `X-Company-Id` values and its Authorization header. */
  class HttpRequestMessage {
    const absolutePath: Option<string>
    const companyIdValues: Option<seq<string>>
    var authorization: Option<AuthHeader>

    constructor (absolutePath: Option<string>, companyIdValues: Option<seq<string>>, authorization: Option<AuthHeader>)
      ensures this.absolutePath == absolutePath && this.companyIdValues == companyIdValues
      ensures this.authorization == authorization
    {
      this.absolutePath := absolutePath;
      this.companyIdValues := companyIdValues;
      this.authorization := authorization;
    }
  }

  datatype HttpResponse = HttpResponse(status: int, content: string)

  /** What the inner handler (`base.SendAsync`) did with one send. */
  datatype Delivery = Delivered(response: HttpResponse) | Faulted(message: string)

  /** What `SendAsync` gives its caller: a response, or the exception it lets through. */
  datatype HandlerResult = Returned(response: HttpResponse) | Raised(message: string)

  /** One `GetTokenAsync` call's inputs: its two clock readings and the token endpoint's reply. */
  datatype TokenCall = TokenCall(now: Ticks, recheckAt: Ticks, reply: TokenReply)

  /** `new AuthenticationHeaderValue("Bearer", token)`. */
  function Bearer(token: string): AuthHeader {
    AuthHeader("Bearer", token)
  }

  /** `IsTokenEndpoint`: the lower-cased path contains "/api/auth/token"; false for a null URI. */
  predicate IsTokenEndpoint(path: Option<string>) {
    path.Some? && Text.Contains(Text.ToLower(path.value), TokenEndpoint)
  }

  /**
   * The token endpoint is recognised in any ASCII letter case, and the path
   * the service itself posts to is one: the handler never intercepts the
   * service's own token request.
   */
  lemma IsTokenEndpointIgnoresCase(path: string)
    ensures IsTokenEndpoint(Some(path)) <==> Text.ContainsIgnoreCase(path, TokenEndpoint)
    ensures IsTokenEndpoint(Some(TokenEndpoint))
    ensures !IsTokenEndpoint(None)
  {
    var low := Text.ToLower(path);
    assert Text.NoUpper(TokenEndpoint);
    if IsTokenEndpoint(Some(path)) {
      var i :| 0 <= i <= |low| && Text.OccursAt(low, TokenEndpoint, i);
      Text.LowerMatch(path, TokenEndpoint, i);
    }
    if Text.ContainsIgnoreCase(path, TokenEndpoint) {
      var i :| 0 <= i <= |path| && Text.OccursAtIgnoreCase(path, TokenEndpoint, i);
      Text.LowerMatch(path, TokenEndpoint, i);
    }
    assert Text.OccursAt(Text.ToLower(TokenEndpoint), TokenEndpoint, 0);
  }

  /**
   * The company a request is for: the first `X-Company-Id` value when it is
   * non-empty and `long.TryParse` accepts it, the handler's default otherwise.
   */
  function ResolveCompany(defaultCompanyId: Option<int>, values: Option<seq<string>>): (c: Option<int>)
    ensures c != defaultCompanyId ==> values.Some? && |values.value| > 0
    ensures c.Some? && c != defaultCompanyId ==> Decimal.InLong(c.value)
  {
    if values.Some? && |values.value| > 0 && values.value[0] != ""
       && Decimal.ParseLong(values.value[0]).Some? then
      Decimal.ParseLong(values.value[0])
    else defaultCompanyId
  }

  /**
   * A header written as the decimal text of a company id selects that
   * company; a missing or unparsable header leaves the default.
   */
  lemma ResolveCompanyOf(defaultCompanyId: Option<int>, id: int, rest: seq<string>, junk: string)
    requires Decimal.InLong(id)
    requires Decimal.ParseLong(junk).None?
    ensures ResolveCompany(defaultCompanyId, Some([Decimal.IntToString(id)] + rest)) == Some(id)
    ensures ResolveCompany(defaultCompanyId, Some([junk] + rest)) == defaultCompanyId
    ensures ResolveCompany(defaultCompanyId, None) == defaultCompanyId
    ensures ResolveCompany(defaultCompanyId, Some([])) == defaultCompanyId
  {
    Decimal.ParseLongOfIntToString(id);
  }

  /** What one `SendAsync` did: its result, the Authorization header at each send, the token requests, the state after. */
  datatype Exchange = Exchange(
    result: HandlerResult,
    sends: seq<Option<AuthHeader>>,
    tokenRequests: seq<TokenRequest>,
    slot: Slot,
    authorization: Option<AuthHeader>)

  function Sent(r: Option<TokenRequest>): seq<TokenRequest> {
    if r.Some? then [r.value] else []
  }

  function Deliver(d: Delivery): HandlerResult {
    match d
    case Delivered(r) => Returned(r)
    case Faulted(m) => Raised(m)
  }

  /**
   * `SendAsync` run alone, from the cache slot and the request's header
   * before it; `first` and `second` are what the inner handler does with the
   * first send and with the retry.
   */
  function Handle(slot: Slot, settings: Settings, defaultCompanyId: Option<int>,
                  path: Option<string>, companyIdValues: Option<seq<string>>, auth0: Option<AuthHeader>,
                  firstToken: TokenCall, first: Delivery, retryToken: TokenCall, second: Delivery): (x: Exchange)
    ensures 1 <= |x.sends| <= 2 && |x.tokenRequests| <= 2
    ensures SlotInvariant(slot) ==> SlotInvariant(x.slot)
  {
    if IsTokenEndpoint(path) then Exchange(Deliver(first), [auth0], [], slot, auth0)
    else
      var companyId := ResolveCompany(defaultCompanyId, companyIdValues);
      var (t1, sent1, slot1) := GetToken(slot, settings, companyId, firstToken.now, firstToken.recheckAt, firstToken.reply);
      var auth1 := if t1.Token? then Some(Bearer(t1.token)) else auth0;
      match first
      case Faulted(m) => Exchange(Raised(m), [auth1], Sent(sent1), slot1, auth1)
      case Delivered(r1) =>
        if r1.status != 401 then Exchange(Returned(r1), [auth1], Sent(sent1), slot1, auth1)
        else
          var (t2, sent2, slot2) := GetToken(EmptySlot, settings, defaultCompanyId, retryToken.now, retryToken.recheckAt, retryToken.reply);
          if t2.Failed? then Exchange(Returned(r1), [auth1], Sent(sent1) + Sent(sent2), slot2, auth1)
          else
            var auth2 := Some(Bearer(t2.token));
            match second
            case Faulted(_) => Exchange(Returned(r1), [auth1, auth2], Sent(sent1) + Sent(sent2), slot2, auth2)
            case Delivered(r2) => Exchange(Returned(r2), [auth1, auth2], Sent(sent1) + Sent(sent2), slot2, auth2)
  }

  class AuthenticationHandler {
    const authService: ApiAuthenticationService
    const defaultCompanyId: Option<int>

    constructor (authService: ApiAuthenticationService, defaultCompanyId: Option<int>)
      ensures this.authService == authService && this.defaultCompanyId == defaultCompanyId
    {
      this.authService := authService;
      this.defaultCompanyId := defaultCompanyId;
    }

    /** The company of a request: its first `X-Company-Id` value when that parses, the default otherwise. */
    method CompanyOf(values: Option<seq<string>>) returns (companyId: Option<int>)
      ensures companyId == ResolveCompany(defaultCompanyId, values)
    {
      companyId := defaultCompanyId;
      if values.Some? {
        var vs := values.value;
        if |vs| > 0 && vs[0] != "" {
          var parsed := Decimal.ParseLong(vs[0]);
          if parsed.Some? {
            companyId := parsed;
          }
        }
      }
    }

    /** `SendAsync`. */
    method SendAsync(request: HttpRequestMessage, firstToken: TokenCall, first: Delivery, retryToken: TokenCall, second: Delivery)
      returns (result: HandlerResult, sends: seq<Option<AuthHeader>>, tokenRequests: seq<TokenRequest>)
      requires authService.Valid()
      modifies request, authService
      ensures authService.Valid()
      ensures Exchange(result, sends, tokenRequests, authService.CurrentSlot(), request.authorization)
           == Handle(old(authService.CurrentSlot()), authService.settings, defaultCompanyId,
                     request.absolutePath, request.companyIdValues, old(request.authorization),
                     firstToken, first, retryToken, second)
    {
      if IsTokenEndpoint(request.absolutePath) {
        return Deliver(first), [request.authorization], [];
      }
      var companyId := CompanyOf(request.companyIdValues);
      var token, sent := authService.GetTokenAsync(companyId, firstToken.now, firstToken.recheckAt, firstToken.reply);
      tokenRequests := Sent(sent);
      if token.Token? {
        request.authorization := Some(Bearer(token.token));
      }
      sends := [request.authorization];
      if first.Faulted? {
        return Raised(first.message), sends, tokenRequests;
      }
      var response := first.response;
      if response.status == 401 {
        authService.ClearCachedToken();
        var retry, sentAgain := authService.GetTokenAsync(defaultCompanyId, retryToken.now, retryToken.recheckAt, retryToken.reply);
        tokenRequests := tokenRequests + Sent(sentAgain);
        if retry.Token? {
          request.authorization := Some(Bearer(retry.token));
          sends := sends + [request.authorization];
          if second.Delivered? {
            response := second.response;
          }
        }
      }
      result := Returned(response);
    }
  }

  /** The token endpoint is passed through once, untouched, even on a 401: no token, no retry. */
  lemma TokenEndpointBypassed(slot: Slot, settings: Settings, d: Option<int>, path: Option<string>, values: Option<seq<string>>,
                              auth0: Option<AuthHeader>, t1: TokenCall, first: Delivery, t2: TokenCall, second: Delivery)
    requires IsTokenEndpoint(path)
    ensures Handle(slot, settings, d, path, values, auth0, t1, first, t2, second) == Exchange(Deliver(first), [auth0], [], slot, auth0)
  {
  }

  /**
   * A response other than 401 is returned as it came after exactly one
   * send, carrying a Bearer token for the resolved company when one was
   * obtained and the original header when not.
   */
  lemma {:induction false} SingleSendUnlessUnauthorized(slot: Slot, settings: Settings, d: Option<int>, path: Option<string>,
                                      values: Option<seq<string>>, auth0: Option<AuthHeader>,
                                      t1: TokenCall, r1: HttpResponse, t2: TokenCall, second: Delivery)
    requires !IsTokenEndpoint(path) && r1.status != 401
    ensures var x := Handle(slot, settings, d, path, values, auth0, t1, Delivered(r1), t2, second);
      var (token, sent, _) := GetToken(slot, settings, ResolveCompany(d, values), t1.now, t1.recheckAt, t1.reply);
      && x.result == Returned(r1)
      && x.sends == [if token.Token? then Some(Bearer(token.token)) else auth0]
      && x.tokenRequests == Sent(sent)
  {
  }

  /**
   * On a 401 the cache is cleared, so the retry always requests a new token,
   * for the default company whatever the header said. With a token, the
   * request goes out a second time with it and the second response is
   * returned whatever its status; if the token or the resend fails, the
   * first 401 is returned.
   */
  lemma {:induction false} RetryOnceOnUnauthorized(slot: Slot, settings: Settings, d: Option<int>, path: Option<string>,
                                 values: Option<seq<string>>, auth0: Option<AuthHeader>,
                                 t1: TokenCall, r1: HttpResponse, t2: TokenCall, second: Delivery)
    requires !IsTokenEndpoint(path) && r1.status == 401
    ensures var x := Handle(slot, settings, d, path, values, auth0, t1, Delivered(r1), t2, second);
      var (retry, _, _) := GetToken(EmptySlot, settings, d, t2.now, t2.recheckAt, t2.reply);
      && x.tokenRequests[|x.tokenRequests| - 1] == TokenRequestFor(settings, d)
      && (retry.Token? ==> |x.sends| == 2 && x.sends[1] == Some(Bearer(retry.token)))
      && (retry.Token? && second.Delivered? ==> x.result == Returned(second.response))
      && (retry.Failed? || second.Faulted? ==> x.result == Returned(r1))
      && (retry.Failed? ==> |x.sends| == 1)
  {
    ClearedCacheRequests(settings, d, t2.now, t2.reply);
  }

  /**
   * A failure to obtain the first token is swallowed: the request is still
   * sent, with whatever Authorization header it already had.
   */
  lemma {:induction false} TokenFailureSwallowed(slot: Slot, settings: Settings, d: Option<int>, path: Option<string>,
                               values: Option<seq<string>>, auth0: Option<AuthHeader>,
                               t1: TokenCall, first: Delivery, t2: TokenCall, second: Delivery)
    requires !IsTokenEndpoint(path)
    requires GetToken(slot, settings, ResolveCompany(d, values), t1.now, t1.recheckAt, t1.reply).0.Failed?
    ensures Handle(slot, settings, d, path, values, auth0, t1, first, t2, second).sends[0] == auth0
    ensures first.Faulted? ==> Handle(slot, settings, d, path, values, auth0, t1, first, t2, second).result == Raised(first.message)
  {
  }
}
