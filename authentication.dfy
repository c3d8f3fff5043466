/**
 * `ApiAuthenticationService`: a single-slot cache of one JWT, its expiry and
 * the company it was issued for, refreshed from `POST /api/auth/token`.
 * Times are `DateTime` ticks (100 ns); the clock reading and the token
 * endpoint's reply are inputs.
 */
module Authentication {
  import opened Wrappers
  import Text

  /** `DateTime.MinValue` and `DateTime.MaxValue` in ticks. */
  const MinTicks: int := 0
  const MaxTicks: int := 3_155_378_975_999_999_999

  type Ticks = t: int | MinTicks <= t <= MaxTicks

  /** `TokenRefreshBuffer`: five minutes in ticks. */
  const RefreshBuffer: int := 5 * 60 * 10_000_000

  /** The endpoint the service posts to. */
  const TokenEndpoint: string := "/api/auth/token"

  /** The cached state: `_cachedToken`, `_tokenExpiry`, `_cachedCompanyId`. */
  datatype Slot = Slot(token: Option<string>, expiry: Ticks, company: Option<int>)

  /** The state of a new service and of one whose cache was cleared. */
  const EmptySlot: Slot := Slot(None, MinTicks, None)

  /**
   * What the code keeps true of the slot: only a non-empty token is stored,
   * and without a token the other two fields hold their initial values.
   */
  predicate SlotInvariant(s: Slot) {
    && (s.token.Some? ==> s.token.value != "")
    && (s.token.None? ==> s.expiry == MinTicks && s.company.None?)
  }

  /**
   * The verdict of `IsCachedTokenValid`. `OutOfRange` is the
   * `ArgumentOutOfRangeException` that `_tokenExpiry.Subtract(buffer)` throws
   * when the expiry lies less than five minutes after `DateTime.MinValue`.
   */
  datatype Validity = CacheValid | CacheInvalid | OutOfRange

  /** `IsCachedTokenValid(companyId)` at clock reading `now`. */
  function CheckSlot(s: Slot, companyId: Option<int>, now: Ticks): Validity {
    if s.token.None? then CacheInvalid
    else if s.expiry - RefreshBuffer < MinTicks then OutOfRange
    else if now < s.expiry - RefreshBuffer && s.company == companyId then CacheValid
    else CacheInvalid
  }

  /**
   * The cache is valid exactly when a token is stored, `now` is more than
   * five minutes before its expiry and the company matches (null matching
   * null); the expiry is consulted only when a token is stored.
   */
  lemma {:induction false} CheckSlotIff(s: Slot, companyId: Option<int>, now: Ticks)
    ensures CheckSlot(s, companyId, now) == CacheValid
        <==> s.token.Some? && now < s.expiry - RefreshBuffer && s.company == companyId
    ensures CheckSlot(s, companyId, now) == OutOfRange
        <==> s.token.Some? && s.expiry < MinTicks + RefreshBuffer
    ensures s.token.None? ==> CheckSlot(s, companyId, now) == CacheInvalid
  {
  }

  /** Configuration read by `RequestNewTokenAsync`. */
  datatype Settings = Settings(seedingUserId: Option<string>, seedingRoles: Option<seq<string>>)

  /** The anonymous object posted to the token endpoint. */
  datatype TokenRequest = TokenRequest(userId: string, userName: string, roles: seq<string>, companyId: Option<int>)

  /** The fields of the token endpoint's JSON reply that the service reads. */
  datatype TokenResponse = TokenResponse(token: Option<string>, expiresAt: Ticks)

  /** An exception raised on the way to the token. */
  datatype Thrown =
    | HttpRequestError(message: string)    // an HttpRequestException from the transport
    | StatusNotSuccess(status: int)        // the HttpRequestException of EnsureSuccessStatusCode
    | OtherError(message: string)          // any other exception, e.g. a JsonException

  predicate IsHttpRequestException(e: Thrown) {
    e.HttpRequestError? || e.StatusNotSuccess?
  }

  /** What the token endpoint did with one request. */
  datatype TokenReply =
    | SendThrew(error: Thrown)
    | Answered(status: int, body: TokenBody)

  /** What `ReadFromJsonAsync<TokenResponse>` gave. */
  datatype TokenBody = Parsed(response: TokenResponse) | ParsedNull | ReadThrew(error: Thrown)

  /** The exception `GetTokenAsync` lets escape. */
  datatype TokenFailure =
    | CannotAuthenticate(cause: Thrown)   // InvalidOperationException wrapping an HttpRequestException
    | EmptyToken                          // InvalidOperationException: empty token received
    | Escaped(error: Thrown)              // any other exception, unwrapped
    | ExpiryOutOfRange                    // ArgumentOutOfRangeException from the validity check

  datatype TokenOutcome = Token(token: string) | Failed(failure: TokenFailure)

  /** The token request for a company: configured user and roles, or their defaults. */
  function TokenRequestFor(settings: Settings, companyId: Option<int>): (r: TokenRequest)
    ensures r.userId == (if settings.seedingUserId.Some? then settings.seedingUserId.value else "SEEDING_SERVICE")
    ensures r.roles == (if settings.seedingRoles.Some? then settings.seedingRoles.value else ["SYSDEV"])
    ensures r.userName == "API Client Service" && r.companyId == companyId
  {
    TokenRequest(settings.seedingUserId.GetOr("SEEDING_SERVICE"), "API Client Service",
                 settings.seedingRoles.GetOr(["SYSDEV"]), companyId)
  }

  /** An exception inside the `try` of `RequestNewTokenAsync`, after its `catch (HttpRequestException)`. */
  function Caught(e: Thrown): (f: TokenFailure)
    ensures f.CannotAuthenticate? <==> IsHttpRequestException(e)
    ensures f.CannotAuthenticate? ==> f.cause == e
    ensures !IsHttpRequestException(e) ==> f == Escaped(e)
  {
    if IsHttpRequestException(e) then CannotAuthenticate(e) else Escaped(e)
  }

  /**
   * `RequestNewTokenAsync`: the result of one token request and the slot
   * after it. A token is obtained exactly from a 2xx reply whose body
   * carries a non-empty token; that token is returned and stored with the
   * reply's expiry and the requested company. Every other reply fails and
   * leaves the slot as it was.
   */
  function Refresh(s: Slot, companyId: Option<int>, reply: TokenReply): (r: (TokenOutcome, Slot))
    ensures r.0.Token? <==> reply.Answered? && 200 <= reply.status <= 299 && reply.body.Parsed?
                            && !Text.IsNullOrEmpty(reply.body.response.token)
    ensures r.0.Token? ==> r.0.token != ""
    ensures r.0.Token? ==>
      r == (Token(reply.body.response.token.value),
            Slot(reply.body.response.token, reply.body.response.expiresAt, companyId))
    ensures r.0.Failed? ==> r.1 == s
  {
    match reply
    case SendThrew(e) => (Failed(Caught(e)), s)
    case Answered(status, body) =>
      if !(200 <= status <= 299) then (Failed(CannotAuthenticate(StatusNotSuccess(status))), s)
      else match body
        case ReadThrew(e) => (Failed(Caught(e)), s)
        case ParsedNull => (Failed(EmptyToken), s)
        case Parsed(response) =>
          if Text.IsNullOrEmpty(response.token) then (Failed(EmptyToken), s)
          else (Token(response.token.value), Slot(response.token, response.expiresAt, companyId))
  }

  /**
   * `GetTokenAsync` run alone: the token or the exception, the token request
   * it sent (if any) and the slot after it. `now` and `recheckAt` are the
   * clock readings of the check and of the re-check under the lock; `reply`
   * is what the token endpoint would answer, which matters only when a
   * request is sent.
   */
  function GetToken(s: Slot, settings: Settings, companyId: Option<int>, now: Ticks, recheckAt: Ticks, reply: TokenReply)
    : (r: (TokenOutcome, Option<TokenRequest>, Slot))
    ensures r.1.Some? ==> r.1.value == TokenRequestFor(settings, companyId)
    ensures r.0.Failed? ==> r.2 == s
    ensures SlotInvariant(s) ==> SlotInvariant(r.2)
  {
    match CheckSlot(s, companyId, now)
    case CacheValid => (Token(s.token.value), None, s)
    case OutOfRange => (Failed(ExpiryOutOfRange), None, s)
    case CacheInvalid =>
      if CheckSlot(s, companyId, recheckAt) == CacheValid then (Token(s.token.value), None, s)
      else
        var (outcome, after) := Refresh(s, companyId, reply);
        (outcome, Some(TokenRequestFor(settings, companyId)), after)
  }

  /**
   * Without a concurrent caller the re-check under the lock decides nothing
   * new: with a clock that does not run backwards its verdict is the first one's.
   */
  lemma RecheckRedundant(s: Slot, settings: Settings, companyId: Option<int>, now: Ticks, recheckAt: Ticks, reply: TokenReply)
    requires now <= recheckAt
    ensures GetToken(s, settings, companyId, now, recheckAt, reply) == GetToken(s, settings, companyId, now, now, reply)
  {
  }

  /** A valid cache answers from the slot: no request, nothing changes. */
  lemma CacheHit(s: Slot, settings: Settings, companyId: Option<int>, now: Ticks, reply: TokenReply)
    requires s.token.Some? && now < s.expiry - RefreshBuffer && s.company == companyId
    ensures GetToken(s, settings, companyId, now, now, reply) == (Token(s.token.value), None, s)
  {
    CheckSlotIff(s, companyId, now);
  }

  /**
   * A successful refresh stores the reply's token and expiry with the
   * requested company, returns that token, and sent the configured request.
   */
  lemma RefreshOverwrites(s: Slot, settings: Settings, companyId: Option<int>, now: Ticks, status: int, response: TokenResponse)
    requires CheckSlot(s, companyId, now) == CacheInvalid
    requires 200 <= status <= 299 && !Text.IsNullOrEmpty(response.token)
    ensures GetToken(s, settings, companyId, now, now, Answered(status, Parsed(response)))
         == (Token(response.token.value), Some(TokenRequestFor(settings, companyId)),
             Slot(response.token, response.expiresAt, companyId))
  {
  }

  /**
   * Which exception escapes a failed refresh: transport and status errors
   * are wrapped, a missing or empty token is reported as such, anything else
   * escapes as it was. In every case the slot is left as it was.
   */
  lemma RefreshFailures(s: Slot, settings: Settings, companyId: Option<int>, now: Ticks, reply: TokenReply)
    requires CheckSlot(s, companyId, now) == CacheInvalid
    ensures var (outcome, sent, after) := GetToken(s, settings, companyId, now, now, reply);
      && sent == Some(TokenRequestFor(settings, companyId))
      && (reply.Answered? && !(200 <= reply.status <= 299) ==> outcome == Failed(CannotAuthenticate(StatusNotSuccess(reply.status))))
      && (reply.SendThrew? ==> outcome == Failed(Caught(reply.error)))
      && (reply.SendThrew? && IsHttpRequestException(reply.error) ==> outcome == Failed(CannotAuthenticate(reply.error)))
      && (reply.SendThrew? && !IsHttpRequestException(reply.error) ==> outcome == Failed(Escaped(reply.error)))
      && (reply.Answered? && 200 <= reply.status <= 299 && reply.body.ReadThrew?
          ==> outcome == Failed(Caught(reply.body.error)))
      && (reply.Answered? && 200 <= reply.status <= 299 && reply.body.ReadThrew? && !IsHttpRequestException(reply.body.error)
          ==> outcome == Failed(Escaped(reply.body.error)))
      && (reply.Answered? && 200 <= reply.status <= 299 && reply.body.ParsedNull? ==> outcome == Failed(EmptyToken))
      && (reply.Answered? && 200 <= reply.status <= 299 && reply.body.Parsed? && Text.IsNullOrEmpty(reply.body.response.token)
          ==> outcome == Failed(EmptyToken))
      && (outcome.Failed? ==> after == s)
  {
  }

  /** After a refresh for one company, the cache is not valid for any other: the slot is single. */
  lemma {:induction false} SingleSlot(s: Slot, settings: Settings, c1: Option<int>, c2: Option<int>, now: Ticks, later: Ticks, reply: TokenReply)
    requires c1 != c2
    ensures var (outcome, _, after) := GetToken(s, settings, c1, now, now, reply);
      outcome.Token? && CheckSlot(s, c1, now) == CacheInvalid ==> CheckSlot(after, c2, later) != CacheValid
  {
    var (outcome, _, after) := GetToken(s, settings, c1, now, now, reply);
    if outcome.Token? && CheckSlot(s, c1, now) == CacheInvalid {
      assert after.company == c1;
      CheckSlotIff(after, c2, later);
    }
  }

  /**
   * A refreshed token is reused: a second call for the same company before
   * the refresh buffer starts sends nothing and returns the same token.
   */
  lemma {:induction false} RefreshThenReuse(s: Slot, settings: Settings, companyId: Option<int>, now: Ticks, later: Ticks, r1: TokenReply, r2: TokenReply)
    ensures var (first, _, after) := GetToken(s, settings, companyId, now, now, r1);
      first.Token? && later < after.expiry - RefreshBuffer
      ==> GetToken(after, settings, companyId, later, later, r2) == (first, None, after)
  {
    var (first, _, after) := GetToken(s, settings, companyId, now, now, r1);
    if first.Token? && later < after.expiry - RefreshBuffer {
      assert after.token == Some(first.token) && after.company == companyId;
      CheckSlotIff(after, companyId, later);
    }
  }

  /** After a clear, every company's next call sends a token request. */
  lemma ClearedCacheRequests(settings: Settings, companyId: Option<int>, now: Ticks, reply: TokenReply)
    ensures GetToken(EmptySlot, settings, companyId, now, now, reply).1 == Some(TokenRequestFor(settings, companyId))
  {
  }

  /** `AuthenticationHeaderValue`. */
  datatype AuthHeader = AuthHeader(scheme: string, parameter: string)

  /** An `HttpClient`, reduced to its default Authorization header. */
  class HttpClient {
    var defaultAuthorization: Option<AuthHeader>

    constructor ()
      ensures defaultAuthorization.None?
    {
      defaultAuthorization := None;
    }
  }

  /** The argument exceptions `SetAuthorizationHeader` throws. */
  datatype ArgumentError = ArgumentNull(paramName: string) | ArgumentInvalid(paramName: string, message: string)

  class ApiAuthenticationService {
    const settings: Settings
    var cachedToken: Option<string>
    var tokenExpiry: Ticks
    var cachedCompanyId: Option<int>

    function CurrentSlot(): Slot
      reads this
    {
      Slot(cachedToken, tokenExpiry, cachedCompanyId)
    }

    ghost predicate Valid()
      reads this
    {
      SlotInvariant(CurrentSlot())
    }

    constructor (settings: Settings)
      ensures Valid() && this.settings == settings && CurrentSlot() == EmptySlot
    {
      this.settings := settings;
      cachedToken := None;
      tokenExpiry := MinTicks;
      cachedCompanyId := None;
    }

    /** `IsCachedTokenValid`. */
    function IsCachedTokenValid(companyId: Option<int>, now: Ticks): Validity
      reads this
    {
      CheckSlot(CurrentSlot(), companyId, now)
    }

    /** `RequestNewTokenAsync`: send the request, and on success overwrite all three fields. */
    method RequestNewTokenAsync(companyId: Option<int>, reply: TokenReply) returns (outcome: TokenOutcome, sent: TokenRequest)
      requires Valid()
      modifies this
      ensures Valid()
      ensures (outcome, CurrentSlot()) == Refresh(old(CurrentSlot()), companyId, reply)
      ensures sent == TokenRequestFor(settings, companyId)
    {
      var seedingUserId := settings.seedingUserId.GetOr("SEEDING_SERVICE");
      var seedingRoles := settings.seedingRoles.GetOr(["SYSDEV"]);
      sent := TokenRequest(seedingUserId, "API Client Service", seedingRoles, companyId);
      match reply {
        case SendThrew(e) =>
          outcome := Failed(Caught(e));
        case Answered(status, body) =>
          if !(200 <= status <= 299) {
            outcome := Failed(CannotAuthenticate(StatusNotSuccess(status)));
          } else {
            match body {
              case ReadThrew(e) =>
                outcome := Failed(Caught(e));
              case ParsedNull =>
                outcome := Failed(EmptyToken);
              case Parsed(response) =>
                if Text.IsNullOrEmpty(response.token) {
                  outcome := Failed(EmptyToken);
                } else {
                  cachedToken := response.token;
                  tokenExpiry := response.expiresAt;
                  cachedCompanyId := companyId;
                  outcome := Token(cachedToken.value);
                }
            }
          }
      }
    }

    /** `GetTokenAsync`: the check, the re-check under the lock, then a refresh. */
    method GetTokenAsync(companyId: Option<int>, now: Ticks, recheckAt: Ticks, reply: TokenReply)
      returns (outcome: TokenOutcome, sent: Option<TokenRequest>)
      requires Valid()
      modifies this
      ensures Valid()
      ensures (outcome, sent, CurrentSlot()) == GetToken(old(CurrentSlot()), settings, companyId, now, recheckAt, reply)
    {
      var check := IsCachedTokenValid(companyId, now);
      if check == OutOfRange {
        return Failed(ExpiryOutOfRange), None;
      }
      if check == CacheValid {
        return Token(cachedToken.value), None;
      }
      check := IsCachedTokenValid(companyId, recheckAt);
      if check == CacheValid {
        return Token(cachedToken.value), None;
      }
      var request;
      outcome, request := RequestNewTokenAsync(companyId, reply);
      sent := Some(request);
    }

    /** `ClearCachedToken`: back to the initial state. */
    method ClearCachedToken()
      modifies this
      ensures Valid() && CurrentSlot() == EmptySlot
    {
      cachedToken := None;
      tokenExpiry := MinTicks;
      cachedCompanyId := None;
    }

    /**
     * `SetAuthorizationHeader`: a null client or a null or blank token is
     * refused with the matching argument exception and nothing changes;
     * otherwise the client's default header becomes `Bearer <token>`.
     */
    method SetAuthorizationHeader(client: HttpClient?, token: Option<string>) returns (error: Option<ArgumentError>)
      modifies client
      ensures client == null ==> error == Some(ArgumentNull("client"))
      ensures client != null && Text.IsNullOrWhiteSpace(token)
              ==> error == Some(ArgumentInvalid("token", "Token cannot be null or empty"))
                  && client.defaultAuthorization == old(client.defaultAuthorization)
      ensures client != null && !Text.IsNullOrWhiteSpace(token)
              ==> error.None? && client.defaultAuthorization == Some(AuthHeader("Bearer", token.value))
    {
      if client == null {
        return Some(ArgumentNull("client"));
      }
      if Text.IsNullOrWhiteSpace(token) {
        return Some(ArgumentInvalid("token", "Token cannot be null or empty"));
      }
      client.defaultAuthorization := Some(AuthHeader("Bearer", token.value));
      error := None;
    }
  }
}
