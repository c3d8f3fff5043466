/**
 * `ApiClientBase`: the executor every client delegates to. The transport is
 * an input: an `Outcome` says whether sending threw, and otherwise which
 * status came back, whether the body could be read as text, and what the
 * JSON body deserialized to. Each operation turns that outcome into a result
 * without letting an exception escape.
 */
module ApiClientBase {
  import opened Wrappers
  import opened Results
  import Text
  import Decimal

  /** What `ReadFromJsonAsync<T>` gave: a value, JSON `null`, or an exception. */
  datatype Body<T> = Parsed(value: T) | ParsedNull | ParseThrew(message: string)

  /** What `ReadAsStringAsync` gave. */
  datatype Content = Content(text: string) | ContentThrew(message: string)

  /** One HTTP exchange as seen by the client. */
  datatype Outcome<T> =
    | SendThrew(message: string)
    | Responded(status: int, content: Content, body: Body<T>)

  datatype Verb = GET | POST | PUT | DELETE | PATCH

  /** How the executor reads a 2xx response. */
  datatype Shape = Single | List | NoContent

  /** The request body of a call that sends none. */
  datatype NoBody = NoBody

  /** The HTTP call an operation makes: verb, endpoint, request body and response shape. */
  datatype Call<B> = Call(verb: Verb, endpoint: string, body: Option<B>, shape: Shape)

  /**
   * What a client operation with local guards does: send one call, or
   * answer by itself without any HTTP request.
   */
  datatype Step<B, T> = Send(call: Call<B>) | Answer(result: Result<T>)

  /** `HttpResponseMessage.IsSuccessStatusCode`: the 2xx class of section 15.3 of RFC 9110. */
  predicate IsSuccessStatusCode(status: int) {
    200 <= status <= 299
  }

  /** The statuses whose failure message quotes the response body. */
  predicate QuotesContent(status: int) {
    status !in {401, 403, 404, 502, 503, 504}
  }

  /** The statuses the table of `MapHttpStatusToError` names. */
  predicate Tabulated(status: int) {
    status in {400, 401, 403, 404, 409, 422, 500, 502, 503, 504}
  }

  /** `MapHttpStatusToError`: the domain error code and message for a status. */
  function MapHttpStatusToError(status: int, errorContent: string): (r: (ErrorCode, string))
    ensures QuotesContent(status) ==> |r.1| >= |errorContent| && r.1[|r.1| - |errorContent|..] == errorContent
  {
    match status
    case 400 => (ValidationError, "Bad request: " + errorContent)
    case 401 => (AuthFailed, "Authentication required")
    case 403 => (ForbiddenResource, "Access forbidden")
    case 404 => (ResourceNotFound, "Resource not found")
    case 409 => (Conflict, "Conflict: " + errorContent)
    case 422 => (ValidationFailed, "Validation failed: " + errorContent)
    case 500 => (IntExternalSyncFailed, "Server error: " + errorContent)
    case 502 => (IntApiUnavailable, "API unavailable")
    case 503 => (IntApiUnavailable, "Service unavailable")
    case 504 => (IntTimeout, "Request timeout")
    case _ => (IntegrationExternalServiceError, "HTTP " + Decimal.IntToString(status) + ": " + errorContent)
  }

  /**
   * The table read backwards: each code comes from exactly the statuses
   * listed, and every status outside the table falls to the generic code.
   */
  lemma StatusTable(status: int, errorContent: string)
    ensures var code := MapHttpStatusToError(status, errorContent).0;
      && (code == ValidationError <==> status == 400)
      && (code == AuthFailed <==> status == 401)
      && (code == ForbiddenResource <==> status == 403)
      && (code == ResourceNotFound <==> status == 404)
      && (code == Conflict <==> status == 409)
      && (code == ValidationFailed <==> status == 422)
      && (code == IntExternalSyncFailed <==> status == 500)
      && (code == IntApiUnavailable <==> status == 502 || status == 503)
      && (code == IntTimeout <==> status == 504)
      && (code == IntegrationExternalServiceError <==> !Tabulated(status))
  {
  }

  /**
   * The message depends on the body exactly for the statuses that quote it:
   * for the others two bodies always give the same message, for these two
   * different bodies always give different messages.
   */
  lemma MessageQuotesContent(status: int, a: string, b: string)
    ensures !QuotesContent(status) ==> MapHttpStatusToError(status, a) == MapHttpStatusToError(status, b)
    ensures QuotesContent(status) && a != b ==> MapHttpStatusToError(status, a).1 != MapHttpStatusToError(status, b).1
  {
    if QuotesContent(status) && a != b {
      var ma := MapHttpStatusToError(status, a).1;
      var mb := MapHttpStatusToError(status, b).1;
      if |a| == |b| {
        assert ma[|ma| - |a|..] == a;
        assert mb[|mb| - |b|..] == b;
      } else {
        assert |ma| - |a| == |mb| - |b|;
      }
    }
  }

  /** `CreateFailureResult`: a non-2xx response as a failure. */
  function CreateFailureResult(status: int, errorContent: string, endpoint: string): (e: Error)
    ensures e.Named? && e.source == "ApiClient"
    ensures e.code == MapHttpStatusToError(status, errorContent).0
    ensures e.message == MapHttpStatusToError(status, errorContent).1
    ensures e.context.Keys == {"Endpoint", "StatusCode", "ResponseContent"}
    ensures e.context["StatusCode"] == Number(status) && e.context["ResponseContent"] == Text(errorContent)
  {
    var (code, message) := MapHttpStatusToError(status, errorContent);
    Named(code, message, "ApiClient",
          map["Endpoint" := Text(endpoint), "StatusCode" := Number(status), "ResponseContent" := Text(errorContent)])
  }

  /** The failure every `catch (Exception ex)` of the executor builds. */
  function RequestFailed(endpoint: string, exceptionMessage: string): (e: Error)
    ensures e.Named? && e.code == IntApiUnavailable && e.source == "ApiClient"
    ensures e.message == "API request failed: " + exceptionMessage
    ensures e.context.Keys == {"Endpoint", "ElapsedMs"} && e.context["Endpoint"] == Text(endpoint)
  {
    Named(IntApiUnavailable, "API request failed: " + exceptionMessage, "ApiClient",
          map["Endpoint" := Text(endpoint), "ElapsedMs" := Elapsed])
  }

  /**
   * The path every operation shares up to reading a 2xx body: an exception
   * while sending, or a non-2xx status. `None` when the status is 2xx.
   */
  function Rejection<T>(endpoint: string, outcome: Outcome<T>): (f: Option<Error>)
    ensures f.None? <==> outcome.Responded? && IsSuccessStatusCode(outcome.status)
    ensures f.Some? ==> f.value.Named? && f.value.source == "ApiClient"
  {
    match outcome
    case SendThrew(m) => Some(RequestFailed(endpoint, m))
    case Responded(status, content, _) =>
      if IsSuccessStatusCode(status) then None
      else match content
        case Content(text) => Some(CreateFailureResult(status, text, endpoint))
        case ContentThrew(m) => Some(RequestFailed(endpoint, m))
  }

  /**
   * `GetAsync`, `PostAsync`, `PutAsync`, the body-carrying `DeleteAsync` and
   * the response-returning `PatchAsync`: a 2xx body as a value that may be
   * null (`None`).
   */
  function ExecuteSingle<T>(endpoint: string, outcome: Outcome<T>): (r: ExecResult<Option<T>>)
    ensures r.Success? <==> outcome.Responded? && IsSuccessStatusCode(outcome.status) && !outcome.body.ParseThrew?
    ensures r.Success? ==> (r.value.Some? <==> outcome.body.Parsed?)
    ensures r.Success? && r.value.Some? ==> r.value.value == outcome.body.value
  {
    match Rejection(endpoint, outcome)
    case Some(e) => Failure(e)
    case None =>
      match outcome.body
      case Parsed(v) => Success(Some(v))
      case ParsedNull => Success(None)
      case ParseThrew(m) => Failure(RequestFailed(endpoint, m))
  }

  /** `GetListAsync` and `PostListAsync`: a 2xx body as a list, never null. */
  function ExecuteList<T>(endpoint: string, outcome: Outcome<seq<T>>): (r: ExecResult<seq<T>>)
    ensures r.Success? <==> outcome.Responded? && IsSuccessStatusCode(outcome.status) && !outcome.body.ParseThrew?
    ensures r.Success? && outcome.body.ParsedNull? ==> r.value == []
    ensures r.Success? && outcome.body.Parsed? ==> r.value == outcome.body.value
  {
    match Rejection(endpoint, outcome)
    case Some(e) => Failure(e)
    case None =>
      match outcome.body
      case Parsed(v) => Success(v)
      case ParsedNull => Success([])
      case ParseThrew(m) => Failure(RequestFailed(endpoint, m))
  }

  /**
   * `PostUnitAsync`, `DeleteAsync(endpoint)` and `PatchAsync<TRequest>`:
   * a 2xx is success whatever the body holds; the body is never read.
   */
  function ExecuteNoContent<T>(endpoint: string, outcome: Outcome<T>): (r: ExecResult<Unit>)
    ensures r.Success? <==> outcome.Responded? && IsSuccessStatusCode(outcome.status)
  {
    match Rejection(endpoint, outcome)
    case Some(e) => Failure(e)
    case None => Success(Unit)
  }

  /** A no-content operation does not depend on the response body. */
  lemma NoContentIgnoresBody<T>(endpoint: string, status: int, content: Content, a: Body<T>, b: Body<T>)
    ensures ExecuteNoContent(endpoint, Responded(status, content, a)) == ExecuteNoContent(endpoint, Responded(status, content, b))
  {
  }

  /**
   * A non-2xx response fails with the mapped code and message, source
   * "ApiClient" and the endpoint, status and body in the context, in every
   * response shape; the JSON body is never consulted.
   */
  lemma FailureFromStatus<T>(endpoint: string, status: int, text: string, body: Body<T>, listBody: Body<seq<T>>)
    requires !IsSuccessStatusCode(status)
    ensures var e := CreateFailureResult(status, text, endpoint);
      && ExecuteSingle(endpoint, Responded(status, Content(text), body)) == Failure(e)
      && ExecuteList(endpoint, Responded(status, Content(text), listBody)) == Failure(e)
      && ExecuteNoContent(endpoint, Responded(status, Content(text), body)) == Failure(e)
  {
  }

  /**
   * Every exception — while sending, while reading an error body, or while
   * deserializing a 2xx body — becomes an "API unavailable" failure whose
   * message carries the exception's.
   */
  lemma ExceptionsBecomeFailures<T>(endpoint: string, outcome: Outcome<T>, m: string)
    ensures outcome == SendThrew(m) ==> ExecuteSingle(endpoint, outcome) == Failure(RequestFailed(endpoint, m))
    ensures outcome.Responded? && !IsSuccessStatusCode(outcome.status) && outcome.content == ContentThrew(m)
            ==> ExecuteSingle(endpoint, outcome) == Failure(RequestFailed(endpoint, m))
    ensures outcome.Responded? && IsSuccessStatusCode(outcome.status) && outcome.body == ParseThrew(m)
            ==> ExecuteSingle(endpoint, outcome) == Failure(RequestFailed(endpoint, m))
  {
  }

  /**
   * The three shapes agree on everything but what a 2xx body becomes: one
   * fails exactly when another does, with the same error, as long as the
   * bodies deserialize alike.
   */
  lemma ShapesAgree<T>(endpoint: string, status: int, content: Content, item: Body<T>, items: Body<seq<T>>)
    requires item.ParseThrew? <==> items.ParseThrew?
    requires item.ParseThrew? ==> item.message == items.message
    ensures ExecuteSingle(endpoint, Responded(status, content, item)).Failure?
        <==> ExecuteList(endpoint, Responded(status, content, items)).Failure?
    ensures ExecuteSingle(endpoint, Responded(status, content, item)).Failure?
        ==> ExecuteSingle(endpoint, Responded(status, content, item)).error
            == ExecuteList(endpoint, Responded(status, content, items)).error
    ensures ExecuteNoContent(endpoint, Responded(status, content, item)).Failure?
        ==> ExecuteNoContent(endpoint, Responded(status, content, item)).error
            == ExecuteSingle(endpoint, Responded(status, content, item)).error
  {
  }

  /** The calls the executor's operations make; each is read back by the executor of its shape. */
  function GetAsync<B>(endpoint: string): Call<B> { Call(GET, endpoint, None, Single) }
  function GetListAsync<B>(endpoint: string): Call<B> { Call(GET, endpoint, None, List) }
  function PostAsync<B>(endpoint: string, data: B): Call<B> { Call(POST, endpoint, Some(data), Single) }
  function PostListAsync<B>(endpoint: string, data: B): Call<B> { Call(POST, endpoint, Some(data), List) }
  function PostUnitAsync<B>(endpoint: string, data: B): Call<B> { Call(POST, endpoint, Some(data), NoContent) }
  function PutAsync<B>(endpoint: string, data: B): Call<B> { Call(PUT, endpoint, Some(data), Single) }
  function DeleteAsync<B>(endpoint: string): Call<B> { Call(DELETE, endpoint, None, NoContent) }
  function DeleteWithBodyAsync<B>(endpoint: string, data: B): Call<B> { Call(DELETE, endpoint, Some(data), Single) }
  function PatchAsync<B>(endpoint: string, data: B): Call<B> { Call(PATCH, endpoint, Some(data), NoContent) }
  function PatchWithResponseAsync<B>(endpoint: string, data: B): Call<B> { Call(PATCH, endpoint, Some(data), Single) }

  /** `TestPrefix`: the configured prefix, "APITEST_" when the key is absent. */
  function TestPrefix(configured: Option<string>): (prefix: string)
    ensures configured.None? ==> prefix == "APITEST_"
    ensures configured.Some? ==> prefix == configured.value
  {
    configured.GetOr("APITEST_")
  }

  /** The element test of `FilterTestData`: a non-null code starting with the prefix, ignoring case. */
  predicate Marked<T>(select: T -> Option<string>, prefix: string, x: T) {
    select(x).Some? && Text.StartsWithIgnoreCase(select(x).value, prefix)
  }

  /** `FilterTestData`: the test items of a list, in their order; nothing for a null list. */
  function FilterTestData<T>(data: Option<seq<T>>, select: T -> Option<string>, prefix: string): (r: seq<T>)
    ensures data.None? ==> r == []
    ensures data.Some? ==> |r| <= |data.value|
    ensures forall i :: 0 <= i < |r| ==> Marked(select, prefix, r[i])
    decreases if data.Some? then |data.value| else 0
  {
    if data.None? || |data.value| == 0 then []
    else
      var rest := FilterTestData(Some(data.value[1..]), select, prefix);
      if Marked(select, prefix, data.value[0]) then [data.value[0]] + rest else rest
  }

  /** Filtering a concatenation filters each part: the filter keeps order. */
  lemma {:induction false} FilterAppend<T>(a: seq<T>, b: seq<T>, select: T -> Option<string>, prefix: string)
    ensures FilterTestData(Some(a + b), select, prefix)
         == FilterTestData(Some(a), select, prefix) + FilterTestData(Some(b), select, prefix)
    decreases |a|
  {
    if |a| == 0 {
      assert a + b == b;
    } else {
      assert (a + b)[1..] == a[1..] + b;
      FilterAppend(a[1..], b, select, prefix);
    }
  }

  /** Every marked element survives, as many times as it occurs. */
  lemma {:induction false} FilterKeepsMarked<T>(data: seq<T>, select: T -> Option<string>, prefix: string, x: T)
    ensures Marked(select, prefix, x) ==> multiset(FilterTestData(Some(data), select, prefix))[x] == multiset(data)[x]
    ensures !Marked(select, prefix, x) ==> multiset(FilterTestData(Some(data), select, prefix))[x] == 0
    decreases |data|
  {
    if |data| > 0 {
      FilterKeepsMarked(data[1..], select, prefix, x);
      assert data == [data[0]] + data[1..];
    }
  }

  /** Filtering twice is filtering once. */
  lemma {:induction false} FilterIdempotent<T>(data: seq<T>, select: T -> Option<string>, prefix: string)
    ensures var once := FilterTestData(Some(data), select, prefix);
      FilterTestData(Some(once), select, prefix) == once
    decreases |data|
  {
    if |data| > 0 {
      FilterIdempotent(data[1..], select, prefix);
      var rest := FilterTestData(Some(data[1..]), select, prefix);
      if Marked(select, prefix, data[0]) {
        assert ([data[0]] + rest)[1..] == rest;
      }
    }
  }

  /** `IsTestData`: a non-empty identifier starting with the prefix, ignoring case. */
  predicate IsTestData(identifier: Option<string>, prefix: string) {
    !Text.IsNullOrEmpty(identifier) && Text.StartsWithIgnoreCase(identifier.value, prefix)
  }

  /**
   * The filter and `IsTestData` agree exactly when the prefix is not empty;
   * with an empty prefix the filter also keeps items whose code is "".
   */
  lemma FilterAgreesWithIsTestData<T>(select: T -> Option<string>, prefix: string, x: T)
    ensures prefix != "" ==> (Marked(select, prefix, x) <==> IsTestData(select(x), prefix))
    ensures prefix == "" && select(x) == Some("") ==> Marked(select, prefix, x) && !IsTestData(select(x), prefix)
  {
  }
}
