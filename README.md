# MES.Office API client — a Dafny model

This project models the HTTP client layer of MES.Office. The layer is the
part of the web application that talks to the MES.Office Web API. It covers:

- `ApiClientBase`: the result executor. It turns each HTTP exchange into a
  `Result`, maps non-success statuses to error codes and filters test data.
- `ApiAuthenticationService`: the per-company cache of a bearer token. It is
  refreshed from the token endpoint and kept until five minutes before it
  expires.
- `AuthenticationHandler`: the delegating handler. It attaches the token,
  resolves the company from the `X-Company-ID` header and retries once on
  401.
- `AuthenticationHandlerFilter`: the web application's builder filter. It
  adds the handler to every `HttpClient` it configures, except three, compared
  ignoring case: a client without a name, one whose name contains
  `IApiAuthenticationService`, and the client named `MesApi`. All handlers
  share one authentication service.
- `CrudApiClientBase` and the clients built on it or on the executor:
  localization, stock movements, audit log items, stock issue requests,
  purchase orders, sales orders, purchase returns, purchase delivery notes
  and shipping notes.

How the model is built:

- The network is an input. A client operation is a value (`Call`): a verb,
  an endpoint, an optional body and a response shape. What comes back is an
  `Outcome`: the send threw, or a status arrived with a content string and
  a deserialization result. `ExecuteSingle`, `ExecuteList` and
  `ExecuteNoContent` are the three response shapes of the executor.
- Endpoints are strings. `Routes.ParseMember` reads an endpoint back as a
  record id and an optional action. Each client's operations are proved to
  address the endpoint of the record and action they name, and different
  operations are proved to address different endpoints.
- The filtered listings build their query strings step by step in the
  source. Here they are methods that append to a list of parts, proved
  equal to `BuildQuery` of the candidate parameters. Read-back lemmas show
  that the query gives each parameter name exactly its argument's value:
  the decimal id, the escaped string (which decodes to its UTF-8 bytes) or
  the `yyyy-MM-dd` date. They also show that a parameter whose guard failed
  is absent.
- The token cache, the handler and the filter keep state, so they are
  classes with `modifies` frames. Their methods are proved against pure
  functions (`Authentication.GetToken`, `Handlers.Handle`,
  `WebAppExtensions.SharedInstance`), and the lemmas about those functions
  state the caching, retry and sharing behaviour.
- The CRUD base and the client operations make calls without changing
  state. They are functions.

Where the design description and the code disagree, the model follows the
code:

- HTTP 503 maps to `INT_API_UNAVAILABLE` with the message "Service
  unavailable", the same code as 502.
- Every exception the executor catches, cancellation included, becomes an
  `INT_API_UNAVAILABLE` failure whose message starts "API request failed: ".
  There is no separate cancellation outcome.

## Model

| member | source | states |
|---|---|---|
| ApiClientBase.MapHttpStatusToError | MES.Office.ApiClient/Core/ApiClientBase.cs:555-571 | for every status outside 401, 403, 404, 502, 503 and 504 the message ends with the response body |
| ApiClientBase.StatusTable | MES.Office.ApiClient/Core/ApiClientBase.cs:557-570 | the table read backwards: each error code is produced by exactly the statuses listed for it (API unavailable by 502 and 503), and the generic code by exactly the statuses the table does not name |
| ApiClientBase.MessageQuotesContent | MES.Office.ApiClient/Core/ApiClientBase.cs:555-571 | the message ignores the body for the six fixed-message statuses and tells any two bodies apart for all others |
| ApiClientBase.CreateFailureResult | MES.Office.ApiClient/Core/ApiClientBase.cs:536-550 | a non-2xx response becomes a failure from source ApiClient with the mapped code and message and exactly the context keys Endpoint, StatusCode and ResponseContent |
| ApiClientBase.RequestFailed | MES.Office.ApiClient/Core/ApiClientBase.cs:63-78 | every caught exception becomes an API-unavailable failure from ApiClient whose message is "API request failed: " followed by the exception message, with context keys Endpoint and ElapsedMs |
| ApiClientBase.Rejection | MES.Office.ApiClient/Core/ApiClientBase.cs:45-55 | the shared path stops exactly when sending threw or the status is not 2xx, and its failure always names ApiClient |
| ApiClientBase.ExecuteSingle | MES.Office.ApiClient/Core/ApiClientBase.cs:38-79 | success exactly for a 2xx whose body deserializes; the value is the deserialized body, absent exactly for JSON null |
| ApiClientBase.ExecuteList | MES.Office.ApiClient/Core/ApiClientBase.cs:84-128 | success exactly for a 2xx whose body deserializes; a null list becomes the empty list, any other list is returned as it came |
| ApiClientBase.ExecuteNoContent | MES.Office.ApiClient/Core/ApiClientBase.cs:222-265 | success exactly for a 2xx status, whatever the body |
| ApiClientBase.NoContentIgnoresBody | MES.Office.ApiClient/Core/ApiClientBase.cs:313-356 | a no-content operation gives the same result for any two response bodies |
| ApiClientBase.FailureFromStatus | MES.Office.ApiClient/Core/ApiClientBase.cs:48-55 | a non-2xx response fails with the same CreateFailureResult error in all three response shapes |
| ApiClientBase.ExceptionsBecomeFailures | MES.Office.ApiClient/Core/ApiClientBase.cs:63-78 | an exception while sending, while reading an error body or while deserializing a 2xx body yields RequestFailed with that exception's message |
| ApiClientBase.ShapesAgree | MES.Office.ApiClient/Core/ApiClientBase.cs:84-128 | single and list shapes fail on the same outcomes with the same error, and a no-content failure is the single-shape failure |
| ApiClientBase.TestPrefix | MES.Office.ApiClient/Core/ApiClientBase.cs:22-31 | the configured prefix, or APITEST_ when the key is absent |
| ApiClientBase.FilterTestData | MES.Office.ApiClient/Core/ApiClientBase.cs:514-518 | no items for a null list; otherwise a sub-list, no longer than the input, of items whose code starts with the prefix ignoring case |
| ApiClientBase.FilterAppend | MES.Office.ApiClient/Core/ApiClientBase.cs:517 | filtering a concatenation is the concatenation of the filtered parts, so the order is kept |
| ApiClientBase.FilterKeepsMarked | MES.Office.ApiClient/Core/ApiClientBase.cs:517 | each marked item is kept as many times as it occurs, and no unmarked item is kept |
| ApiClientBase.FilterIdempotent | MES.Office.ApiClient/Core/ApiClientBase.cs:514-518 | filtering an already filtered list changes nothing |
| ApiClientBase.FilterAgreesWithIsTestData | MES.Office.ApiClient/Core/ApiClientBase.cs:523-527 | the filter's test and IsTestData agree for every non-empty prefix; with an empty prefix the filter also keeps an empty code, which IsTestData rejects |
| Results.Propagate | MES.Office.ApiClient/Core/CrudApiClientBase.cs:81-84 | passing an executor failure on keeps its code and message, positionally, and drops its source and context |
| Authentication.CheckSlotIff | MES.Office.ApiClient/Services/ApiAuthenticationService.cs:108-113 | the cache is valid exactly when a token is held, now lies more than five minutes before its expiry and the company matches (null matching null); subtracting the buffer from an expiry under five minutes after DateTime.MinValue throws |
| Authentication.TokenRequestFor | MES.Office.ApiClient/Services/ApiAuthenticationService.cs:115-127 | the configured seeding user and roles, or SEEDING_SERVICE and [SYSDEV] by default, user name "API Client Service" and the requested company |
| Authentication.Caught | MES.Office.ApiClient/Services/ApiAuthenticationService.cs:154-158 | an HttpRequestException is wrapped as "cannot authenticate" with it as the cause; any other exception escapes as it was |
| Authentication.Refresh | MES.Office.ApiClient/Services/ApiAuthenticationService.cs:115-159 | a token is obtained exactly from a 2xx reply whose body carries a non-empty token; that token is returned and stored with the reply's expiry and the requested company; every failure leaves the slot unchanged |
| Authentication.GetToken | MES.Office.ApiClient/Services/ApiAuthenticationService.cs:61-88 | a request, when sent, is the configured token request; a failure leaves the slot unchanged; the slot invariant is kept |
| Authentication.RecheckRedundant | MES.Office.ApiClient/Services/ApiAuthenticationService.cs:69-77 | with no concurrent caller and a clock that does not go backwards, the re-check under the lock decides what the first check decided |
| Authentication.CacheHit | MES.Office.ApiClient/Services/ApiAuthenticationService.cs:63-66 | a valid cache returns its token, sends nothing and changes nothing |
| Authentication.RefreshOverwrites | MES.Office.ApiClient/Services/ApiAuthenticationService.cs:141-144 | after an invalid check, a 2xx reply with a non-empty token is returned and stored with its expiry and the requested company, after sending the configured request |
| Authentication.RefreshFailures | MES.Office.ApiClient/Services/ApiAuthenticationService.cs:129-158 | a non-2xx status and an HttpRequestException from sending or reading are wrapped; any other exception from sending or reading the JSON escapes as it was; a null body or empty token is reported as an empty token; the slot is unchanged in every case |
| Authentication.SingleSlot | MES.Office.ApiClient/Services/ApiAuthenticationService.cs:142-144 | after a refresh for one company the cache is not valid for any other company |
| Authentication.RefreshThenReuse | MES.Office.ApiClient/Services/ApiAuthenticationService.cs:63-66 | a refreshed token is reused: a later call for the same company before the buffer starts sends nothing and returns the same token |
| Authentication.ClearedCacheRequests | MES.Office.ApiClient/Services/ApiAuthenticationService.cs:100-106 | after the cache is cleared, the next call for any company sends a token request |
| Authentication.ApiAuthenticationService.constructor | MES.Office.ApiClient/Services/ApiAuthenticationService.cs:50-58 | a new service holds the given settings and an empty slot |
| Authentication.ApiAuthenticationService.RequestNewTokenAsync | MES.Office.ApiClient/Services/ApiAuthenticationService.cs:115-159 | the outcome and the new slot are those of Refresh, and the request sent is TokenRequestFor |
| Authentication.ApiAuthenticationService.GetTokenAsync | MES.Office.ApiClient/Services/ApiAuthenticationService.cs:61-88 | the outcome, the request sent and the new slot are those of GetToken on the old slot |
| Authentication.ApiAuthenticationService.ClearCachedToken | MES.Office.ApiClient/Services/ApiAuthenticationService.cs:100-106 | the slot returns to its initial state |
| Authentication.ApiAuthenticationService.SetAuthorizationHeader | MES.Office.ApiClient/Services/ApiAuthenticationService.cs:91-97 | a null client or a null or blank token raises the matching argument exception and changes nothing; otherwise the client's header becomes Bearer with the token |
| Handlers.IsTokenEndpointIgnoresCase | MES.Office.ApiClient/Handlers/AuthenticationHandler.cs:102-107 | a path is the token endpoint exactly when it contains /api/auth/token ignoring ASCII case; the service's own token path is one; a null URI is not |
| Handlers.ResolveCompany | MES.Office.ApiClient/Handlers/AuthenticationHandler.cs:47-55 | the company differs from the default only when the header has a first value, and it is then within the long range |
| Handlers.ResolveCompanyOf | MES.Office.ApiClient/Handlers/AuthenticationHandler.cs:47-55 | a header whose first value is the decimal text of a long selects that company; a missing, empty or unparsable header leaves the default |
| Handlers.Handle | MES.Office.ApiClient/Handlers/AuthenticationHandler.cs:34-100 | one or two sends and at most two token requests per call; the cache-slot invariant is kept |
| Handlers.AuthenticationHandler.constructor | MES.Office.ApiClient/Handlers/AuthenticationHandler.cs:23-31 | the handler holds the given service and default company |
| Handlers.AuthenticationHandler.CompanyOf | MES.Office.ApiClient/Handlers/AuthenticationHandler.cs:47-55 | the company used is ResolveCompany of the default and the header values |
| Handlers.AuthenticationHandler.SendAsync | MES.Office.ApiClient/Handlers/AuthenticationHandler.cs:34-100 | the result, the headers sent, the token requests and the new cache slot are those of Handle on the old state |
| Handlers.TokenEndpointBypassed | MES.Office.ApiClient/Handlers/AuthenticationHandler.cs:39-42 | a request to the token endpoint is sent once, unchanged, with no token request and no retry, even on 401 |
| Handlers.SingleSendUnlessUnauthorized | MES.Office.ApiClient/Handlers/AuthenticationHandler.cs:44-79 | a response other than 401 is returned after exactly one send, with a Bearer token for the resolved company when one was obtained and the original header otherwise |
| Handlers.RetryOnceOnUnauthorized | MES.Office.ApiClient/Handlers/AuthenticationHandler.cs:79-97 | on a 401 the cache is cleared and a token is requested for the default company; with a token the request is resent and the second response is returned whatever its status; otherwise the first 401 is returned |
| Handlers.TokenFailureSwallowed | MES.Office.ApiClient/Handlers/AuthenticationHandler.cs:44-76 | when the first token cannot be obtained the request is still sent, with its original header, and a fault of that send is passed on |
| Text.LowerMatch | MES.Office.ApiClient/Handlers/AuthenticationHandler.cs:104-106 | against a lower-case pattern, a match in the lower-cased path is a match in the path ignoring ASCII case |
| WebAppExtensions.ShouldSkipIgnoresCase | MES.Office.WebApp/Extensions/AuthenticationHandlerFilter.cs:39-41 | whether a client is skipped does not depend on the letter case of its name |
| WebAppExtensions.StartsWithTransfer | MES.Office.WebApp/Extensions/AuthenticationHandlerFilter.cs:41 | a case-insensitive prefix of one name is a case-insensitive prefix of every name that differs from it only in case |
| WebAppExtensions.ContainsTransfer | MES.Office.WebApp/Extensions/AuthenticationHandlerFilter.cs:40 | a case-insensitive occurrence in one name is one in every name that differs from it only in case |
| WebAppExtensions.SharedInstance | MES.Office.WebApp/Extensions/AuthenticationHandlerFilter.cs:58-72 | once a call has resolved a service, every later call returns that same instance, so all appended handlers share one token cache; a null from the provider is not remembered |
| WebAppExtensions.StaysCached | MES.Office.WebApp/Extensions/AuthenticationHandlerFilter.cs:60-61 | with a cached service, every call returns it |
| WebAppExtensions.AuthenticationHandlerFilter.constructor | MES.Office.WebApp/Extensions/AuthenticationHandlerFilter.cs:23-26 | a new filter has no cached service |
| WebAppExtensions.AuthenticationHandlerFilter.GetOrCreateAuthService | MES.Office.WebApp/Extensions/AuthenticationHandlerFilter.cs:58-72 | the provider is asked only while nothing is cached, and the answer is cached |
| WebAppExtensions.AuthenticationHandlerFilter.Configure | MES.Office.WebApp/Extensions/AuthenticationHandlerFilter.cs:28-56 | after next runs, exactly one AuthenticationHandler sharing the resolved service is appended for a client that is not skipped when a service resolves, and nothing otherwise |
| CrudApiClientBase.CrudCall | MES.Office.ApiClient/Core/CrudApiClientBase.cs:30-73 | record operations address an endpoint that reads back as their id; GetAll and Create address the collection; the by-code endpoint never reads back as a record; verb, body and response shape per operation |
| CrudApiClientBase.RecordEndpoints | MES.Office.ApiClient/Core/CrudApiClientBase.cs:38-73 | reading, updating and deleting a record share one endpoint, distinct for distinct ids and distinct from the collection and every by-code endpoint |
| CrudApiClientBase.GetTestData | MES.Office.ApiClient/Core/CrudApiClientBase.cs:78-90 | succeeds exactly when GetAllAsync does, passes its failure on by code and message, and keeps only test items |
| CrudApiClientBase.GetTestDataKeepsTestItems | MES.Office.ApiClient/Core/CrudApiClientBase.cs:78-90 | every test item is kept as often as it was listed, no other item is kept, and the order is kept |
| AuditLogItemClient.Crud | MES.Office.ApiClient/Objects/Common/AuditLogItem_ApiClient.cs:16-51 | create, update and delete answer with their refusal messages without a request; the reads are those of the base on api/audit-logs |
| AuditLogItemClient.GetByEntity | MES.Office.ApiClient/Objects/Common/AuditLogItem_ApiClient.cs:56-59 | a GET of the list at entity/{type}/{id} under api/audit-logs |
| AuditLogItemClient.GetByUser | MES.Office.ApiClient/Objects/Common/AuditLogItem_ApiClient.cs:64-67 | a GET of the list at user/{userId} under api/audit-logs |
| AuditLogItemClient.LookupsDistinct | MES.Office.ApiClient/Objects/Common/AuditLogItem_ApiClient.cs:56-67 | the entity, user and by-code lookups never share an endpoint with each other or with any record |
| LocalizationClient.ToOption | MES.Office.ApiClient/Configuration/Localization_ApiClient.cs:66-72 | an option carries the five fields of its language record unchanged |
| LocalizationClient.BundleLanguage | MES.Office.ApiClient/Configuration/Localization_ApiClient.cs:31-34 | the given code, or en when it is null or white space; never blank |
| LocalizationClient.GetBundle | MES.Office.ApiClient/Configuration/Localization_ApiClient.cs:27-39 | a GET of bundle/{language} with the defaulted language |
| LocalizationClient.BundleDefaultStable | MES.Office.ApiClient/Configuration/Localization_ApiClient.cs:31-34 | null, blank and en ask for the same bundle, and asking again for the language asked for makes the same call |
| LocalizationClient.GetSupportedLanguages | MES.Office.ApiClient/Configuration/Localization_ApiClient.cs:42-48 | a GET of languages/supported |
| LocalizationClient.GetCacheStatistics | MES.Office.ApiClient/Configuration/Localization_ApiClient.cs:168-174 | a GET of cache/statistics |
| LocalizationClient.GetAvailableLanguages | MES.Office.ApiClient/Configuration/Localization_ApiClient.cs:51-76 | an executor failure passed on by code and message; null as no options; otherwise one option per record, in order, copying its fields |
| LocalizationClient.GetDefaultLanguage | MES.Office.ApiClient/Configuration/Localization_ApiClient.cs:79-115 | an executor failure passed on by code and message; when the server sends null, exactly the record with code en, name and native name English, no flag, marked default; otherwise the record's fields |
| LocalizationClient.GetMessage | MES.Office.ApiClient/Configuration/Localization_ApiClient.cs:118-135 | a null or blank key fails with a validation error and no request; otherwise a GET whose endpoint reads back as the escaped key, decoding to the key's UTF-8 bytes, and the language, en only when null |
| LocalizationClient.MessageEndpointReadBack | MES.Office.ApiClient/Configuration/Localization_ApiClient.cs:133 | a message endpoint reads back as its escaped key and its language |
| LocalizationClient.EscapeAll | MES.Office.ApiClient/Configuration/Localization_ApiClient.cs:161 | one escaped key per key, in order |
| LocalizationClient.GetMessages | MES.Office.ApiClient/Configuration/Localization_ApiClient.cs:138-165 | a null request fails with no request sent; null or no keys answer an empty response in the request's language; otherwise one GET of the batch query |
| LocalizationClient.MessagesQueryReadBack | MES.Office.ApiClient/Configuration/Localization_ApiClient.cs:161-163 | the keys parameter splits on commas into one part per key, in order, each decoding to the key's UTF-8 bytes; lang gives the language when it has no & |
| LocalizationClient.JoinedKeys | MES.Office.ApiClient/Configuration/Localization_ApiClient.cs:161 | the joined escaped keys contain no & and split back into the escaped keys |
| LocalizationClient.BatchQueryParsed | MES.Office.ApiClient/Configuration/Localization_ApiClient.cs:163 | keys reads back first; lang reads back when it holds no & |
| StockMovementClient.Crud | MES.Office.ApiClient/Transactions/Stock/StockMovement_ApiClient.cs:28-72 | create, update and delete answer with a validation failure from this client, with an empty context and their refusal messages, and send no request; GetAll lists the route; GetById reads back as its id |
| StockMovementClient.Search | MES.Office.ApiClient/Transactions/Stock/StockMovement_ApiClient.cs:74-77 | the filters POSTed to search, read as a list |
| StockMovementClient.GetByCriterion | MES.Office.ApiClient/Transactions/Stock/StockMovement_ApiClient.cs:79-97 | a GET of the list at product/, stock-bin/ or batch/ followed by the id, an endpoint that never reads back as a record |
| StockMovementClient.TwoPresent | MES.Office.ApiClient/Transactions/Stock/StockMovement_ApiClient.cs:86 | two present parameters render as ?n1=v1&n2=v2 |
| StockMovementClient.GetByDateRange | MES.Office.ApiClient/Transactions/Stock/StockMovement_ApiClient.cs:84-87 | a GET at date-range with fromDate and toDate written yyyy-MM-dd |
| StockMovementClient.DateRangeQuery | MES.Office.ApiClient/Transactions/Stock/StockMovement_ApiClient.cs:86 | the fixed date-range query is the builder's query of the two dates |
| StockMovementClient.DateRangeReadBack | MES.Office.ApiClient/Transactions/Stock/StockMovement_ApiClient.cs:84-87 | the date-range query reads back as the two calendar dates |
| StockMovementClient.GetByEntity | MES.Office.ApiClient/Transactions/Stock/StockMovement_ApiClient.cs:99-102 | a GET at entity/{id}/{type} that reads back as the entity id and type name |
| StockMovementClient.GetHistory | MES.Office.ApiClient/Transactions/Stock/StockMovement_ApiClient.cs:114-121 | a POST of the filters when there are some and a GET otherwise, at an endpoint that reads back as the movement id and history |
| StockMovementClient.AppendIfNotEmpty | MES.Office.ApiClient/Transactions/Stock/StockMovement_ApiClient.cs:107-110 | one conditional += extends the joined query by the candidate when the value is neither null nor empty |
| StockMovementClient.AnalyticsQuery | MES.Office.ApiClient/Transactions/Stock/StockMovement_ApiClient.cs:106-110 | the query grown by += is the builder's query of the two dates and of the product and stock bin when neither null nor empty |
| StockMovementClient.GetAnalyticsAsync | MES.Office.ApiClient/Transactions/Stock/StockMovement_ApiClient.cs:104-112 | a GET of the list at analytics with that query |
| StockMovementClient.AnalyticsReadBack | MES.Office.ApiClient/Transactions/Stock/StockMovement_ApiClient.cs:104-112 | when the unescaped product and stock bin hold no &, each name reads back as its value, nothing when left out, and no other name appears |
| StockMovementClient.CollectAppend | MES.Office.ApiClient/Transactions/Stock/StockMovement_ApiClient.cs:140-156 | the dictionary of entries added in two runs is the two runs' dictionaries in order |
| StockMovementClient.CollectKeys | MES.Office.ApiClient/Transactions/Stock/StockMovement_ApiClient.cs:140-156 | the dictionary holds only keys it was given |
| StockMovementClient.GetCollect | MES.Office.ApiClient/Transactions/Stock/StockMovement_ApiClient.cs:140-156 | with distinct keys the dictionary holds each entry's value under its key, nothing for an entry without value, and no other key |
| StockMovementClient.AddFilter | MES.Office.ApiClient/Transactions/Stock/StockMovement_ApiClient.cs:142-156 | one Add on a key not yet present adds the entry when it has a value |
| StockMovementClient.GetWithFiltersAsync | MES.Office.ApiClient/Transactions/Stock/StockMovement_ApiClient.cs:128-161 | the filters are built one Add at a time with no key added twice, and POSTed to search |
| StockMovementClient.SearchKeysDistinct | MES.Office.ApiClient/Transactions/Stock/StockMovement_ApiClient.cs:142-156 | the eight keys are distinct, so no Add throws |
| StockMovementClient.SearchFiltersValues | MES.Office.ApiClient/Transactions/Stock/StockMovement_ApiClient.cs:140-156 | each optional filter is present exactly when it has a value and holds it; Page and PageSize are always present |
| StockMovementClient.SearchFiltersOnly | MES.Office.ApiClient/Transactions/Stock/StockMovement_ApiClient.cs:140-156 | the filters hold no key other than the eight |
| PurchaseOrderClient.Crud | MES.Office.ApiClient/Transactions/Purchasing/PurchaseOrder_ApiClient.cs:31-58 | GetAll lists the route; Create POSTs the DTO there; GetById, Update and Delete address the endpoint that reads back as their id, with their verbs, bodies and response shapes |
| PurchaseOrderClient.BulkDelete | MES.Office.ApiClient/Transactions/Purchasing/PurchaseOrder_ApiClient.cs:62-66 | a DELETE carrying the id list to bulk, read as one result |
| PurchaseOrderClient.ChangeWorkflowStatus | MES.Office.ApiClient/Transactions/Purchasing/PurchaseOrder_ApiClient.cs:68-72 | a POST of the request to workflow-status |
| PurchaseOrderClient.Validate | MES.Office.ApiClient/Transactions/Purchasing/PurchaseOrder_ApiClient.cs:76-80 | a POST of the edit DTO to validate |
| PurchaseOrderClient.TransitionCall | MES.Office.ApiClient/Transactions/Purchasing/PurchaseOrder_ApiClient.cs:84-118 | each transition (submit, approve, reject, send, receive, close) is a POST of its request to an endpoint that reads back as the id and the transition's action |
| PurchaseOrderClient.TransitionsDistinct | MES.Office.ApiClient/Transactions/Purchasing/PurchaseOrder_ApiClient.cs:84-118 | two transitions share an endpoint exactly when they are the same transition of the same record, and no transition uses the history endpoint |
| PurchaseOrderClient.WorkflowHistory | MES.Office.ApiClient/Transactions/Purchasing/PurchaseOrder_ApiClient.cs:122-127 | a GET of the list at an endpoint that reads back as the id and workflow-history |
| PurchaseOrderClient.WithFiltersReadable | MES.Office.ApiClient/Transactions/Purchasing/PurchaseOrder_ApiClient.cs:135-172 | the parameter names GetWithFiltersAsync writes are distinct and plain, so its query reads back whenever no value holds an & |
| PurchaseOrderClient.GetWithFiltersAsync | MES.Office.ApiClient/Transactions/Purchasing/PurchaseOrder_ApiClient.cs:135-172 | the list of parts built one conditional Add at a time is the query of the set filters in source order, with page, pageSize and the escaped sortDirection always present |
| PurchaseOrderClient.WithFiltersReadBack | MES.Office.ApiClient/Transactions/Purchasing/PurchaseOrder_ApiClient.cs:135-172 | the query reads back as the arguments: each name gives its id in decimal, its escaped string (decoding to the UTF-8 bytes) or its yyyy-MM-dd date, nothing when its guard left it out, and no other name appears |
| PurchaseOrderClient.LinesReadable | MES.Office.ApiClient/Transactions/Purchasing/PurchaseOrder_ApiClient.cs:177-208 | the parameter names GetLinesAsync writes are distinct and plain, so its query reads back whenever no value holds an & |
| PurchaseOrderClient.GetLinesAsync | MES.Office.ApiClient/Transactions/Purchasing/PurchaseOrder_ApiClient.cs:177-208 | the list of parts built one conditional Add at a time is the query of the set filters in source order at lines, with page and pageSize always present |
| PurchaseOrderClient.LinesReadBack | MES.Office.ApiClient/Transactions/Purchasing/PurchaseOrder_ApiClient.cs:177-208 | the query reads back as the arguments: each name gives its id in decimal, its escaped string (decoding to the UTF-8 bytes) or its yyyy-MM-dd date, nothing when its guard left it out, and no other name appears |
| SalesOrderClient.Crud | MES.Office.ApiClient/Transactions/Sales/SalesOrder_ApiClient.cs:15-26 | the operations inherited from the CRUD base on api/sales/orders, with the GetAllAsync override listing the collection; GetByCode goes to code/{code}, which never reads back as a record |
| SalesOrderClient.BulkDelete | MES.Office.ApiClient/Transactions/Sales/SalesOrder_ApiClient.cs:28-31 | a DELETE carrying the id list to bulk, read as one result |
| SalesOrderClient.ChangeWorkflowStatus | MES.Office.ApiClient/Transactions/Sales/SalesOrder_ApiClient.cs:32-35 | a POST of the request to workflow-status |
| SalesOrderClient.Validate | MES.Office.ApiClient/Transactions/Sales/SalesOrder_ApiClient.cs:36-39 | a POST of the edit DTO to validate |
| SalesOrderClient.TransitionCall | MES.Office.ApiClient/Transactions/Sales/SalesOrder_ApiClient.cs:41-74 | each transition (submit, approve, reject, pick, ship, deliver, invoice) is a POST of its request to an endpoint that reads back as the id and the transition's action |
| SalesOrderClient.TransitionsDistinct | MES.Office.ApiClient/Transactions/Sales/SalesOrder_ApiClient.cs:41-74 | two transitions share an endpoint exactly when they are the same transition of the same record, and no transition uses the history endpoint |
| SalesOrderClient.WorkflowHistory | MES.Office.ApiClient/Transactions/Sales/SalesOrder_ApiClient.cs:81-85 | a GET of the list at an endpoint that reads back as the id and workflow-history |
| SalesOrderClient.Search | MES.Office.ApiClient/Transactions/Sales/SalesOrder_ApiClient.cs:76-79 | the filter POSTed to search, read as a list, at an endpoint that is no record's |
| SalesOrderClient.WithFiltersReadable | MES.Office.ApiClient/Transactions/Sales/SalesOrder_ApiClient.cs:92-132 | the parameter names GetWithFiltersAsync writes are distinct and plain, so its query reads back whenever no value holds an & |
| SalesOrderClient.GetWithFiltersAsync | MES.Office.ApiClient/Transactions/Sales/SalesOrder_ApiClient.cs:92-132 | the list of parts built one conditional Add at a time is the query of the set filters in source order, with page, pageSize and the escaped sortDirection always present |
| SalesOrderClient.WithFiltersReadBack | MES.Office.ApiClient/Transactions/Sales/SalesOrder_ApiClient.cs:92-132 | the query reads back as the arguments: each name gives its id in decimal, its escaped string (decoding to the UTF-8 bytes) or its yyyy-MM-dd date, nothing when its guard left it out, and no other name appears |
| SalesOrderClient.LinesReadable | MES.Office.ApiClient/Transactions/Sales/SalesOrder_ApiClient.cs:137-168 | the parameter names GetLinesAsync writes are distinct and plain, so its query reads back whenever no value holds an & |
| SalesOrderClient.GetLinesAsync | MES.Office.ApiClient/Transactions/Sales/SalesOrder_ApiClient.cs:137-168 | the list of parts built one conditional Add at a time is the query of the set filters in source order at lines, with page and pageSize always present |
| SalesOrderClient.LinesReadBack | MES.Office.ApiClient/Transactions/Sales/SalesOrder_ApiClient.cs:137-168 | the query reads back as the arguments: each name gives its id in decimal, its escaped string (decoding to the UTF-8 bytes) or its yyyy-MM-dd date, nothing when its guard left it out, and no other name appears |
| PurchaseReturnClient.Crud | MES.Office.ApiClient/Transactions/Purchasing/PurchaseReturn_ApiClient.cs:30-77 | GetAll lists the route; Create POSTs the DTO there; GetById, Update and Delete address the endpoint that reads back as their id, with their verbs, bodies and response shapes |
| PurchaseReturnClient.BulkDelete | MES.Office.ApiClient/Transactions/Purchasing/PurchaseReturn_ApiClient.cs:81-85 | a DELETE carrying the id list to bulk, read as one result |
| PurchaseReturnClient.ChangeWorkflowStatus | MES.Office.ApiClient/Transactions/Purchasing/PurchaseReturn_ApiClient.cs:87-91 | a POST of the request to workflow-status |
| PurchaseReturnClient.Validate | MES.Office.ApiClient/Transactions/Purchasing/PurchaseReturn_ApiClient.cs:95-99 | a POST of the edit DTO to validate |
| PurchaseReturnClient.TransitionCall | MES.Office.ApiClient/Transactions/Purchasing/PurchaseReturn_ApiClient.cs:105-156 | each transition (submit, approve, reject, ship, return, credit) is a POST of its request to an endpoint that reads back as the id and the transition's action |
| PurchaseReturnClient.TransitionsDistinct | MES.Office.ApiClient/Transactions/Purchasing/PurchaseReturn_ApiClient.cs:105-156 | two transitions share an endpoint exactly when they are the same transition of the same record, and no transition uses the history endpoint |
| PurchaseReturnClient.WorkflowHistory | MES.Office.ApiClient/Transactions/Purchasing/PurchaseReturn_ApiClient.cs:160-165 | a GET of the list at an endpoint that reads back as the id and workflow-history |
| PurchaseReturnClient.Submit | MES.Office.ApiClient/Transactions/Purchasing/PurchaseReturn_ApiClient.cs:113-116 | SubmitAsync makes exactly the call of SubmitForApprovalAsync, and no other transition of any return makes it |
| PurchaseReturnClient.Search | MES.Office.ApiClient/Transactions/Purchasing/PurchaseReturn_ApiClient.cs:172-175 | the filter POSTed to search and read through the single-value executor (the whole list as one value), at an endpoint that is no record's |
| PurchaseReturnClient.FilteredReadable | MES.Office.ApiClient/Transactions/Purchasing/PurchaseReturn_ApiClient.cs:41-59 | the parameter names GetFilteredAsync writes are distinct and plain, so its query reads back whenever no value holds an & |
| PurchaseReturnClient.GetFilteredAsync | MES.Office.ApiClient/Transactions/Purchasing/PurchaseReturn_ApiClient.cs:41-59 | the list of parts built one conditional Add at a time is the query of the set filters in source order, and the bare route when none is set |
| PurchaseReturnClient.FilteredReadBack | MES.Office.ApiClient/Transactions/Purchasing/PurchaseReturn_ApiClient.cs:41-59 | the query reads back as the arguments: each name gives its id in decimal, its escaped string (decoding to the UTF-8 bytes) or its yyyy-MM-dd date, nothing when its guard left it out, and no other name appears |
| PurchaseDeliveryNoteClient.Crud | MES.Office.ApiClient/Transactions/Purchasing/PurchaseDeliveryNote_ApiClient.cs:30-77 | GetAll lists the route; Create POSTs the DTO there; GetById, Update and Delete address the endpoint that reads back as their id, with their verbs, bodies and response shapes |
| PurchaseDeliveryNoteClient.SubmitForApproval | MES.Office.ApiClient/Transactions/Purchasing/PurchaseDeliveryNote_ApiClient.cs:83-86 | the ids POSTed to submit-for-approval, a collection endpoint that is no record's |
| PurchaseDeliveryNoteClient.Receive | MES.Office.ApiClient/Transactions/Purchasing/PurchaseDeliveryNote_ApiClient.cs:91-105 | a POST to an endpoint that reads back as the id and receive, whose body carries the date, the quantities per line and the notes as given |
| PurchaseDeliveryNoteClient.Post | MES.Office.ApiClient/Transactions/Purchasing/PurchaseDeliveryNote_ApiClient.cs:110-122 | a POST to an endpoint that reads back as the id and post, whose body carries the posting date and the comments as given |
| PurchaseDeliveryNoteClient.WorkflowEndpointsDistinct | MES.Office.ApiClient/Transactions/Purchasing/PurchaseDeliveryNote_ApiClient.cs:83-122 | receiving and posting never share an endpoint; each is distinct per note; neither is the batch submission's |
| PurchaseDeliveryNoteClient.FilteredReadable | MES.Office.ApiClient/Transactions/Purchasing/PurchaseDeliveryNote_ApiClient.cs:41-59 | the parameter names GetFilteredAsync writes are distinct and plain, so its query reads back whenever no value holds an & |
| PurchaseDeliveryNoteClient.GetFilteredAsync | MES.Office.ApiClient/Transactions/Purchasing/PurchaseDeliveryNote_ApiClient.cs:41-59 | the list of parts built one conditional Add at a time is the query of the set filters in source order, and the bare route when none is set |
| PurchaseDeliveryNoteClient.FilteredReadBack | MES.Office.ApiClient/Transactions/Purchasing/PurchaseDeliveryNote_ApiClient.cs:41-59 | the query reads back as the arguments: each name gives its id in decimal, its escaped string (decoding to the UTF-8 bytes) or its yyyy-MM-dd date, nothing when its guard left it out, and no other name appears |
| ShippingNoteClient.Crud | MES.Office.ApiClient/Transactions/Purchasing/ShippingNote_ApiClient.cs:30-110 | GetAll lists the route; Create POSTs the DTO there; GetById, Update and Delete address the endpoint that reads back as their id, with their verbs, bodies and response shapes |
| ShippingNoteClient.BulkDelete | MES.Office.ApiClient/Transactions/Purchasing/ShippingNote_ApiClient.cs:114-118 | a DELETE carrying the id list to bulk, read as one result |
| ShippingNoteClient.ChangeWorkflowStatus | MES.Office.ApiClient/Transactions/Purchasing/ShippingNote_ApiClient.cs:120-124 | a POST of the request to workflow-status |
| ShippingNoteClient.Validate | MES.Office.ApiClient/Transactions/Purchasing/ShippingNote_ApiClient.cs:128-132 | a POST of the edit DTO to validate |
| ShippingNoteClient.TransitionCall | MES.Office.ApiClient/Transactions/Purchasing/ShippingNote_ApiClient.cs:138-149 | each transition (ship, deliver) is a POST of its request to an endpoint that reads back as the id and the transition's action |
| ShippingNoteClient.TransitionsDistinct | MES.Office.ApiClient/Transactions/Purchasing/ShippingNote_ApiClient.cs:138-149 | two transitions share an endpoint exactly when they are the same transition of the same record, and no transition uses the history endpoint |
| ShippingNoteClient.WorkflowHistory | MES.Office.ApiClient/Transactions/Purchasing/ShippingNote_ApiClient.cs:153-158 | a GET of the list at an endpoint that reads back as the id and workflow-history |
| ShippingNoteClient.FilteredReadable | MES.Office.ApiClient/Transactions/Purchasing/ShippingNote_ApiClient.cs:46-65 | the parameter names GetFilteredAsync writes are distinct and plain, so its query reads back whenever no value holds an & |
| ShippingNoteClient.GetFilteredAsync | MES.Office.ApiClient/Transactions/Purchasing/ShippingNote_ApiClient.cs:46-65 | the list of parts built one conditional Add at a time is the query of the set filters in source order, and the bare route when none is set |
| ShippingNoteClient.FilteredReadBack | MES.Office.ApiClient/Transactions/Purchasing/ShippingNote_ApiClient.cs:46-65 | the query reads back as the arguments: each name gives its id in decimal, its escaped string (decoding to the UTF-8 bytes) or its yyyy-MM-dd date, nothing when its guard left it out, and no other name appears |
| ShippingNoteClient.PagedReadable | MES.Office.ApiClient/Transactions/Purchasing/ShippingNote_ApiClient.cs:68-92 | the parameter names of the paged listing are distinct and plain, so its query reads back whenever no value holds an & |
| ShippingNoteClient.GetAllPagedAsync | MES.Office.ApiClient/Transactions/Purchasing/ShippingNote_ApiClient.cs:68-92 | the paged listing is a single-value GET of the route with the query of page and pageSize first, then the set filters; the unconditional ? is never followed by an empty query |
| ShippingNoteClient.PagedReadBack | MES.Office.ApiClient/Transactions/Purchasing/ShippingNote_ApiClient.cs:68-92 | the paged query reads back as page, pageSize and the set filters, nothing for a filter left out, and no other name |
| StockIssueRequestClient.Crud | MES.Office.ApiClient/Transactions/Stock/StockIssueRequest_ApiClient.cs:27-54 | GetAll lists the route; Create POSTs the DTO there; GetById, Update and Delete address the endpoint that reads back as their id, with their verbs, bodies and response shapes |
| StockIssueRequestClient.BulkDelete | MES.Office.ApiClient/Transactions/Stock/StockIssueRequest_ApiClient.cs:57-61 | a DELETE carrying the id list to bulk, read as one result |
| StockIssueRequestClient.ChangeWorkflowStatus | MES.Office.ApiClient/Transactions/Stock/StockIssueRequest_ApiClient.cs:63-67 | a POST of the request to workflow-status |
| StockIssueRequestClient.Validate | MES.Office.ApiClient/Transactions/Stock/StockIssueRequest_ApiClient.cs:70-74 | a POST of the edit DTO to validate |
| StockIssueRequestClient.TransitionCall | MES.Office.ApiClient/Transactions/Stock/StockIssueRequest_ApiClient.cs:77-106 | each transition (submit, approve, reject, issue, complete) is a POST of its request to an endpoint that reads back as the id and the transition's action |
| StockIssueRequestClient.TransitionsDistinct | MES.Office.ApiClient/Transactions/Stock/StockIssueRequest_ApiClient.cs:77-106 | two transitions share an endpoint exactly when they are the same transition of the same record, and no transition uses the history endpoint |
| StockIssueRequestClient.WorkflowHistory | MES.Office.ApiClient/Transactions/Stock/StockIssueRequest_ApiClient.cs:108-113 | a GET of the list at an endpoint that reads back as the id and workflow-history |
| StockIssueRequestClient.GetApprovedRequests | MES.Office.ApiClient/Transactions/Stock/StockIssueRequest_ApiClient.cs:115-118 | a GET of the list at approved, an endpoint that is no record's |
| StockIssueRequestClient.WithFiltersReadable | MES.Office.ApiClient/Transactions/Stock/StockIssueRequest_ApiClient.cs:125-168 | the parameter names GetWithFiltersAsync writes are distinct and plain, so its query reads back whenever no value holds an & |
| StockIssueRequestClient.GetWithFiltersAsync | MES.Office.ApiClient/Transactions/Stock/StockIssueRequest_ApiClient.cs:125-168 | the list of parts built one conditional Add at a time is the query of the set filters in source order, with page, pageSize and the escaped sortDirection always present |
| StockIssueRequestClient.WithFiltersReadBack | MES.Office.ApiClient/Transactions/Stock/StockIssueRequest_ApiClient.cs:125-168 | the query reads back as the arguments: each name gives its id in decimal, its escaped string (decoding to the UTF-8 bytes) or its yyyy-MM-dd date, nothing when its guard left it out, and no other name appears |
| StockIssueRequestClient.LinesReadable | MES.Office.ApiClient/Transactions/Stock/StockIssueRequest_ApiClient.cs:173-210 | the parameter names GetLinesAsync writes are distinct and plain, so its query reads back whenever no value holds an & |
| StockIssueRequestClient.GetLinesAsync | MES.Office.ApiClient/Transactions/Stock/StockIssueRequest_ApiClient.cs:173-210 | the list of parts built one conditional Add at a time is the query of the set filters in source order at lines, with page and pageSize always present |
| StockIssueRequestClient.LinesReadBack | MES.Office.ApiClient/Transactions/Stock/StockIssueRequest_ApiClient.cs:173-210 | the query reads back as the arguments: each name gives its id in decimal, its escaped string (decoding to the UTF-8 bytes) or its yyyy-MM-dd date, nothing when its guard left it out, and no other name appears |
| TransactionRoutes.BulkDelete | MES.Office.ApiClient/Transactions/Purchasing/PurchaseOrder_ApiClient.cs:62-66 | a DELETE carrying the id list to bulk under the route |
| TransactionRoutes.ChangeWorkflowStatus | MES.Office.ApiClient/Transactions/Purchasing/PurchaseOrder_ApiClient.cs:68-72 | a POST of the request to workflow-status under the route |
| TransactionRoutes.Validate | MES.Office.ApiClient/Transactions/Purchasing/PurchaseOrder_ApiClient.cs:76-80 | a POST of the DTO to validate under the route |
| TransactionRoutes.Transition | MES.Office.ApiClient/Transactions/Purchasing/PurchaseOrder_ApiClient.cs:84-88 | a POST of the request to an endpoint that reads back as the id and the action |
| TransactionRoutes.WorkflowHistory | MES.Office.ApiClient/Transactions/Purchasing/PurchaseOrder_ApiClient.cs:122-127 | a GET of the list at an endpoint that reads back as the id and workflow-history |
| TransactionRoutes.CollectionRoutes | MES.Office.ApiClient/Transactions/Purchasing/PurchaseOrder_ApiClient.cs:62-80 | bulk, workflow-status and validate are three different endpoints, none of them a record's, a transition's or a history endpoint |
| Routes.SplitFirst | MES.Office.ApiClient/Core/CrudApiClientBase.cs:40 | splitting at the first / gives a slash-free head and the rest, which rejoin to the input |
| Routes.SplitFirstOf | MES.Office.ApiClient/Core/CrudApiClientBase.cs:40 | a slash-free head joined to a rest splits back into the two |
| Routes.ParseMemberOf | MES.Office.ApiClient/Core/CrudApiClientBase.cs:40 | {route}/{id} reads back as the id |
| Routes.ParseMemberActionOf | MES.Office.ApiClient/Transactions/Purchasing/PurchaseOrder_ApiClient.cs:87 | {route}/{id}/{action} reads back as the id and the action |
| Routes.RoutesDistinct | MES.Office.ApiClient/Transactions/Purchasing/PurchaseOrder_ApiClient.cs:84-127 | distinct (id, action) pairs give distinct endpoints, distinct ids give distinct record endpoints, and no record endpoint is an action endpoint |
| Routes.WordIsNotMember | MES.Office.ApiClient/Core/CrudApiClientBase.cs:48 | an endpoint whose first segment under the route is a word never reads back as a record |
| Routes.WordIsNeitherMemberNorAction | MES.Office.ApiClient/Transactions/Purchasing/PurchaseOrder_ApiClient.cs:65 | a collection endpoint is neither a record's nor one of its action endpoints |
| QueryParams.IdValue | MES.Office.ApiClient/Transactions/Purchasing/PurchaseOrder_ApiClient.cs:143-144 | an id is emitted exactly when present, as decimal text without & that long.TryParse reads back as the id |
| QueryParams.EscapedValue | MES.Office.ApiClient/Transactions/Purchasing/PurchaseOrder_ApiClient.cs:149-150 | a string is emitted exactly when neither null nor empty, as escaped text without & that decodes to its UTF-8 bytes |
| QueryParams.DateValue | MES.Office.ApiClient/Transactions/Purchasing/PurchaseOrder_ApiClient.cs:151-154 | a date is emitted exactly when present, as text without & that parses back to its calendar date |
| QueryParams.Emit | MES.Office.ApiClient/Transactions/Purchasing/PurchaseOrder_ApiClient.cs:142-166 | one conditional Add of a candidate extends the rendered parts of the candidates before it |
| QueryParams.AddIfHasValue | MES.Office.ApiClient/Transactions/Purchasing/PurchaseOrder_ApiClient.cs:143-144 | after the Add, the list renders the candidates so far and this id candidate |
| QueryParams.AddIfNotEmpty | MES.Office.ApiClient/Transactions/Purchasing/PurchaseOrder_ApiClient.cs:149-150 | after the Add, the list renders the candidates so far and this escaped string candidate |
| QueryParams.AddDateIfHasValue | MES.Office.ApiClient/Transactions/Purchasing/PurchaseOrder_ApiClient.cs:151-154 | after the Add, the list renders the candidates so far and this date candidate |
| QueryParams.AddAlways | MES.Office.ApiClient/Transactions/Purchasing/PurchaseOrder_ApiClient.cs:156-157 | after the Add, the list renders the candidates so far and this one, one part longer |
| QueryParams.JoinQuery | MES.Office.ApiClient/Transactions/Purchasing/PurchaseOrder_ApiClient.cs:169 | the query string of the parts: empty exactly when there is no part, otherwise starting with ? (followed by the parts joined by &) |
| QueryParams.ReadableZip | MES.Office.ApiClient/Transactions/Purchasing/PurchaseOrder_ApiClient.cs:135-172 | names that are distinct and plain paired with values without & make a readable candidate list |
| QueryParams.ReadBack | MES.Office.ApiClient/Transactions/Purchasing/PurchaseOrder_ApiClient.cs:169-171 | a readable candidate list's query gives each name its candidate's value, nothing when left out, and nothing for any other name |
| QueryParams.IntHasNoAmpersand | MES.Office.ApiClient/Transactions/Purchasing/PurchaseOrder_ApiClient.cs:156-157 | decimal text never holds & |
| QueryParams.EscapedHasNoAmpersand | MES.Office.ApiClient/Transactions/Purchasing/PurchaseOrder_ApiClient.cs:149-150 | escaped text never holds & |
| QueryParams.DateHasNoAmpersand | MES.Office.ApiClient/Transactions/Purchasing/PurchaseOrder_ApiClient.cs:151-154 | yyyy-MM-dd text never holds & |
| QueryStrings.RenderAll | MES.Office.ApiClient/Transactions/Purchasing/PurchaseOrder_ApiClient.cs:142-166 | one name=value part per parameter, in order |
| QueryStrings.QueryString | MES.Office.ApiClient/Transactions/Purchasing/PurchaseOrder_ApiClient.cs:169 | empty exactly when there is no part, and otherwise starting with ? |
| QueryStrings.Present | MES.Office.ApiClient/Transactions/Purchasing/PurchaseOrder_ApiClient.cs:142-166 | the emitted parameters are at most the candidates |
| QueryStrings.PresentAppend | MES.Office.ApiClient/Transactions/Purchasing/PurchaseOrder_ApiClient.cs:142-166 | candidates considered in two runs emit the two runs' parameters in order |
| QueryStrings.PresentSnoc | MES.Office.ApiClient/Transactions/Purchasing/PurchaseOrder_ApiClient.cs:142-166 | one more candidate adds its parameter exactly when its value is present |
| QueryStrings.LookupPresent | MES.Office.ApiClient/Transactions/Purchasing/PurchaseOrder_ApiClient.cs:142-166 | with distinct names, looking a name up among the emitted parameters gives its candidate's value and nothing for a name that is not a candidate |
| QueryStrings.ParseRender | MES.Office.ApiClient/Transactions/Purchasing/PurchaseOrder_ApiClient.cs:143 | a name=value part with no = in its name splits back into name and value |
| QueryStrings.ParseQueryString | MES.Office.ApiClient/Transactions/Purchasing/PurchaseOrder_ApiClient.cs:169 | a query string of safe parameters parses back into those parameters, in order |
| QueryStrings.QueryValues | MES.Office.ApiClient/Transactions/Purchasing/PurchaseOrder_ApiClient.cs:169-171 | with distinct, safe candidates, the query gives each name its candidate's value and nothing for any other name |
| QueryStrings.PresentSafe | MES.Office.ApiClient/Transactions/Purchasing/PurchaseOrder_ApiClient.cs:142-166 | candidates whose names and values are safe emit only safe parameters |
| PercentEncoding.Escape | MES.Office.ApiClient/Transactions/Purchasing/PurchaseOrder_ApiClient.cs:149-150 | escaped text holds only unreserved characters and % and is at least as long as the input |
| PercentEncoding.UnescapeEscape | MES.Office.ApiClient/Transactions/Purchasing/PurchaseOrder_ApiClient.cs:149-150 | decoding escaped text gives back the UTF-8 bytes of the input |
| PercentEncoding.EscapeUnreserved | MES.Office.ApiClient/Transactions/Purchasing/PurchaseOrder_ApiClient.cs:149-150 | text of unreserved characters is left unchanged |
| PercentEncoding.EscapeAppend | MES.Office.ApiClient/Configuration/Localization_ApiClient.cs:161 | escaping a concatenation escapes each part |
| PercentEncoding.EscapedLacks | MES.Office.ApiClient/Configuration/Localization_ApiClient.cs:161 | no reserved character other than % survives escaping, in particular no , and no & |
| PercentEncoding.Utf8 | MES.Office.ApiClient/Configuration/Localization_ApiClient.cs:133 | one to four bytes per character, one exactly for ASCII, which is its own code |
| Dates.FormatDate | MES.Office.ApiClient/Transactions/Purchasing/PurchaseOrder_ApiClient.cs:151-154 | ten characters, dashes at positions 4 and 7, digits elsewhere |
| Dates.ParseFormatDate | MES.Office.ApiClient/Transactions/Purchasing/PurchaseOrder_ApiClient.cs:151-154 | every date written as yyyy-MM-dd reads back as itself |
| Dates.FormatDateInjective | MES.Office.ApiClient/Transactions/Purchasing/PurchaseOrder_ApiClient.cs:151-154 | different dates are written differently |
| Decimal.IntToString | MES.Office.ApiClient/Transactions/Purchasing/PurchaseOrder_ApiClient.cs:143-144 | non-empty decimal digits, after a minus sign for a negative number |
| Decimal.ParseLong | MES.Office.ApiClient/Handlers/AuthenticationHandler.cs:51 | long.TryParse accepts only values within the long range |
| Decimal.ParseLongOfIntToString | MES.Office.ApiClient/Handlers/AuthenticationHandler.cs:51 | long.TryParse reads back every long that ToString writes |
| Decimal.IntToStringInjective | MES.Office.ApiClient/Transactions/Purchasing/PurchaseOrder_ApiClient.cs:143-144 | different longs are written differently |
| Text.NonEmpty | MES.Office.ApiClient/Transactions/Stock/StockMovement_ApiClient.cs:107-110 | the value of a string exactly when it is neither null nor empty |
| Text.ToLower | MES.Office.ApiClient/Handlers/AuthenticationHandler.cs:105 | lower-casing keeps the length and folds each character |
| Text.SplitJoin | MES.Office.ApiClient/Configuration/Localization_ApiClient.cs:161-163 | splitting a join of separator-free parts on the separator gives the parts back |
| Text.JoinSnoc | MES.Office.ApiClient/Transactions/Stock/StockMovement_ApiClient.cs:107-110 | joining one more part appends the separator and the part |

## Left out

- JSON serialization and deserialization are not modelled. DTO types are type parameters. Whether a body deserializes, or deserializes to null, is part of the `Outcome` given to the executor.
- Logging is not modelled. The stopwatch is not modelled either: `ElapsedMs` in a failure's context is a given number.
- Sending requests is not modelled. `HttpClient`, `HttpRequestMessage`, `HttpMessageHandlerBuilder` and the service provider are reduced to the fields the core reads and writes.
- The `SemaphoreSlim` in `ApiAuthenticationService` and the lock-free fast path are not modelled as concurrency. The model keeps the check before the lock and the re-check after it as two readings of the clock, with the state unchanged between them. Interleavings of concurrent callers are not modelled.
- The `CancellationToken` parameters are not modelled. A cancellation reaches the executor as an exception like any other (see above).
- `OrdinalIgnoreCase`, `ToLowerInvariant` and `StartsWith(..., OrdinalIgnoreCase)` fold only ASCII letters here. Unicode case folding is not modelled.
- `Uri.EscapeDataString` is modelled for well-formed text. Each character is encoded as UTF-8 and every byte outside the unreserved set is written `%XX`. Unpaired surrogates, for which .NET throws, are not modelled.
- `DateTime` is ticks for the token cache and a calendar date for `yyyy-MM-dd` query values. Time zones and `DateTimeKind` are not modelled.
- `long` arguments are unbounded integers. The read-back lemmas ask for values in the `long` range. `int` page numbers and page sizes are not bounded, and no overflow is modelled.
- Null entries inside the arrays of keys, languages and roles are not modelled. The arrays themselves may be null where the source allows it.
- StockMovementClient.AnalyticsReadBack: `productId` and `stockBinId` are not escaped by the source. The read-back lemma therefore asks that they contain no `&`.
- LocalizationClient.BatchQueryParsed: `lang` is not escaped by the source. The read-back lemma therefore reads `lang` back only when it contains no `&`.
- The `EntityType` enum of the audit-log lookup is modelled by its name as text.
- Positional `Result.Failure(...)` calls (the audit-log refusals and the failure passed on by `GetTestDataAsync`) keep their arguments as given. Their overload set is not part of this model, so the model does not claim which error field each argument fills.
- Authentication.CheckSlotIff: the `ArgumentOutOfRangeException` thrown when a cached expiry lies less than five minutes after `DateTime.MinValue` is modelled as a thrown result. It is not claimed as a defect, since a token response normally carries an expiry.
- Default argument values are not modelled: every argument is passed explicitly. The source defaults `page` to 1, `pageSize` to 50 and `sortDirection` to `"desc"` in the filtered and paged queries.
- The filter's check-then-lock-then-recheck in `GetOrCreateAuthService` is modelled as one sequential step. The lock and the race it guards against are not modelled; `SharedInstance` states the result for calls made one after another.
- Culture-dependent formatting is not modelled. `{id}` is written as invariant decimal text with `-` for negatives, and `{date:yyyy-MM-dd}` uses the Gregorian calendar with ASCII digits; a current culture with another calendar, minus sign or digits would format differently.
- The interfaces (`IApiAuthenticationService`, the `I..._ApiClient` contracts), dependency injection registration and the DTO classes are not part of this model.
