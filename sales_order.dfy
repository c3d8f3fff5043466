/**
 * `SalesOrder_ApiClient`: a `CrudApiClientBase` client of sales orders under
 * `api/sales/orders`. Its `GetAllAsync` override lists the response DTOs at
 * the same endpoint as the base, so all its CRUD calls are the base's; it
 * adds the collection actions of `TransactionRoutes`, a search, the
 * workflow route table and the two query builders.
 */
module SalesOrderClient {
  import opened Wrappers
  import opened ApiClientBase
  import opened QueryStrings
  import opened QueryParams
  import opened QueryNames
  import Decimal
  import PercentEncoding
  import Dates
  import Routes
  import TransactionRoutes
  import CrudApiClientBase

  const BaseEndpoint := "api/sales/orders"

  /**
   * The inherited CRUD operations and the `GetAllAsync` override, which
   * lists the collection exactly as the base does.
   */
  function Crud<D>(op: CrudApiClientBase.CrudOp<D>): (c: Call<D>)
    ensures CrudApiClientBase.OnRecord(op) ==> Routes.ParseMember(BaseEndpoint, c.endpoint) == Some((op.id, None))
    ensures op.GetAll? ==> c == Call(GET, BaseEndpoint, None, List)
    ensures op.GetById? || op.GetByCode? ==> c.verb == GET && c.body.None? && c.shape == Single
    ensures op.GetByCode? ==> c.endpoint == Routes.Child(BaseEndpoint, "code/" + op.code)
    ensures op.GetByCode? ==> Routes.ParseMember(BaseEndpoint, c.endpoint).None?
    ensures op.Create? ==> c == Call(POST, BaseEndpoint, Some(op.dto), Single)
    ensures op.Update? ==> c.verb == PUT && c.body == Some(op.dto) && c.shape == Single
    ensures op.Delete? ==> c.verb == DELETE && c.body.None? && c.shape == NoContent
  {
    if op.GetAll? then GetListAsync(BaseEndpoint) else CrudApiClientBase.CrudCall(BaseEndpoint, op)
  }

  /** `BulkDeleteAsync`: DELETE of the id list to `/bulk`. */
  function BulkDelete<B>(ids: B): (c: Call<B>)
    ensures c.verb == DELETE && c.body == Some(ids) && c.shape == Single
    ensures c.endpoint == Routes.Child(BaseEndpoint, "bulk")
  {
    TransactionRoutes.BulkDelete(BaseEndpoint, ids)
  }

  /** `ChangeWorkflowStatusAsync`: POST of the request to `/workflow-status`. */
  function ChangeWorkflowStatus<B>(request: B): (c: Call<B>)
    ensures c.verb == POST && c.body == Some(request) && c.shape == Single
    ensures c.endpoint == Routes.Child(BaseEndpoint, "workflow-status")
  {
    TransactionRoutes.ChangeWorkflowStatus(BaseEndpoint, request)
  }

  /** `ValidateAsync`: POST of the edit DTO to `/validate`. */
  function Validate<B>(dto: B): (c: Call<B>)
    ensures c.verb == POST && c.body == Some(dto) && c.shape == Single
    ensures c.endpoint == Routes.Child(BaseEndpoint, "validate")
  {
    TransactionRoutes.Validate(BaseEndpoint, dto)
  }

  /** The workflow transitions, each a POST to `/{id}/{segment}`. */
  datatype Transition = SubmitForApproval | Approve | Reject | Pick | Ship | Deliver | Invoice

  function Segment(t: Transition): string {
    match t
    case SubmitForApproval => "submit"
    case Approve => "approve"
    case Reject => "reject"
    case Pick => "pick"
    case Ship => "ship"
    case Deliver => "deliver"
    case Invoice => "invoice"
  }

  /**
   * `SubmitForApprovalAsync`, `ApproveAsync`, `RejectAsync`, `PickAsync`,
   * `ShipAsync`, `DeliverAsync`, `InvoiceAsync`.
   */
  function TransitionCall<B>(id: Decimal.Long, t: Transition, request: B): (c: Call<B>)
    ensures c.verb == POST && c.body == Some(request) && c.shape == Single
    ensures Routes.ParseMember(BaseEndpoint, c.endpoint) == Some((id, Some(Segment(t))))
  {
    TransactionRoutes.Transition(BaseEndpoint, id, Segment(t), request)
  }

  /**
   * Two transitions go to the same endpoint exactly when they are the same
   * transition of the same order, and none goes to the history endpoint.
   */
  lemma TransitionsDistinct<B>(id1: Decimal.Long, t1: Transition, id2: Decimal.Long, t2: Transition, request: B)
    ensures TransitionCall(id1, t1, request).endpoint == TransitionCall(id2, t2, request).endpoint
        <==> id1 == id2 && t1 == t2
    ensures TransitionCall(id1, t1, request).endpoint != TransactionRoutes.WorkflowHistory<B>(BaseEndpoint, id2).endpoint
  {
    var e1 := TransitionCall(id1, t1, request).endpoint;
    var e2 := TransitionCall(id2, t2, request).endpoint;
    if e1 == e2 {
      assert Segment(t1) == Segment(t2);
    }
  }

  /** `SearchAsync`: the filter POSTed to `/search`, read as a list. */
  function Search<F>(filter: F): (c: Call<F>)
    ensures c.verb == POST && c.body == Some(filter) && c.shape == List
    ensures c.endpoint == Routes.Child(BaseEndpoint, "search")
    ensures Routes.ParseMember(BaseEndpoint, c.endpoint).None?
  {
    Routes.WordIsNotMember(BaseEndpoint, "search");
    PostListAsync(Routes.Child(BaseEndpoint, "search"), filter)
  }

  /** `GetWorkflowHistoryAsync`: the list at `/{id}/workflow-history`. */
  function WorkflowHistory(id: Decimal.Long): (c: Call<NoBody>)
    ensures c.verb == GET && c.body.None? && c.shape == List
    ensures Routes.ParseMember(BaseEndpoint, c.endpoint) == Some((id, Some("workflow-history")))
  {
    TransactionRoutes.WorkflowHistory(BaseEndpoint, id)
  }

  /**
   * The parameters `GetWithFiltersAsync` may add, in the order it adds them, each with
   * the text it would carry (`None` when its guard leaves it out).
   */
  function WithFiltersCandidates(
    customerId: Option<string>, productId: Option<string>, siteId: Option<string>,
    salespersonUserId: Option<string>, statusCode: Option<string>, dateFrom: Option<string>,
    dateTo: Option<string>, page: Option<string>, pageSize: Option<string>, sortBy: Option<string>,
    sortDirection: Option<string>): seq<Candidate>
  {
    [Candidate(CustomerId, customerId)] + [Candidate(ProductId, productId)] + [Candidate(SiteId, siteId)] +
    [Candidate(SalespersonUserId, salespersonUserId)] + [Candidate(StatusCode, statusCode)] +
    [Candidate(DateFrom, dateFrom)] + [Candidate(DateTo, dateTo)] + [Candidate(Page, page)] +
    [Candidate(PageSize, pageSize)] + [Candidate(SortBy, sortBy)] +
    [Candidate(SortDirection, sortDirection)]
  }

  /** The names `GetWithFiltersAsync` writes, in order. */
  const WithFiltersNames := [
    CustomerId, ProductId, SiteId, SalespersonUserId, StatusCode, DateFrom, DateTo, Page, PageSize,
    SortBy, SortDirection]

  /** The candidates of `WithFiltersCandidates`, spelled out as one list. */
  lemma WithFiltersSpelled(
    customerId: Option<string>, productId: Option<string>, siteId: Option<string>,
    salespersonUserId: Option<string>, statusCode: Option<string>, dateFrom: Option<string>,
    dateTo: Option<string>, page: Option<string>, pageSize: Option<string>, sortBy: Option<string>,
    sortDirection: Option<string>)
    ensures WithFiltersCandidates(customerId, productId, siteId, salespersonUserId, statusCode, dateFrom, dateTo, page, pageSize, sortBy, sortDirection) == [
      Candidate(CustomerId, customerId), Candidate(ProductId, productId), Candidate(SiteId, siteId),
      Candidate(SalespersonUserId, salespersonUserId), Candidate(StatusCode, statusCode),
      Candidate(DateFrom, dateFrom), Candidate(DateTo, dateTo), Candidate(Page, page),
      Candidate(PageSize, pageSize), Candidate(SortBy, sortBy),
      Candidate(SortDirection, sortDirection)]
  {
  }

  /** The names zipped with the values give the same spelled-out list. */
  lemma WithFiltersZipSpelled(
    customerId: Option<string>, productId: Option<string>, siteId: Option<string>,
    salespersonUserId: Option<string>, statusCode: Option<string>, dateFrom: Option<string>,
    dateTo: Option<string>, page: Option<string>, pageSize: Option<string>, sortBy: Option<string>,
    sortDirection: Option<string>)
    ensures Zip(WithFiltersNames, [customerId, productId, siteId, salespersonUserId, statusCode, dateFrom, dateTo, page, pageSize, sortBy, sortDirection]) == [
      Candidate(CustomerId, customerId), Candidate(ProductId, productId), Candidate(SiteId, siteId),
      Candidate(SalespersonUserId, salespersonUserId), Candidate(StatusCode, statusCode),
      Candidate(DateFrom, dateFrom), Candidate(DateTo, dateTo), Candidate(Page, page),
      Candidate(PageSize, pageSize), Candidate(SortBy, sortBy),
      Candidate(SortDirection, sortDirection)]
  {
    var spelled := [
      Candidate(CustomerId, customerId), Candidate(ProductId, productId), Candidate(SiteId, siteId),
      Candidate(SalespersonUserId, salespersonUserId), Candidate(StatusCode, statusCode),
      Candidate(DateFrom, dateFrom), Candidate(DateTo, dateTo), Candidate(Page, page),
      Candidate(PageSize, pageSize), Candidate(SortBy, sortBy),
      Candidate(SortDirection, sortDirection)];
    var z := Zip(WithFiltersNames, [customerId, productId, siteId, salespersonUserId, statusCode, dateFrom, dateTo, page, pageSize, sortBy, sortDirection]);
    forall i | 0 <= i < 11 ensures z[i] == spelled[i] {
    }
  }

  /** The candidates are the names paired with the values, position by position. */
  lemma WithFiltersZip(
    customerId: Option<string>, productId: Option<string>, siteId: Option<string>,
    salespersonUserId: Option<string>, statusCode: Option<string>, dateFrom: Option<string>,
    dateTo: Option<string>, page: Option<string>, pageSize: Option<string>, sortBy: Option<string>,
    sortDirection: Option<string>)
    ensures WithFiltersCandidates(customerId, productId, siteId, salespersonUserId, statusCode, dateFrom, dateTo, page, pageSize, sortBy, sortDirection) == Zip(WithFiltersNames, [customerId, productId, siteId, salespersonUserId, statusCode, dateFrom, dateTo, page, pageSize, sortBy, sortDirection])
  {
    WithFiltersSpelled(customerId, productId, siteId, salespersonUserId, statusCode, dateFrom, dateTo, page, pageSize, sortBy, sortDirection);
    WithFiltersZipSpelled(customerId, productId, siteId, salespersonUserId, statusCode, dateFrom, dateTo, page, pageSize, sortBy, sortDirection);
  }

  /** The names `GetWithFiltersAsync` writes are distinct and plain. */
  lemma WithFiltersNamesPlain()
    ensures Distinct(WithFiltersNames) && forall n | n in WithFiltersNames :: Plain(n)
  {
    IdNamesPlain();
    FilterNamesPlain();
    PagingNamesPlain();
  }

  /**
   * The names `GetWithFiltersAsync` writes are distinct and plain, so the query reads
   * back as its candidates whenever no value holds an `&`.
   */
  lemma WithFiltersReadable(
    customerId: Option<string>, productId: Option<string>, siteId: Option<string>,
    salespersonUserId: Option<string>, statusCode: Option<string>, dateFrom: Option<string>,
    dateTo: Option<string>, page: Option<string>, pageSize: Option<string>, sortBy: Option<string>,
    sortDirection: Option<string>)
    requires NoAmpersand(customerId)
    requires NoAmpersand(productId)
    requires NoAmpersand(siteId)
    requires NoAmpersand(salespersonUserId)
    requires NoAmpersand(statusCode)
    requires NoAmpersand(dateFrom)
    requires NoAmpersand(dateTo)
    requires NoAmpersand(page)
    requires NoAmpersand(pageSize)
    requires NoAmpersand(sortBy)
    requires NoAmpersand(sortDirection)
    ensures Readable(WithFiltersCandidates(customerId, productId, siteId, salespersonUserId, statusCode, dateFrom, dateTo, page, pageSize, sortBy, sortDirection))
  {
    WithFiltersNamesPlain();
    var vs := [customerId, productId, siteId, salespersonUserId, statusCode, dateFrom, dateTo, page, pageSize, sortBy, sortDirection];
    assert forall v | v in vs :: NoAmpersand(v);
    WithFiltersZip(customerId, productId, siteId, salespersonUserId, statusCode, dateFrom, dateTo, page, pageSize, sortBy, sortDirection);
    ReadableZip(WithFiltersNames, vs);
  }

  /**
   * `GetWithFiltersAsync`: a GET of the list at `BaseEndpoint` followed by
   * the query of the filters that are set, in the order above; `page`,
   * `pageSize` and `sortDirection` are always sent.
   */
  method GetWithFiltersAsync(
    customerId: Option<Decimal.Long>, productId: Option<Decimal.Long>, siteId: Option<Decimal.Long>,
    salespersonUserId: Option<Decimal.Long>, statusCode: Option<string>,
    dateFrom: Option<Dates.DateTime>, dateTo: Option<Dates.DateTime>, page: int, pageSize: int,
    sortBy: Option<string>, sortDirection: string)
    returns (call: Call<NoBody>)
    ensures call == GetListAsync(BaseEndpoint + BuildQuery(WithFiltersCandidates(
      IdValue(customerId), IdValue(productId), IdValue(siteId), IdValue(salespersonUserId),
      EscapedValue(statusCode), DateValue(dateFrom), DateValue(dateTo),
      Some(Decimal.IntToString(page)), Some(Decimal.IntToString(pageSize)), EscapedValue(sortBy),
      Some(PercentEncoding.Escape(sortDirection)))))
  {
    // The candidates, spelled out in the order the steps below add them.
    ghost var cs := WithFiltersCandidates(
      IdValue(customerId), IdValue(productId), IdValue(siteId), IdValue(salespersonUserId),
      EscapedValue(statusCode), DateValue(dateFrom), DateValue(dateTo),
      Some(Decimal.IntToString(page)), Some(Decimal.IntToString(pageSize)), EscapedValue(sortBy),
      Some(PercentEncoding.Escape(sortDirection)));
    assert cs == [Candidate(CustomerId, IdValue(customerId))] + [Candidate(ProductId, IdValue(productId))] +
      [Candidate(SiteId, IdValue(siteId))] + [Candidate(SalespersonUserId, IdValue(salespersonUserId))] +
      [Candidate(StatusCode, EscapedValue(statusCode))] + [Candidate(DateFrom, DateValue(dateFrom))] +
      [Candidate(DateTo, DateValue(dateTo))] + [Candidate(Page, Some(Decimal.IntToString(page)))] +
      [Candidate(PageSize, Some(Decimal.IntToString(pageSize)))] + [Candidate(SortBy, EscapedValue(sortBy))] +
      [Candidate(SortDirection, Some(PercentEncoding.Escape(sortDirection)))];
    var queryParams: seq<string> := [];
    queryParams := AddIfHasValue(queryParams, CustomerId, customerId, []);
    ghost var done := [Candidate(CustomerId, IdValue(customerId))];
    queryParams := AddIfHasValue(queryParams, ProductId, productId, done);
    done := done + [Candidate(ProductId, IdValue(productId))];
    queryParams := AddIfHasValue(queryParams, SiteId, siteId, done);
    done := done + [Candidate(SiteId, IdValue(siteId))];
    queryParams := AddIfHasValue(queryParams, SalespersonUserId, salespersonUserId, done);
    done := done + [Candidate(SalespersonUserId, IdValue(salespersonUserId))];
    queryParams := AddIfNotEmpty(queryParams, StatusCode, statusCode, done);
    done := done + [Candidate(StatusCode, EscapedValue(statusCode))];
    queryParams := AddDateIfHasValue(queryParams, DateFrom, dateFrom, done);
    done := done + [Candidate(DateFrom, DateValue(dateFrom))];
    queryParams := AddDateIfHasValue(queryParams, DateTo, dateTo, done);
    done := done + [Candidate(DateTo, DateValue(dateTo))];
    queryParams := AddAlways(queryParams, Page, Decimal.IntToString(page), done);
    done := done + [Candidate(Page, Some(Decimal.IntToString(page)))];
    queryParams := AddAlways(queryParams, PageSize, Decimal.IntToString(pageSize), done);
    done := done + [Candidate(PageSize, Some(Decimal.IntToString(pageSize)))];
    queryParams := AddIfNotEmpty(queryParams, SortBy, sortBy, done);
    done := done + [Candidate(SortBy, EscapedValue(sortBy))];
    queryParams := AddAlways(queryParams, SortDirection, PercentEncoding.Escape(sortDirection), done);
    done := done + [Candidate(SortDirection, Some(PercentEncoding.Escape(sortDirection)))];
    var queryString := JoinQuery(queryParams);
    call := GetListAsync(BaseEndpoint + queryString);
  }

  /**
   * The query `GetWithFiltersAsync` writes reads back as its arguments: each name gives
   * its candidate's text, or nothing when the guard left it out, and no other
   * name appears.
   */
  lemma WithFiltersReadBack(
    customerId: Option<Decimal.Long>, productId: Option<Decimal.Long>, siteId: Option<Decimal.Long>,
    salespersonUserId: Option<Decimal.Long>, statusCode: Option<string>,
    dateFrom: Option<Dates.DateTime>, dateTo: Option<Dates.DateTime>, page: int, pageSize: int,
    sortBy: Option<string>, sortDirection: string, name: string)
    ensures var cs := WithFiltersCandidates(
              IdValue(customerId), IdValue(productId), IdValue(siteId), IdValue(salespersonUserId),
              EscapedValue(statusCode), DateValue(dateFrom), DateValue(dateTo),
              Some(Decimal.IntToString(page)), Some(Decimal.IntToString(pageSize)),
              EscapedValue(sortBy), Some(PercentEncoding.Escape(sortDirection)));
      && (name !in Names(cs) ==> QueryValue(BuildQuery(cs), name).None?)
      && (forall i :: 0 <= i < |cs| && cs[i].name == name ==> QueryValue(BuildQuery(cs), name) == cs[i].value)
  {
    IntHasNoAmpersand(page);
    IntHasNoAmpersand(pageSize);
    EscapedHasNoAmpersand(sortDirection);
    WithFiltersReadable(
      IdValue(customerId), IdValue(productId), IdValue(siteId), IdValue(salespersonUserId),
      EscapedValue(statusCode), DateValue(dateFrom), DateValue(dateTo),
      Some(Decimal.IntToString(page)), Some(Decimal.IntToString(pageSize)), EscapedValue(sortBy),
      Some(PercentEncoding.Escape(sortDirection)));
    ReadBack(WithFiltersCandidates(
      IdValue(customerId), IdValue(productId), IdValue(siteId), IdValue(salespersonUserId),
      EscapedValue(statusCode), DateValue(dateFrom), DateValue(dateTo),
      Some(Decimal.IntToString(page)), Some(Decimal.IntToString(pageSize)), EscapedValue(sortBy),
      Some(PercentEncoding.Escape(sortDirection))), name);
  }

  /**
   * The parameters `GetLinesAsync` may add, in the order it adds them, each with
   * the text it would carry (`None` when its guard leaves it out).
   */
  function LinesCandidates(
    productId: Option<string>, customerId: Option<string>, siteId: Option<string>,
    statusCode: Option<string>, dateFrom: Option<string>, dateTo: Option<string>,
    page: Option<string>, pageSize: Option<string>): seq<Candidate>
  {
    [Candidate(ProductId, productId)] + [Candidate(CustomerId, customerId)] + [Candidate(SiteId, siteId)] +
    [Candidate(StatusCode, statusCode)] + [Candidate(DateFrom, dateFrom)] + [Candidate(DateTo, dateTo)] +
    [Candidate(Page, page)] + [Candidate(PageSize, pageSize)]
  }

  /** The names `GetLinesAsync` writes, in order. */
  const LinesNames := [
    ProductId, CustomerId, SiteId, StatusCode, DateFrom, DateTo, Page, PageSize]

  /** The candidates of `LinesCandidates`, spelled out as one list. */
  lemma LinesSpelled(
    productId: Option<string>, customerId: Option<string>, siteId: Option<string>,
    statusCode: Option<string>, dateFrom: Option<string>, dateTo: Option<string>,
    page: Option<string>, pageSize: Option<string>)
    ensures LinesCandidates(productId, customerId, siteId, statusCode, dateFrom, dateTo, page, pageSize) == [
      Candidate(ProductId, productId), Candidate(CustomerId, customerId), Candidate(SiteId, siteId),
      Candidate(StatusCode, statusCode), Candidate(DateFrom, dateFrom), Candidate(DateTo, dateTo),
      Candidate(Page, page), Candidate(PageSize, pageSize)]
  {
  }

  /** The names zipped with the values give the same spelled-out list. */
  lemma LinesZipSpelled(
    productId: Option<string>, customerId: Option<string>, siteId: Option<string>,
    statusCode: Option<string>, dateFrom: Option<string>, dateTo: Option<string>,
    page: Option<string>, pageSize: Option<string>)
    ensures Zip(LinesNames, [productId, customerId, siteId, statusCode, dateFrom, dateTo, page, pageSize]) == [
      Candidate(ProductId, productId), Candidate(CustomerId, customerId), Candidate(SiteId, siteId),
      Candidate(StatusCode, statusCode), Candidate(DateFrom, dateFrom), Candidate(DateTo, dateTo),
      Candidate(Page, page), Candidate(PageSize, pageSize)]
  {
    var spelled := [
      Candidate(ProductId, productId), Candidate(CustomerId, customerId), Candidate(SiteId, siteId),
      Candidate(StatusCode, statusCode), Candidate(DateFrom, dateFrom), Candidate(DateTo, dateTo),
      Candidate(Page, page), Candidate(PageSize, pageSize)];
    var z := Zip(LinesNames, [productId, customerId, siteId, statusCode, dateFrom, dateTo, page, pageSize]);
    forall i | 0 <= i < 8 ensures z[i] == spelled[i] {
    }
  }

  /** The candidates are the names paired with the values, position by position. */
  lemma LinesZip(
    productId: Option<string>, customerId: Option<string>, siteId: Option<string>,
    statusCode: Option<string>, dateFrom: Option<string>, dateTo: Option<string>,
    page: Option<string>, pageSize: Option<string>)
    ensures LinesCandidates(productId, customerId, siteId, statusCode, dateFrom, dateTo, page, pageSize) == Zip(LinesNames, [productId, customerId, siteId, statusCode, dateFrom, dateTo, page, pageSize])
  {
    LinesSpelled(productId, customerId, siteId, statusCode, dateFrom, dateTo, page, pageSize);
    LinesZipSpelled(productId, customerId, siteId, statusCode, dateFrom, dateTo, page, pageSize);
  }

  /** The names `GetLinesAsync` writes are distinct and plain. */
  lemma LinesNamesPlain()
    ensures Distinct(LinesNames) && forall n | n in LinesNames :: Plain(n)
  {
    IdNamesPlain();
    FilterNamesPlain();
    PagingNamesPlain();
  }

  /**
   * The names `GetLinesAsync` writes are distinct and plain, so the query reads
   * back as its candidates whenever no value holds an `&`.
   */
  lemma LinesReadable(
    productId: Option<string>, customerId: Option<string>, siteId: Option<string>,
    statusCode: Option<string>, dateFrom: Option<string>, dateTo: Option<string>,
    page: Option<string>, pageSize: Option<string>)
    requires NoAmpersand(productId)
    requires NoAmpersand(customerId)
    requires NoAmpersand(siteId)
    requires NoAmpersand(statusCode)
    requires NoAmpersand(dateFrom)
    requires NoAmpersand(dateTo)
    requires NoAmpersand(page)
    requires NoAmpersand(pageSize)
    ensures Readable(LinesCandidates(productId, customerId, siteId, statusCode, dateFrom, dateTo, page, pageSize))
  {
    LinesNamesPlain();
    var vs := [productId, customerId, siteId, statusCode, dateFrom, dateTo, page, pageSize];
    assert forall v | v in vs :: NoAmpersand(v);
    LinesZip(productId, customerId, siteId, statusCode, dateFrom, dateTo, page, pageSize);
    ReadableZip(LinesNames, vs);
  }

  /**
   * `GetLinesAsync`: a GET of the order lines at `BaseEndpoint/lines`
   * followed by the query of the filters that are set; `page` and
   * `pageSize` are always sent.
   */
  method GetLinesAsync(
    productId: Option<Decimal.Long>, customerId: Option<Decimal.Long>, siteId: Option<Decimal.Long>,
    statusCode: Option<string>, dateFrom: Option<Dates.DateTime>, dateTo: Option<Dates.DateTime>,
    page: int, pageSize: int)
    returns (call: Call<NoBody>)
    ensures call == GetListAsync(Routes.Child(BaseEndpoint, "lines") + BuildQuery(LinesCandidates(
      IdValue(productId), IdValue(customerId), IdValue(siteId), EscapedValue(statusCode),
      DateValue(dateFrom), DateValue(dateTo), Some(Decimal.IntToString(page)),
      Some(Decimal.IntToString(pageSize)))))
  {
    // The candidates, spelled out in the order the steps below add them.
    ghost var cs := LinesCandidates(
      IdValue(productId), IdValue(customerId), IdValue(siteId), EscapedValue(statusCode),
      DateValue(dateFrom), DateValue(dateTo), Some(Decimal.IntToString(page)),
      Some(Decimal.IntToString(pageSize)));
    assert cs == [Candidate(ProductId, IdValue(productId))] + [Candidate(CustomerId, IdValue(customerId))] +
      [Candidate(SiteId, IdValue(siteId))] + [Candidate(StatusCode, EscapedValue(statusCode))] +
      [Candidate(DateFrom, DateValue(dateFrom))] + [Candidate(DateTo, DateValue(dateTo))] +
      [Candidate(Page, Some(Decimal.IntToString(page)))] +
      [Candidate(PageSize, Some(Decimal.IntToString(pageSize)))];
    var queryParams: seq<string> := [];
    queryParams := AddIfHasValue(queryParams, ProductId, productId, []);
    ghost var done := [Candidate(ProductId, IdValue(productId))];
    queryParams := AddIfHasValue(queryParams, CustomerId, customerId, done);
    done := done + [Candidate(CustomerId, IdValue(customerId))];
    queryParams := AddIfHasValue(queryParams, SiteId, siteId, done);
    done := done + [Candidate(SiteId, IdValue(siteId))];
    queryParams := AddIfNotEmpty(queryParams, StatusCode, statusCode, done);
    done := done + [Candidate(StatusCode, EscapedValue(statusCode))];
    queryParams := AddDateIfHasValue(queryParams, DateFrom, dateFrom, done);
    done := done + [Candidate(DateFrom, DateValue(dateFrom))];
    queryParams := AddDateIfHasValue(queryParams, DateTo, dateTo, done);
    done := done + [Candidate(DateTo, DateValue(dateTo))];
    queryParams := AddAlways(queryParams, Page, Decimal.IntToString(page), done);
    done := done + [Candidate(Page, Some(Decimal.IntToString(page)))];
    queryParams := AddAlways(queryParams, PageSize, Decimal.IntToString(pageSize), done);
    done := done + [Candidate(PageSize, Some(Decimal.IntToString(pageSize)))];
    var queryString := JoinQuery(queryParams);
    call := GetListAsync(Routes.Child(BaseEndpoint, "lines") + queryString);
  }

  /**
   * The query `GetLinesAsync` writes reads back as its arguments: each name gives
   * its candidate's text, or nothing when the guard left it out, and no other
   * name appears.
   */
  lemma LinesReadBack(
    productId: Option<Decimal.Long>, customerId: Option<Decimal.Long>, siteId: Option<Decimal.Long>,
    statusCode: Option<string>, dateFrom: Option<Dates.DateTime>, dateTo: Option<Dates.DateTime>,
    page: int, pageSize: int, name: string)
    ensures var cs := LinesCandidates(
              IdValue(productId), IdValue(customerId), IdValue(siteId), EscapedValue(statusCode),
              DateValue(dateFrom), DateValue(dateTo), Some(Decimal.IntToString(page)),
              Some(Decimal.IntToString(pageSize)));
      && (name !in Names(cs) ==> QueryValue(BuildQuery(cs), name).None?)
      && (forall i :: 0 <= i < |cs| && cs[i].name == name ==> QueryValue(BuildQuery(cs), name) == cs[i].value)
  {
    IntHasNoAmpersand(page);
    IntHasNoAmpersand(pageSize);
    LinesReadable(
      IdValue(productId), IdValue(customerId), IdValue(siteId), EscapedValue(statusCode),
      DateValue(dateFrom), DateValue(dateTo), Some(Decimal.IntToString(page)),
      Some(Decimal.IntToString(pageSize)));
    ReadBack(LinesCandidates(
      IdValue(productId), IdValue(customerId), IdValue(siteId), EscapedValue(statusCode),
      DateValue(dateFrom), DateValue(dateTo), Some(Decimal.IntToString(page)),
      Some(Decimal.IntToString(pageSize))), name);
  }
}
