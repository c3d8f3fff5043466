/**
 * `PurchaseOrder_ApiClient`: purchase orders under
 * `api/purchasing/purchase-orders`. Its CRUD operations are written out with
 * the routes of `CrudApiClientBase.CrudCall`, its collection actions are
 * those of `TransactionRoutes`; its own logic is the workflow route table
 * and the two query builders.
 */
module PurchaseOrderClient {
  import opened Wrappers
  import opened ApiClientBase
  import opened QueryStrings
  import opened QueryParams
  import opened QueryNames
  import Decimal
  import PercentEncoding
  import Dates
  import Routes
  import TransactionRoutes
  import CrudApiClientBase

  const BaseRoute := "api/purchasing/purchase-orders"

  /**
   * `GetByIdAsync`, `GetAllAsync`, `CreateAsync`, `UpdateAsync` and
   * `DeleteAsync` (there is no by-code lookup).
   */
  function Crud<D>(op: CrudApiClientBase.CrudOp<D>): (c: Call<D>)
    requires !op.GetByCode?
    ensures CrudApiClientBase.OnRecord(op) ==> Routes.ParseMember(BaseRoute, c.endpoint) == Some((op.id, None))
    ensures op.GetAll? ==> c == Call(GET, BaseRoute, None, List)
    ensures op.GetById? ==> c.verb == GET && c.body.None? && c.shape == Single
    ensures op.Create? ==> c == Call(POST, BaseRoute, Some(op.dto), Single)
    ensures op.Update? ==> c.verb == PUT && c.body == Some(op.dto) && c.shape == Single
    ensures op.Delete? ==> c.verb == DELETE && c.body.None? && c.shape == NoContent
  {
    CrudApiClientBase.CrudCall(BaseRoute, op)
  }

  /** `BulkDeleteAsync`: DELETE of the id list to `/bulk`. */
  function BulkDelete<B>(ids: B): (c: Call<B>)
    ensures c.verb == DELETE && c.body == Some(ids) && c.shape == Single
    ensures c.endpoint == Routes.Child(BaseRoute, "bulk")
  {
    TransactionRoutes.BulkDelete(BaseRoute, ids)
  }

  /** `ChangeWorkflowStatusAsync`: POST of the request to `/workflow-status`. */
  function ChangeWorkflowStatus<B>(request: B): (c: Call<B>)
    ensures c.verb == POST && c.body == Some(request) && c.shape == Single
    ensures c.endpoint == Routes.Child(BaseRoute, "workflow-status")
  {
    TransactionRoutes.ChangeWorkflowStatus(BaseRoute, request)
  }

  /** `ValidateAsync`: POST of the edit DTO to `/validate`. */
  function Validate<B>(dto: B): (c: Call<B>)
    ensures c.verb == POST && c.body == Some(dto) && c.shape == Single
    ensures c.endpoint == Routes.Child(BaseRoute, "validate")
  {
    TransactionRoutes.Validate(BaseRoute, dto)
  }

  /** The workflow transitions, each a POST to `/{id}/{segment}`. */
  datatype Transition = SubmitForApproval | Approve | Reject | SendToSupplier | ReceiveGoods | Close

  function Segment(t: Transition): string {
    match t
    case SubmitForApproval => "submit"
    case Approve => "approve"
    case Reject => "reject"
    case SendToSupplier => "send"
    case ReceiveGoods => "receive"
    case Close => "close"
  }

  /**
   * `SubmitForApprovalAsync`, `ApproveAsync`, `RejectAsync`,
   * `SendToSupplierAsync`, `ReceiveGoodsAsync`, `CloseAsync`.
   */
  function TransitionCall<B>(id: Decimal.Long, t: Transition, request: B): (c: Call<B>)
    ensures c.verb == POST && c.body == Some(request) && c.shape == Single
    ensures Routes.ParseMember(BaseRoute, c.endpoint) == Some((id, Some(Segment(t))))
  {
    TransactionRoutes.Transition(BaseRoute, id, Segment(t), request)
  }

  /**
   * Two transitions go to the same endpoint exactly when they are the same
   * transition of the same order, and none goes to the history endpoint.
   */
  lemma TransitionsDistinct<B>(id1: Decimal.Long, t1: Transition, id2: Decimal.Long, t2: Transition, request: B)
    ensures TransitionCall(id1, t1, request).endpoint == TransitionCall(id2, t2, request).endpoint
        <==> id1 == id2 && t1 == t2
    ensures TransitionCall(id1, t1, request).endpoint != TransactionRoutes.WorkflowHistory<B>(BaseRoute, id2).endpoint
  {
    var e1 := TransitionCall(id1, t1, request).endpoint;
    var e2 := TransitionCall(id2, t2, request).endpoint;
    if e1 == e2 {
      assert Segment(t1) == Segment(t2);
    }
  }

  /** `GetWorkflowHistoryAsync`: the list at `/{id}/workflow-history`. */
  function WorkflowHistory(id: Decimal.Long): (c: Call<NoBody>)
    ensures c.verb == GET && c.body.None? && c.shape == List
    ensures Routes.ParseMember(BaseRoute, c.endpoint) == Some((id, Some("workflow-history")))
  {
    TransactionRoutes.WorkflowHistory(BaseRoute, id)
  }

  /**
   * The parameters `GetWithFiltersAsync` may add, in the order it adds them, each with
   * the text it would carry (`None` when its guard leaves it out).
   */
  function WithFiltersCandidates(
    supplierId: Option<string>, productId: Option<string>, siteId: Option<string>,
    statusCode: Option<string>, dateFrom: Option<string>, dateTo: Option<string>,
    page: Option<string>, pageSize: Option<string>, sortBy: Option<string>,
    sortDirection: Option<string>): seq<Candidate>
  {
    [Candidate(SupplierId, supplierId)] + [Candidate(ProductId, productId)] + [Candidate(SiteId, siteId)] +
    [Candidate(StatusCode, statusCode)] + [Candidate(DateFrom, dateFrom)] + [Candidate(DateTo, dateTo)] +
    [Candidate(Page, page)] + [Candidate(PageSize, pageSize)] + [Candidate(SortBy, sortBy)] +
    [Candidate(SortDirection, sortDirection)]
  }

  /** The names `GetWithFiltersAsync` writes, in order. */
  const WithFiltersNames := [
    SupplierId, ProductId, SiteId, StatusCode, DateFrom, DateTo, Page, PageSize, SortBy,
    SortDirection]

  /** The candidates of `WithFiltersCandidates`, spelled out as one list. */
  lemma WithFiltersSpelled(
    supplierId: Option<string>, productId: Option<string>, siteId: Option<string>,
    statusCode: Option<string>, dateFrom: Option<string>, dateTo: Option<string>,
    page: Option<string>, pageSize: Option<string>, sortBy: Option<string>,
    sortDirection: Option<string>)
    ensures WithFiltersCandidates(supplierId, productId, siteId, statusCode, dateFrom, dateTo, page, pageSize, sortBy, sortDirection) == [
      Candidate(SupplierId, supplierId), Candidate(ProductId, productId), Candidate(SiteId, siteId),
      Candidate(StatusCode, statusCode), Candidate(DateFrom, dateFrom), Candidate(DateTo, dateTo),
      Candidate(Page, page), Candidate(PageSize, pageSize), Candidate(SortBy, sortBy),
      Candidate(SortDirection, sortDirection)]
  {
  }

  /** The names zipped with the values give the same spelled-out list. */
  lemma WithFiltersZipSpelled(
    supplierId: Option<string>, productId: Option<string>, siteId: Option<string>,
    statusCode: Option<string>, dateFrom: Option<string>, dateTo: Option<string>,
    page: Option<string>, pageSize: Option<string>, sortBy: Option<string>,
    sortDirection: Option<string>)
    ensures Zip(WithFiltersNames, [supplierId, productId, siteId, statusCode, dateFrom, dateTo, page, pageSize, sortBy, sortDirection]) == [
      Candidate(SupplierId, supplierId), Candidate(ProductId, productId), Candidate(SiteId, siteId),
      Candidate(StatusCode, statusCode), Candidate(DateFrom, dateFrom), Candidate(DateTo, dateTo),
      Candidate(Page, page), Candidate(PageSize, pageSize), Candidate(SortBy, sortBy),
      Candidate(SortDirection, sortDirection)]
  {
    var spelled := [
      Candidate(SupplierId, supplierId), Candidate(ProductId, productId), Candidate(SiteId, siteId),
      Candidate(StatusCode, statusCode), Candidate(DateFrom, dateFrom), Candidate(DateTo, dateTo),
      Candidate(Page, page), Candidate(PageSize, pageSize), Candidate(SortBy, sortBy),
      Candidate(SortDirection, sortDirection)];
    var z := Zip(WithFiltersNames, [supplierId, productId, siteId, statusCode, dateFrom, dateTo, page, pageSize, sortBy, sortDirection]);
    forall i | 0 <= i < 10 ensures z[i] == spelled[i] {
    }
  }

  /** The candidates are the names paired with the values, position by position. */
  lemma WithFiltersZip(
    supplierId: Option<string>, productId: Option<string>, siteId: Option<string>,
    statusCode: Option<string>, dateFrom: Option<string>, dateTo: Option<string>,
    page: Option<string>, pageSize: Option<string>, sortBy: Option<string>,
    sortDirection: Option<string>)
    ensures WithFiltersCandidates(supplierId, productId, siteId, statusCode, dateFrom, dateTo, page, pageSize, sortBy, sortDirection) == Zip(WithFiltersNames, [supplierId, productId, siteId, statusCode, dateFrom, dateTo, page, pageSize, sortBy, sortDirection])
  {
    WithFiltersSpelled(supplierId, productId, siteId, statusCode, dateFrom, dateTo, page, pageSize, sortBy, sortDirection);
    WithFiltersZipSpelled(supplierId, productId, siteId, statusCode, dateFrom, dateTo, page, pageSize, sortBy, sortDirection);
  }

  /** The names `GetWithFiltersAsync` writes are distinct and plain. */
  lemma WithFiltersNamesPlain()
    ensures Distinct(WithFiltersNames) && forall n | n in WithFiltersNames :: Plain(n)
  {
    IdNamesPlain();
    FilterNamesPlain();
    PagingNamesPlain();
  }

  /**
   * The names `GetWithFiltersAsync` writes are distinct and plain, so the query reads
   * back as its candidates whenever no value holds an `&`.
   */
  lemma WithFiltersReadable(
    supplierId: Option<string>, productId: Option<string>, siteId: Option<string>,
    statusCode: Option<string>, dateFrom: Option<string>, dateTo: Option<string>,
    page: Option<string>, pageSize: Option<string>, sortBy: Option<string>,
    sortDirection: Option<string>)
    requires NoAmpersand(supplierId)
    requires NoAmpersand(productId)
    requires NoAmpersand(siteId)
    requires NoAmpersand(statusCode)
    requires NoAmpersand(dateFrom)
    requires NoAmpersand(dateTo)
    requires NoAmpersand(page)
    requires NoAmpersand(pageSize)
    requires NoAmpersand(sortBy)
    requires NoAmpersand(sortDirection)
    ensures Readable(WithFiltersCandidates(supplierId, productId, siteId, statusCode, dateFrom, dateTo, page, pageSize, sortBy, sortDirection))
  {
    WithFiltersNamesPlain();
    var vs := [supplierId, productId, siteId, statusCode, dateFrom, dateTo, page, pageSize, sortBy, sortDirection];
    assert forall v | v in vs :: NoAmpersand(v);
    WithFiltersZip(supplierId, productId, siteId, statusCode, dateFrom, dateTo, page, pageSize, sortBy, sortDirection);
    ReadableZip(WithFiltersNames, vs);
  }

  /**
   * `GetWithFiltersAsync`: a GET of the list at `BaseRoute` followed by the
   * query of the filters that are set, in the order above; `page`,
   * `pageSize` and `sortDirection` are always sent.
   */
  method GetWithFiltersAsync(
    supplierId: Option<Decimal.Long>, productId: Option<Decimal.Long>, siteId: Option<Decimal.Long>,
    statusCode: Option<string>, dateFrom: Option<Dates.DateTime>, dateTo: Option<Dates.DateTime>,
    page: int, pageSize: int, sortBy: Option<string>, sortDirection: string)
    returns (call: Call<NoBody>)
    ensures call == GetListAsync(BaseRoute + BuildQuery(WithFiltersCandidates(
      IdValue(supplierId), IdValue(productId), IdValue(siteId), EscapedValue(statusCode),
      DateValue(dateFrom), DateValue(dateTo), Some(Decimal.IntToString(page)),
      Some(Decimal.IntToString(pageSize)), EscapedValue(sortBy),
      Some(PercentEncoding.Escape(sortDirection)))))
  {
    // The candidates, spelled out in the order the steps below add them.
    ghost var cs := WithFiltersCandidates(
      IdValue(supplierId), IdValue(productId), IdValue(siteId), EscapedValue(statusCode),
      DateValue(dateFrom), DateValue(dateTo), Some(Decimal.IntToString(page)),
      Some(Decimal.IntToString(pageSize)), EscapedValue(sortBy),
      Some(PercentEncoding.Escape(sortDirection)));
    assert cs == [Candidate(SupplierId, IdValue(supplierId))] + [Candidate(ProductId, IdValue(productId))] +
      [Candidate(SiteId, IdValue(siteId))] + [Candidate(StatusCode, EscapedValue(statusCode))] +
      [Candidate(DateFrom, DateValue(dateFrom))] + [Candidate(DateTo, DateValue(dateTo))] +
      [Candidate(Page, Some(Decimal.IntToString(page)))] +
      [Candidate(PageSize, Some(Decimal.IntToString(pageSize)))] + [Candidate(SortBy, EscapedValue(sortBy))] +
      [Candidate(SortDirection, Some(PercentEncoding.Escape(sortDirection)))];
    var queryParams: seq<string> := [];
    queryParams := AddIfHasValue(queryParams, SupplierId, supplierId, []);
    ghost var done := [Candidate(SupplierId, IdValue(supplierId))];
    queryParams := AddIfHasValue(queryParams, ProductId, productId, done);
    done := done + [Candidate(ProductId, IdValue(productId))];
    queryParams := AddIfHasValue(queryParams, SiteId, siteId, done);
    done := done + [Candidate(SiteId, IdValue(siteId))];
    queryParams := AddIfNotEmpty(queryParams, StatusCode, statusCode, done);
    done := done + [Candidate(StatusCode, EscapedValue(statusCode))];
    queryParams := AddDateIfHasValue(queryParams, DateFrom, dateFrom, done);
    done := done + [Candidate(DateFrom, DateValue(dateFrom))];
    queryParams := AddDateIfHasValue(queryParams, DateTo, dateTo, done);
    done := done + [Candidate(DateTo, DateValue(dateTo))];
    queryParams := AddAlways(queryParams, Page, Decimal.IntToString(page), done);
    done := done + [Candidate(Page, Some(Decimal.IntToString(page)))];
    queryParams := AddAlways(queryParams, PageSize, Decimal.IntToString(pageSize), done);
    done := done + [Candidate(PageSize, Some(Decimal.IntToString(pageSize)))];
    queryParams := AddIfNotEmpty(queryParams, SortBy, sortBy, done);
    done := done + [Candidate(SortBy, EscapedValue(sortBy))];
    queryParams := AddAlways(queryParams, SortDirection, PercentEncoding.Escape(sortDirection), done);
    done := done + [Candidate(SortDirection, Some(PercentEncoding.Escape(sortDirection)))];
    var queryString := JoinQuery(queryParams);
    call := GetListAsync(BaseRoute + queryString);
  }

  /**
   * The query `GetWithFiltersAsync` writes reads back as its arguments: each name gives
   * its candidate's text, or nothing when the guard left it out, and no other
   * name appears.
   */
  lemma WithFiltersReadBack(
    supplierId: Option<Decimal.Long>, productId: Option<Decimal.Long>, siteId: Option<Decimal.Long>,
    statusCode: Option<string>, dateFrom: Option<Dates.DateTime>, dateTo: Option<Dates.DateTime>,
    page: int, pageSize: int, sortBy: Option<string>, sortDirection: string, name: string)
    ensures var cs := WithFiltersCandidates(
              IdValue(supplierId), IdValue(productId), IdValue(siteId), EscapedValue(statusCode),
              DateValue(dateFrom), DateValue(dateTo), Some(Decimal.IntToString(page)),
              Some(Decimal.IntToString(pageSize)), EscapedValue(sortBy),
              Some(PercentEncoding.Escape(sortDirection)));
      && (name !in Names(cs) ==> QueryValue(BuildQuery(cs), name).None?)
      && (forall i :: 0 <= i < |cs| && cs[i].name == name ==> QueryValue(BuildQuery(cs), name) == cs[i].value)
  {
    IntHasNoAmpersand(page);
    IntHasNoAmpersand(pageSize);
    EscapedHasNoAmpersand(sortDirection);
    WithFiltersReadable(
      IdValue(supplierId), IdValue(productId), IdValue(siteId), EscapedValue(statusCode),
      DateValue(dateFrom), DateValue(dateTo), Some(Decimal.IntToString(page)),
      Some(Decimal.IntToString(pageSize)), EscapedValue(sortBy),
      Some(PercentEncoding.Escape(sortDirection)));
    ReadBack(WithFiltersCandidates(
      IdValue(supplierId), IdValue(productId), IdValue(siteId), EscapedValue(statusCode),
      DateValue(dateFrom), DateValue(dateTo), Some(Decimal.IntToString(page)),
      Some(Decimal.IntToString(pageSize)), EscapedValue(sortBy),
      Some(PercentEncoding.Escape(sortDirection))), name);
  }

  /**
   * The parameters `GetLinesAsync` may add, in the order it adds them, each with
   * the text it would carry (`None` when its guard leaves it out).
   */
  function LinesCandidates(
    productId: Option<string>, supplierId: Option<string>, siteId: Option<string>,
    statusCode: Option<string>, dateFrom: Option<string>, dateTo: Option<string>,
    page: Option<string>, pageSize: Option<string>): seq<Candidate>
  {
    [Candidate(ProductId, productId)] + [Candidate(SupplierId, supplierId)] + [Candidate(SiteId, siteId)] +
    [Candidate(StatusCode, statusCode)] + [Candidate(DateFrom, dateFrom)] + [Candidate(DateTo, dateTo)] +
    [Candidate(Page, page)] + [Candidate(PageSize, pageSize)]
  }

  /** The names `GetLinesAsync` writes, in order. */
  const LinesNames := [
    ProductId, SupplierId, SiteId, StatusCode, DateFrom, DateTo, Page, PageSize]

  /** The candidates of `LinesCandidates`, spelled out as one list. */
  lemma LinesSpelled(
    productId: Option<string>, supplierId: Option<string>, siteId: Option<string>,
    statusCode: Option<string>, dateFrom: Option<string>, dateTo: Option<string>,
    page: Option<string>, pageSize: Option<string>)
    ensures LinesCandidates(productId, supplierId, siteId, statusCode, dateFrom, dateTo, page, pageSize) == [
      Candidate(ProductId, productId), Candidate(SupplierId, supplierId), Candidate(SiteId, siteId),
      Candidate(StatusCode, statusCode), Candidate(DateFrom, dateFrom), Candidate(DateTo, dateTo),
      Candidate(Page, page), Candidate(PageSize, pageSize)]
  {
  }

  /** The names zipped with the values give the same spelled-out list. */
  lemma LinesZipSpelled(
    productId: Option<string>, supplierId: Option<string>, siteId: Option<string>,
    statusCode: Option<string>, dateFrom: Option<string>, dateTo: Option<string>,
    page: Option<string>, pageSize: Option<string>)
    ensures Zip(LinesNames, [productId, supplierId, siteId, statusCode, dateFrom, dateTo, page, pageSize]) == [
      Candidate(ProductId, productId), Candidate(SupplierId, supplierId), Candidate(SiteId, siteId),
      Candidate(StatusCode, statusCode), Candidate(DateFrom, dateFrom), Candidate(DateTo, dateTo),
      Candidate(Page, page), Candidate(PageSize, pageSize)]
  {
    var spelled := [
      Candidate(ProductId, productId), Candidate(SupplierId, supplierId), Candidate(SiteId, siteId),
      Candidate(StatusCode, statusCode), Candidate(DateFrom, dateFrom), Candidate(DateTo, dateTo),
      Candidate(Page, page), Candidate(PageSize, pageSize)];
    var z := Zip(LinesNames, [productId, supplierId, siteId, statusCode, dateFrom, dateTo, page, pageSize]);
    forall i | 0 <= i < 8 ensures z[i] == spelled[i] {
    }
  }

  /** The candidates are the names paired with the values, position by position. */
  lemma LinesZip(
    productId: Option<string>, supplierId: Option<string>, siteId: Option<string>,
    statusCode: Option<string>, dateFrom: Option<string>, dateTo: Option<string>,
    page: Option<string>, pageSize: Option<string>)
    ensures LinesCandidates(productId, supplierId, siteId, statusCode, dateFrom, dateTo, page, pageSize) == Zip(LinesNames, [productId, supplierId, siteId, statusCode, dateFrom, dateTo, page, pageSize])
  {
    LinesSpelled(productId, supplierId, siteId, statusCode, dateFrom, dateTo, page, pageSize);
    LinesZipSpelled(productId, supplierId, siteId, statusCode, dateFrom, dateTo, page, pageSize);
  }

  /** The names `GetLinesAsync` writes are distinct and plain. */
  lemma LinesNamesPlain()
    ensures Distinct(LinesNames) && forall n | n in LinesNames :: Plain(n)
  {
    IdNamesPlain();
    FilterNamesPlain();
    PagingNamesPlain();
  }

  /**
   * The names `GetLinesAsync` writes are distinct and plain, so the query reads
   * back as its candidates whenever no value holds an `&`.
   */
  lemma LinesReadable(
    productId: Option<string>, supplierId: Option<string>, siteId: Option<string>,
    statusCode: Option<string>, dateFrom: Option<string>, dateTo: Option<string>,
    page: Option<string>, pageSize: Option<string>)
    requires NoAmpersand(productId)
    requires NoAmpersand(supplierId)
    requires NoAmpersand(siteId)
    requires NoAmpersand(statusCode)
    requires NoAmpersand(dateFrom)
    requires NoAmpersand(dateTo)
    requires NoAmpersand(page)
    requires NoAmpersand(pageSize)
    ensures Readable(LinesCandidates(productId, supplierId, siteId, statusCode, dateFrom, dateTo, page, pageSize))
  {
    LinesNamesPlain();
    var vs := [productId, supplierId, siteId, statusCode, dateFrom, dateTo, page, pageSize];
    assert forall v | v in vs :: NoAmpersand(v);
    LinesZip(productId, supplierId, siteId, statusCode, dateFrom, dateTo, page, pageSize);
    ReadableZip(LinesNames, vs);
  }

  /**
   * `GetLinesAsync`: a GET of the order lines at `BaseRoute/lines`
   * followed by the query of the filters that are set; `page` and
   * `pageSize` are always sent.
   */
  method GetLinesAsync(
    productId: Option<Decimal.Long>, supplierId: Option<Decimal.Long>, siteId: Option<Decimal.Long>,
    statusCode: Option<string>, dateFrom: Option<Dates.DateTime>, dateTo: Option<Dates.DateTime>,
    page: int, pageSize: int)
    returns (call: Call<NoBody>)
    ensures call == GetListAsync(Routes.Child(BaseRoute, "lines") + BuildQuery(LinesCandidates(
      IdValue(productId), IdValue(supplierId), IdValue(siteId), EscapedValue(statusCode),
      DateValue(dateFrom), DateValue(dateTo), Some(Decimal.IntToString(page)),
      Some(Decimal.IntToString(pageSize)))))
  {
    // The candidates, spelled out in the order the steps below add them.
    ghost var cs := LinesCandidates(
      IdValue(productId), IdValue(supplierId), IdValue(siteId), EscapedValue(statusCode),
      DateValue(dateFrom), DateValue(dateTo), Some(Decimal.IntToString(page)),
      Some(Decimal.IntToString(pageSize)));
    assert cs == [Candidate(ProductId, IdValue(productId))] + [Candidate(SupplierId, IdValue(supplierId))] +
      [Candidate(SiteId, IdValue(siteId))] + [Candidate(StatusCode, EscapedValue(statusCode))] +
      [Candidate(DateFrom, DateValue(dateFrom))] + [Candidate(DateTo, DateValue(dateTo))] +
      [Candidate(Page, Some(Decimal.IntToString(page)))] +
      [Candidate(PageSize, Some(Decimal.IntToString(pageSize)))];
    var queryParams: seq<string> := [];
    queryParams := AddIfHasValue(queryParams, ProductId, productId, []);
    ghost var done := [Candidate(ProductId, IdValue(productId))];
    queryParams := AddIfHasValue(queryParams, SupplierId, supplierId, done);
    done := done + [Candidate(SupplierId, IdValue(supplierId))];
    queryParams := AddIfHasValue(queryParams, SiteId, siteId, done);
    done := done + [Candidate(SiteId, IdValue(siteId))];
    queryParams := AddIfNotEmpty(queryParams, StatusCode, statusCode, done);
    done := done + [Candidate(StatusCode, EscapedValue(statusCode))];
    queryParams := AddDateIfHasValue(queryParams, DateFrom, dateFrom, done);
    done := done + [Candidate(DateFrom, DateValue(dateFrom))];
    queryParams := AddDateIfHasValue(queryParams, DateTo, dateTo, done);
    done := done + [Candidate(DateTo, DateValue(dateTo))];
    queryParams := AddAlways(queryParams, Page, Decimal.IntToString(page), done);
    done := done + [Candidate(Page, Some(Decimal.IntToString(page)))];
    queryParams := AddAlways(queryParams, PageSize, Decimal.IntToString(pageSize), done);
    done := done + [Candidate(PageSize, Some(Decimal.IntToString(pageSize)))];
    var queryString := JoinQuery(queryParams);
    call := GetListAsync(Routes.Child(BaseRoute, "lines") + queryString);
  }

  /**
   * The query `GetLinesAsync` writes reads back as its arguments: each name gives
   * its candidate's text, or nothing when the guard left it out, and no other
   * name appears.
   */
  lemma LinesReadBack(
    productId: Option<Decimal.Long>, supplierId: Option<Decimal.Long>, siteId: Option<Decimal.Long>,
    statusCode: Option<string>, dateFrom: Option<Dates.DateTime>, dateTo: Option<Dates.DateTime>,
    page: int, pageSize: int, name: string)
    ensures var cs := LinesCandidates(
              IdValue(productId), IdValue(supplierId), IdValue(siteId), EscapedValue(statusCode),
              DateValue(dateFrom), DateValue(dateTo), Some(Decimal.IntToString(page)),
              Some(Decimal.IntToString(pageSize)));
      && (name !in Names(cs) ==> QueryValue(BuildQuery(cs), name).None?)
      && (forall i :: 0 <= i < |cs| && cs[i].name == name ==> QueryValue(BuildQuery(cs), name) == cs[i].value)
  {
    IntHasNoAmpersand(page);
    IntHasNoAmpersand(pageSize);
    LinesReadable(
      IdValue(productId), IdValue(supplierId), IdValue(siteId), EscapedValue(statusCode),
      DateValue(dateFrom), DateValue(dateTo), Some(Decimal.IntToString(page)),
      Some(Decimal.IntToString(pageSize)));
    ReadBack(LinesCandidates(
      IdValue(productId), IdValue(supplierId), IdValue(siteId), EscapedValue(statusCode),
      DateValue(dateFrom), DateValue(dateTo), Some(Decimal.IntToString(page)),
      Some(Decimal.IntToString(pageSize))), name);
  }
}
