/**
 * `StockIssueRequest_ApiClient`: requests to issue stock under
 * `api/stock/issue-requests`. Its CRUD operations are those of
 * `CrudApiClientBase.CrudCall` on `BaseRoute`, its collection actions those
 * of `TransactionRoutes`; its own logic is the workflow route table and the
 * two query builders.
 */
module StockIssueRequestClient {
  import opened Wrappers
  import opened ApiClientBase
  import opened QueryStrings
  import opened QueryParams
  import opened QueryNames
  import Text
  import Decimal
  import PercentEncoding
  import Dates
  import Routes
  import TransactionRoutes
  import CrudApiClientBase

  const BaseRoute := "api/stock/issue-requests"

  /** The workflow transitions, each a POST to `/{id}/{segment}`. */
  datatype Transition = SubmitForApproval | Approve | Reject | IssueStock | Complete

  function Segment(t: Transition): string {
    match t
    case SubmitForApproval => "submit"
    case Approve => "approve"
    case Reject => "reject"
    case IssueStock => "issue"
    case Complete => "complete"
  }

  /** `SubmitForApprovalAsync`, `ApproveAsync`, `RejectAsync`, `IssueStockAsync`, `CompleteAsync`. */
  function TransitionCall<B>(id: Decimal.Long, t: Transition, request: B): (c: Call<B>)
    ensures c.verb == POST && c.body == Some(request) && c.shape == Single
    ensures Routes.ParseMember(BaseRoute, c.endpoint) == Some((id, Some(Segment(t))))
  {
    TransactionRoutes.Transition(BaseRoute, id, Segment(t), request)
  }

  /**
   * Two transitions go to the same endpoint exactly when they are the same
   * transition of the same request, and none goes to the history endpoint.
   */
  lemma TransitionsDistinct<B>(id1: Decimal.Long, t1: Transition, id2: Decimal.Long, t2: Transition, request: B)
    ensures TransitionCall(id1, t1, request).endpoint == TransitionCall(id2, t2, request).endpoint
        <==> id1 == id2 && t1 == t2
    ensures TransitionCall(id1, t1, request).endpoint != TransactionRoutes.WorkflowHistory<B>(BaseRoute, id2).endpoint
  {
    var e1 := TransitionCall(id1, t1, request).endpoint;
    var e2 := TransitionCall(id2, t2, request).endpoint;
    if e1 == e2 {
      assert Segment(t1) == Segment(t2);
    }
  }

  /**
   * The parameters `GetWithFiltersAsync` may add, in the order it adds them, each with
   * the text it would carry (`None` when its guard leaves it out).
   */
  function WithFiltersCandidates(
    siteId: Option<string>, departmentId: Option<string>, projectId: Option<string>,
    machineId: Option<string>, productId: Option<string>, statusCode: Option<string>,
    dateFrom: Option<string>, dateTo: Option<string>, page: Option<string>,
    pageSize: Option<string>, sortBy: Option<string>, sortDirection: Option<string>): seq<Candidate>
  {
    [Candidate(SiteId, siteId)] + [Candidate(DepartmentId, departmentId)] + [Candidate(ProjectId, projectId)] +
    [Candidate(MachineId, machineId)] + [Candidate(ProductId, productId)] +
    [Candidate(StatusCode, statusCode)] + [Candidate(DateFrom, dateFrom)] + [Candidate(DateTo, dateTo)] +
    [Candidate(Page, page)] + [Candidate(PageSize, pageSize)] + [Candidate(SortBy, sortBy)] +
    [Candidate(SortDirection, sortDirection)]
  }

  /** The names `GetWithFiltersAsync` writes, in order. */
  const WithFiltersNames := [
    SiteId, DepartmentId, ProjectId, MachineId, ProductId, StatusCode, DateFrom, DateTo, Page,
    PageSize, SortBy, SortDirection]

  /** The candidates of `WithFiltersCandidates`, spelled out as one list. */
  lemma WithFiltersSpelled(
    siteId: Option<string>, departmentId: Option<string>, projectId: Option<string>,
    machineId: Option<string>, productId: Option<string>, statusCode: Option<string>,
    dateFrom: Option<string>, dateTo: Option<string>, page: Option<string>,
    pageSize: Option<string>, sortBy: Option<string>, sortDirection: Option<string>)
    ensures WithFiltersCandidates(siteId, departmentId, projectId, machineId, productId, statusCode, dateFrom, dateTo, page, pageSize, sortBy, sortDirection) == [
      Candidate(SiteId, siteId), Candidate(DepartmentId, departmentId),
      Candidate(ProjectId, projectId), Candidate(MachineId, machineId),
      Candidate(ProductId, productId), Candidate(StatusCode, statusCode),
      Candidate(DateFrom, dateFrom), Candidate(DateTo, dateTo), Candidate(Page, page),
      Candidate(PageSize, pageSize), Candidate(SortBy, sortBy),
      Candidate(SortDirection, sortDirection)]
  {
  }

  /** The names zipped with the values give the same spelled-out list. */
  lemma WithFiltersZipSpelled(
    siteId: Option<string>, departmentId: Option<string>, projectId: Option<string>,
    machineId: Option<string>, productId: Option<string>, statusCode: Option<string>,
    dateFrom: Option<string>, dateTo: Option<string>, page: Option<string>,
    pageSize: Option<string>, sortBy: Option<string>, sortDirection: Option<string>)
    ensures Zip(WithFiltersNames, [siteId, departmentId, projectId, machineId, productId, statusCode, dateFrom, dateTo, page, pageSize, sortBy, sortDirection]) == [
      Candidate(SiteId, siteId), Candidate(DepartmentId, departmentId),
      Candidate(ProjectId, projectId), Candidate(MachineId, machineId),
      Candidate(ProductId, productId), Candidate(StatusCode, statusCode),
      Candidate(DateFrom, dateFrom), Candidate(DateTo, dateTo), Candidate(Page, page),
      Candidate(PageSize, pageSize), Candidate(SortBy, sortBy),
      Candidate(SortDirection, sortDirection)]
  {
    var spelled := [
      Candidate(SiteId, siteId), Candidate(DepartmentId, departmentId),
      Candidate(ProjectId, projectId), Candidate(MachineId, machineId),
      Candidate(ProductId, productId), Candidate(StatusCode, statusCode),
      Candidate(DateFrom, dateFrom), Candidate(DateTo, dateTo), Candidate(Page, page),
      Candidate(PageSize, pageSize), Candidate(SortBy, sortBy),
      Candidate(SortDirection, sortDirection)];
    var z := Zip(WithFiltersNames, [siteId, departmentId, projectId, machineId, productId, statusCode, dateFrom, dateTo, page, pageSize, sortBy, sortDirection]);
    forall i | 0 <= i < 12 ensures z[i] == spelled[i] {
    }
  }

  /** The candidates are the names paired with the values, position by position. */
  lemma WithFiltersZip(
    siteId: Option<string>, departmentId: Option<string>, projectId: Option<string>,
    machineId: Option<string>, productId: Option<string>, statusCode: Option<string>,
    dateFrom: Option<string>, dateTo: Option<string>, page: Option<string>,
    pageSize: Option<string>, sortBy: Option<string>, sortDirection: Option<string>)
    ensures WithFiltersCandidates(siteId, departmentId, projectId, machineId, productId, statusCode, dateFrom, dateTo, page, pageSize, sortBy, sortDirection) == Zip(WithFiltersNames, [siteId, departmentId, projectId, machineId, productId, statusCode, dateFrom, dateTo, page, pageSize, sortBy, sortDirection])
  {
    WithFiltersSpelled(siteId, departmentId, projectId, machineId, productId, statusCode, dateFrom, dateTo, page, pageSize, sortBy, sortDirection);
    WithFiltersZipSpelled(siteId, departmentId, projectId, machineId, productId, statusCode, dateFrom, dateTo, page, pageSize, sortBy, sortDirection);
  }

  /** The names `GetWithFiltersAsync` writes are distinct and plain. */
  lemma WithFiltersNamesPlain()
    ensures Distinct(WithFiltersNames) && forall n | n in WithFiltersNames :: Plain(n)
  {
    IdNamesPlain();
    FilterNamesPlain();
    PagingNamesPlain();
  }

  /**
   * The names `GetWithFiltersAsync` writes are distinct and plain, so the query reads
   * back as its candidates whenever no value holds an `&`.
   */
  lemma WithFiltersReadable(
    siteId: Option<string>, departmentId: Option<string>, projectId: Option<string>,
    machineId: Option<string>, productId: Option<string>, statusCode: Option<string>,
    dateFrom: Option<string>, dateTo: Option<string>, page: Option<string>,
    pageSize: Option<string>, sortBy: Option<string>, sortDirection: Option<string>)
    requires NoAmpersand(siteId)
    requires NoAmpersand(departmentId)
    requires NoAmpersand(projectId)
    requires NoAmpersand(machineId)
    requires NoAmpersand(productId)
    requires NoAmpersand(statusCode)
    requires NoAmpersand(dateFrom)
    requires NoAmpersand(dateTo)
    requires NoAmpersand(page)
    requires NoAmpersand(pageSize)
    requires NoAmpersand(sortBy)
    requires NoAmpersand(sortDirection)
    ensures Readable(WithFiltersCandidates(siteId, departmentId, projectId, machineId, productId, statusCode, dateFrom, dateTo, page, pageSize, sortBy, sortDirection))
  {
    WithFiltersNamesPlain();
    var vs := [siteId, departmentId, projectId, machineId, productId, statusCode, dateFrom, dateTo, page, pageSize, sortBy, sortDirection];
    assert forall v | v in vs :: NoAmpersand(v);
    WithFiltersZip(siteId, departmentId, projectId, machineId, productId, statusCode, dateFrom, dateTo, page, pageSize, sortBy, sortDirection);
    ReadableZip(WithFiltersNames, vs);
  }

  /**
   * `GetWithFiltersAsync`: a GET of the list at `BaseRoute` followed by the
   * query of the filters that are set, in the order above; `page`,
   * `pageSize` and `sortDirection` are always sent.
   */
  method GetWithFiltersAsync(
    siteId: Option<Decimal.Long>, departmentId: Option<Decimal.Long>,
    projectId: Option<Decimal.Long>, machineId: Option<Decimal.Long>,
    productId: Option<Decimal.Long>, statusCode: Option<string>, dateFrom: Option<Dates.DateTime>,
    dateTo: Option<Dates.DateTime>, page: int, pageSize: int, sortBy: Option<string>,
    sortDirection: string)
    returns (call: Call<NoBody>)
    ensures call == GetListAsync(BaseRoute + BuildQuery(WithFiltersCandidates(
      IdValue(siteId), IdValue(departmentId), IdValue(projectId), IdValue(machineId),
      IdValue(productId), EscapedValue(statusCode), DateValue(dateFrom), DateValue(dateTo),
      Some(Decimal.IntToString(page)), Some(Decimal.IntToString(pageSize)), EscapedValue(sortBy),
      Some(PercentEncoding.Escape(sortDirection)))))
  {
    // The candidates, spelled out in the order the steps below add them.
    ghost var cs := WithFiltersCandidates(
      IdValue(siteId), IdValue(departmentId), IdValue(projectId), IdValue(machineId),
      IdValue(productId), EscapedValue(statusCode), DateValue(dateFrom), DateValue(dateTo),
      Some(Decimal.IntToString(page)), Some(Decimal.IntToString(pageSize)), EscapedValue(sortBy),
      Some(PercentEncoding.Escape(sortDirection)));
    assert cs == [Candidate(SiteId, IdValue(siteId))] + [Candidate(DepartmentId, IdValue(departmentId))] +
      [Candidate(ProjectId, IdValue(projectId))] + [Candidate(MachineId, IdValue(machineId))] +
      [Candidate(ProductId, IdValue(productId))] + [Candidate(StatusCode, EscapedValue(statusCode))] +
      [Candidate(DateFrom, DateValue(dateFrom))] + [Candidate(DateTo, DateValue(dateTo))] +
      [Candidate(Page, Some(Decimal.IntToString(page)))] +
      [Candidate(PageSize, Some(Decimal.IntToString(pageSize)))] + [Candidate(SortBy, EscapedValue(sortBy))] +
      [Candidate(SortDirection, Some(PercentEncoding.Escape(sortDirection)))];
    var queryParams: seq<string> := [];
    queryParams := AddIfHasValue(queryParams, SiteId, siteId, []);
    ghost var done := [Candidate(SiteId, IdValue(siteId))];
    queryParams := AddIfHasValue(queryParams, DepartmentId, departmentId, done);
    done := done + [Candidate(DepartmentId, IdValue(departmentId))];
    queryParams := AddIfHasValue(queryParams, ProjectId, projectId, done);
    done := done + [Candidate(ProjectId, IdValue(projectId))];
    queryParams := AddIfHasValue(queryParams, MachineId, machineId, done);
    done := done + [Candidate(MachineId, IdValue(machineId))];
    queryParams := AddIfHasValue(queryParams, ProductId, productId, done);
    done := done + [Candidate(ProductId, IdValue(productId))];
    queryParams := AddIfNotEmpty(queryParams, StatusCode, statusCode, done);
    done := done + [Candidate(StatusCode, EscapedValue(statusCode))];
    queryParams := AddDateIfHasValue(queryParams, DateFrom, dateFrom, done);
    done := done + [Candidate(DateFrom, DateValue(dateFrom))];
    queryParams := AddDateIfHasValue(queryParams, DateTo, dateTo, done);
    done := done + [Candidate(DateTo, DateValue(dateTo))];
    queryParams := AddAlways(queryParams, Page, Decimal.IntToString(page), done);
    done := done + [Candidate(Page, Some(Decimal.IntToString(page)))];
    queryParams := AddAlways(queryParams, PageSize, Decimal.IntToString(pageSize), done);
    done := done + [Candidate(PageSize, Some(Decimal.IntToString(pageSize)))];
    queryParams := AddIfNotEmpty(queryParams, SortBy, sortBy, done);
    done := done + [Candidate(SortBy, EscapedValue(sortBy))];
    queryParams := AddAlways(queryParams, SortDirection, PercentEncoding.Escape(sortDirection), done);
    done := done + [Candidate(SortDirection, Some(PercentEncoding.Escape(sortDirection)))];
    var queryString := JoinQuery(queryParams);
    call := GetListAsync(BaseRoute + queryString);
  }

  /**
   * The query `GetWithFiltersAsync` writes reads back as its arguments: each name gives
   * its candidate's text, or nothing when the guard left it out, and no other
   * name appears.
   */
  lemma WithFiltersReadBack(
    siteId: Option<Decimal.Long>, departmentId: Option<Decimal.Long>,
    projectId: Option<Decimal.Long>, machineId: Option<Decimal.Long>,
    productId: Option<Decimal.Long>, statusCode: Option<string>, dateFrom: Option<Dates.DateTime>,
    dateTo: Option<Dates.DateTime>, page: int, pageSize: int, sortBy: Option<string>,
    sortDirection: string, name: string)
    ensures var cs := WithFiltersCandidates(
              IdValue(siteId), IdValue(departmentId), IdValue(projectId), IdValue(machineId),
              IdValue(productId), EscapedValue(statusCode), DateValue(dateFrom), DateValue(dateTo),
              Some(Decimal.IntToString(page)), Some(Decimal.IntToString(pageSize)),
              EscapedValue(sortBy), Some(PercentEncoding.Escape(sortDirection)));
      && (name !in Names(cs) ==> QueryValue(BuildQuery(cs), name).None?)
      && (forall i :: 0 <= i < |cs| && cs[i].name == name ==> QueryValue(BuildQuery(cs), name) == cs[i].value)
  {
    IntHasNoAmpersand(page);
    IntHasNoAmpersand(pageSize);
    EscapedHasNoAmpersand(sortDirection);
    WithFiltersReadable(
      IdValue(siteId), IdValue(departmentId), IdValue(projectId), IdValue(machineId),
      IdValue(productId), EscapedValue(statusCode), DateValue(dateFrom), DateValue(dateTo),
      Some(Decimal.IntToString(page)), Some(Decimal.IntToString(pageSize)), EscapedValue(sortBy),
      Some(PercentEncoding.Escape(sortDirection)));
    ReadBack(WithFiltersCandidates(
      IdValue(siteId), IdValue(departmentId), IdValue(projectId), IdValue(machineId),
      IdValue(productId), EscapedValue(statusCode), DateValue(dateFrom), DateValue(dateTo),
      Some(Decimal.IntToString(page)), Some(Decimal.IntToString(pageSize)), EscapedValue(sortBy),
      Some(PercentEncoding.Escape(sortDirection))), name);
  }

  /**
   * The parameters `GetLinesAsync` may add, in the order it adds them, each with
   * the text it would carry (`None` when its guard leaves it out).
   */
  function LinesCandidates(
    productId: Option<string>, siteId: Option<string>, departmentId: Option<string>,
    machineId: Option<string>, projectId: Option<string>, statusCode: Option<string>,
    dateFrom: Option<string>, dateTo: Option<string>, page: Option<string>, pageSize: Option<string>): seq<Candidate>
  {
    [Candidate(ProductId, productId)] + [Candidate(SiteId, siteId)] + [Candidate(DepartmentId, departmentId)] +
    [Candidate(MachineId, machineId)] + [Candidate(ProjectId, projectId)] +
    [Candidate(StatusCode, statusCode)] + [Candidate(DateFrom, dateFrom)] + [Candidate(DateTo, dateTo)] +
    [Candidate(Page, page)] + [Candidate(PageSize, pageSize)]
  }

  /** The names `GetLinesAsync` writes, in order. */
  const LinesNames := [
    ProductId, SiteId, DepartmentId, MachineId, ProjectId, StatusCode, DateFrom, DateTo, Page,
    PageSize]

  /** The candidates of `LinesCandidates`, spelled out as one list. */
  lemma LinesSpelled(
    productId: Option<string>, siteId: Option<string>, departmentId: Option<string>,
    machineId: Option<string>, projectId: Option<string>, statusCode: Option<string>,
    dateFrom: Option<string>, dateTo: Option<string>, page: Option<string>, pageSize: Option<string>)
    ensures LinesCandidates(productId, siteId, departmentId, machineId, projectId, statusCode, dateFrom, dateTo, page, pageSize) == [
      Candidate(ProductId, productId), Candidate(SiteId, siteId),
      Candidate(DepartmentId, departmentId), Candidate(MachineId, machineId),
      Candidate(ProjectId, projectId), Candidate(StatusCode, statusCode),
      Candidate(DateFrom, dateFrom), Candidate(DateTo, dateTo), Candidate(Page, page),
      Candidate(PageSize, pageSize)]
  {
  }

  /** The names zipped with the values give the same spelled-out list. */
  lemma LinesZipSpelled(
    productId: Option<string>, siteId: Option<string>, departmentId: Option<string>,
    machineId: Option<string>, projectId: Option<string>, statusCode: Option<string>,
    dateFrom: Option<string>, dateTo: Option<string>, page: Option<string>, pageSize: Option<string>)
    ensures Zip(LinesNames, [productId, siteId, departmentId, machineId, projectId, statusCode, dateFrom, dateTo, page, pageSize]) == [
      Candidate(ProductId, productId), Candidate(SiteId, siteId),
      Candidate(DepartmentId, departmentId), Candidate(MachineId, machineId),
      Candidate(ProjectId, projectId), Candidate(StatusCode, statusCode),
      Candidate(DateFrom, dateFrom), Candidate(DateTo, dateTo), Candidate(Page, page),
      Candidate(PageSize, pageSize)]
  {
    var spelled := [
      Candidate(ProductId, productId), Candidate(SiteId, siteId),
      Candidate(DepartmentId, departmentId), Candidate(MachineId, machineId),
      Candidate(ProjectId, projectId), Candidate(StatusCode, statusCode),
      Candidate(DateFrom, dateFrom), Candidate(DateTo, dateTo), Candidate(Page, page),
      Candidate(PageSize, pageSize)];
    var z := Zip(LinesNames, [productId, siteId, departmentId, machineId, projectId, statusCode, dateFrom, dateTo, page, pageSize]);
    forall i | 0 <= i < 10 ensures z[i] == spelled[i] {
    }
  }

  /** The candidates are the names paired with the values, position by position. */
  lemma LinesZip(
    productId: Option<string>, siteId: Option<string>, departmentId: Option<string>,
    machineId: Option<string>, projectId: Option<string>, statusCode: Option<string>,
    dateFrom: Option<string>, dateTo: Option<string>, page: Option<string>, pageSize: Option<string>)
    ensures LinesCandidates(productId, siteId, departmentId, machineId, projectId, statusCode, dateFrom, dateTo, page, pageSize) == Zip(LinesNames, [productId, siteId, departmentId, machineId, projectId, statusCode, dateFrom, dateTo, page, pageSize])
  {
    LinesSpelled(productId, siteId, departmentId, machineId, projectId, statusCode, dateFrom, dateTo, page, pageSize);
    LinesZipSpelled(productId, siteId, departmentId, machineId, projectId, statusCode, dateFrom, dateTo, page, pageSize);
  }

  /** The names `GetLinesAsync` writes are distinct and plain. */
  lemma LinesNamesPlain()
    ensures Distinct(LinesNames) && forall n | n in LinesNames :: Plain(n)
  {
    IdNamesPlain();
    FilterNamesPlain();
    PagingNamesPlain();
  }

  /**
   * The names `GetLinesAsync` writes are distinct and plain, so the query reads
   * back as its candidates whenever no value holds an `&`.
   */
  lemma LinesReadable(
    productId: Option<string>, siteId: Option<string>, departmentId: Option<string>,
    machineId: Option<string>, projectId: Option<string>, statusCode: Option<string>,
    dateFrom: Option<string>, dateTo: Option<string>, page: Option<string>, pageSize: Option<string>)
    requires NoAmpersand(productId)
    requires NoAmpersand(siteId)
    requires NoAmpersand(departmentId)
    requires NoAmpersand(machineId)
    requires NoAmpersand(projectId)
    requires NoAmpersand(statusCode)
    requires NoAmpersand(dateFrom)
    requires NoAmpersand(dateTo)
    requires NoAmpersand(page)
    requires NoAmpersand(pageSize)
    ensures Readable(LinesCandidates(productId, siteId, departmentId, machineId, projectId, statusCode, dateFrom, dateTo, page, pageSize))
  {
    LinesNamesPlain();
    var vs := [productId, siteId, departmentId, machineId, projectId, statusCode, dateFrom, dateTo, page, pageSize];
    assert forall v | v in vs :: NoAmpersand(v);
    LinesZip(productId, siteId, departmentId, machineId, projectId, statusCode, dateFrom, dateTo, page, pageSize);
    ReadableZip(LinesNames, vs);
  }

  /**
   * `GetLinesAsync`: a GET of the request lines at `BaseRoute/lines`
   * followed by the query of the filters that are set; `page` and
   * `pageSize` are always sent.
   */
  method GetLinesAsync(
    productId: Option<Decimal.Long>, siteId: Option<Decimal.Long>,
    departmentId: Option<Decimal.Long>, machineId: Option<Decimal.Long>,
    projectId: Option<Decimal.Long>, statusCode: Option<string>, dateFrom: Option<Dates.DateTime>,
    dateTo: Option<Dates.DateTime>, page: int, pageSize: int)
    returns (call: Call<NoBody>)
    ensures call == GetListAsync(Routes.Child(BaseRoute, "lines") + BuildQuery(LinesCandidates(
      IdValue(productId), IdValue(siteId), IdValue(departmentId), IdValue(machineId),
      IdValue(projectId), EscapedValue(statusCode), DateValue(dateFrom), DateValue(dateTo),
      Some(Decimal.IntToString(page)), Some(Decimal.IntToString(pageSize)))))
  {
    // The candidates, spelled out in the order the steps below add them.
    ghost var cs := LinesCandidates(
      IdValue(productId), IdValue(siteId), IdValue(departmentId), IdValue(machineId),
      IdValue(projectId), EscapedValue(statusCode), DateValue(dateFrom), DateValue(dateTo),
      Some(Decimal.IntToString(page)), Some(Decimal.IntToString(pageSize)));
    assert cs == [Candidate(ProductId, IdValue(productId))] + [Candidate(SiteId, IdValue(siteId))] +
      [Candidate(DepartmentId, IdValue(departmentId))] + [Candidate(MachineId, IdValue(machineId))] +
      [Candidate(ProjectId, IdValue(projectId))] + [Candidate(StatusCode, EscapedValue(statusCode))] +
      [Candidate(DateFrom, DateValue(dateFrom))] + [Candidate(DateTo, DateValue(dateTo))] +
      [Candidate(Page, Some(Decimal.IntToString(page)))] +
      [Candidate(PageSize, Some(Decimal.IntToString(pageSize)))];
    var queryParams: seq<string> := [];
    queryParams := AddIfHasValue(queryParams, ProductId, productId, []);
    ghost var done := [Candidate(ProductId, IdValue(productId))];
    queryParams := AddIfHasValue(queryParams, SiteId, siteId, done);
    done := done + [Candidate(SiteId, IdValue(siteId))];
    queryParams := AddIfHasValue(queryParams, DepartmentId, departmentId, done);
    done := done + [Candidate(DepartmentId, IdValue(departmentId))];
    queryParams := AddIfHasValue(queryParams, MachineId, machineId, done);
    done := done + [Candidate(MachineId, IdValue(machineId))];
    queryParams := AddIfHasValue(queryParams, ProjectId, projectId, done);
    done := done + [Candidate(ProjectId, IdValue(projectId))];
    queryParams := AddIfNotEmpty(queryParams, StatusCode, statusCode, done);
    done := done + [Candidate(StatusCode, EscapedValue(statusCode))];
    queryParams := AddDateIfHasValue(queryParams, DateFrom, dateFrom, done);
    done := done + [Candidate(DateFrom, DateValue(dateFrom))];
    queryParams := AddDateIfHasValue(queryParams, DateTo, dateTo, done);
    done := done + [Candidate(DateTo, DateValue(dateTo))];
    queryParams := AddAlways(queryParams, Page, Decimal.IntToString(page), done);
    done := done + [Candidate(Page, Some(Decimal.IntToString(page)))];
    queryParams := AddAlways(queryParams, PageSize, Decimal.IntToString(pageSize), done);
    done := done + [Candidate(PageSize, Some(Decimal.IntToString(pageSize)))];
    var queryString := JoinQuery(queryParams);
    call := GetListAsync(Routes.Child(BaseRoute, "lines") + queryString);
  }

  /**
   * The query `GetLinesAsync` writes reads back as its arguments: each name gives
   * its candidate's text, or nothing when the guard left it out, and no other
   * name appears.
   */
  lemma LinesReadBack(
    productId: Option<Decimal.Long>, siteId: Option<Decimal.Long>,
    departmentId: Option<Decimal.Long>, machineId: Option<Decimal.Long>,
    projectId: Option<Decimal.Long>, statusCode: Option<string>, dateFrom: Option<Dates.DateTime>,
    dateTo: Option<Dates.DateTime>, page: int, pageSize: int, name: string)
    ensures var cs := LinesCandidates(
              IdValue(productId), IdValue(siteId), IdValue(departmentId), IdValue(machineId),
              IdValue(projectId), EscapedValue(statusCode), DateValue(dateFrom), DateValue(dateTo),
              Some(Decimal.IntToString(page)), Some(Decimal.IntToString(pageSize)));
      && (name !in Names(cs) ==> QueryValue(BuildQuery(cs), name).None?)
      && (forall i :: 0 <= i < |cs| && cs[i].name == name ==> QueryValue(BuildQuery(cs), name) == cs[i].value)
  {
    IntHasNoAmpersand(page);
    IntHasNoAmpersand(pageSize);
    LinesReadable(
      IdValue(productId), IdValue(siteId), IdValue(departmentId), IdValue(machineId),
      IdValue(projectId), EscapedValue(statusCode), DateValue(dateFrom), DateValue(dateTo),
      Some(Decimal.IntToString(page)), Some(Decimal.IntToString(pageSize)));
    ReadBack(LinesCandidates(
      IdValue(productId), IdValue(siteId), IdValue(departmentId), IdValue(machineId),
      IdValue(projectId), EscapedValue(statusCode), DateValue(dateFrom), DateValue(dateTo),
      Some(Decimal.IntToString(page)), Some(Decimal.IntToString(pageSize))), name);
  }

  /**
   * `GetByIdAsync`, `GetAllAsync`, `CreateAsync`, `UpdateAsync` and
   * `DeleteAsync`, written out in this client with the routes of
   * `CrudApiClientBase` (it has no by-code lookup).
   */
  function Crud<D>(op: CrudApiClientBase.CrudOp<D>): (c: Call<D>)
    requires !op.GetByCode?
    ensures CrudApiClientBase.OnRecord(op) ==> Routes.ParseMember(BaseRoute, c.endpoint) == Some((op.id, None))
    ensures op.GetAll? ==> c == Call(GET, BaseRoute, None, List)
    ensures op.GetById? ==> c.verb == GET && c.body.None? && c.shape == Single
    ensures op.Create? ==> c == Call(POST, BaseRoute, Some(op.dto), Single)
    ensures op.Update? ==> c.verb == PUT && c.body == Some(op.dto) && c.shape == Single
    ensures op.Delete? ==> c.verb == DELETE && c.body.None? && c.shape == NoContent
  {
    CrudApiClientBase.CrudCall(BaseRoute, op)
  }

  /** `BulkDeleteAsync`: DELETE of the id list to `/bulk`. */
  function BulkDelete<B>(ids: B): (c: Call<B>)
    ensures c.verb == DELETE && c.body == Some(ids) && c.shape == Single
    ensures c.endpoint == Routes.Child(BaseRoute, "bulk")
  {
    TransactionRoutes.BulkDelete(BaseRoute, ids)
  }

  /** `ChangeWorkflowStatusAsync`: POST of the request to `/workflow-status`. */
  function ChangeWorkflowStatus<B>(request: B): (c: Call<B>)
    ensures c.verb == POST && c.body == Some(request) && c.shape == Single
    ensures c.endpoint == Routes.Child(BaseRoute, "workflow-status")
  {
    TransactionRoutes.ChangeWorkflowStatus(BaseRoute, request)
  }

  /** `ValidateAsync`: POST of the edit DTO to `/validate`. */
  function Validate<B>(dto: B): (c: Call<B>)
    ensures c.verb == POST && c.body == Some(dto) && c.shape == Single
    ensures c.endpoint == Routes.Child(BaseRoute, "validate")
  {
    TransactionRoutes.Validate(BaseRoute, dto)
  }

  /** `GetWorkflowHistoryAsync`: the list at `/{id}/workflow-history`. */
  function WorkflowHistory(id: Decimal.Long): (c: Call<NoBody>)
    ensures c.verb == GET && c.body.None? && c.shape == List
    ensures Routes.ParseMember(BaseRoute, c.endpoint) == Some((id, Some("workflow-history")))
  {
    TransactionRoutes.WorkflowHistory(BaseRoute, id)
  }

  /** `GetApprovedRequestsAsync`: the list at `/approved`, which is no record's endpoint. */
  function GetApprovedRequests(): (c: Call<NoBody>)
    ensures c.verb == GET && c.body.None? && c.shape == List
    ensures c.endpoint == Routes.Child(BaseRoute, "approved")
    ensures Routes.ParseMember(BaseRoute, c.endpoint).None?
  {
    Routes.WordIsNotMember(BaseRoute, "approved");
    GetListAsync(Routes.Child(BaseRoute, "approved"))
  }
}
