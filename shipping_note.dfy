/**
 * `ShippingNote_ApiClient`: shipping notes under
 * `api/purchasing/shipping-notes`. Its CRUD operations are written out with
 * the routes of `CrudApiClientBase.CrudCall`, its collection actions are
 * those of `TransactionRoutes`; its own logic is the two workflow
 * transitions, the filtered listing and the paged listing.
 */
module ShippingNoteClient {
  import opened Wrappers
  import opened ApiClientBase
  import opened QueryStrings
  import opened QueryParams
  import opened QueryNames
  import Text
  import Decimal
  import PercentEncoding
  import Dates
  import Routes
  import TransactionRoutes
  import CrudApiClientBase

  const BaseRoute := "api/purchasing/shipping-notes"

  /**
   * `GetByIdAsync`, the unpaged `GetAllAsync`, `CreateAsync`, `UpdateAsync`
   * and `DeleteAsync` (there is no by-code lookup).
   */
  function Crud<D>(op: CrudApiClientBase.CrudOp<D>): (c: Call<D>)
    requires !op.GetByCode?
    ensures CrudApiClientBase.OnRecord(op) ==> Routes.ParseMember(BaseRoute, c.endpoint) == Some((op.id, None))
    ensures op.GetAll? ==> c == Call(GET, BaseRoute, None, List)
    ensures op.GetById? ==> c.verb == GET && c.body.None? && c.shape == Single
    ensures op.Create? ==> c == Call(POST, BaseRoute, Some(op.dto), Single)
    ensures op.Update? ==> c.verb == PUT && c.body == Some(op.dto) && c.shape == Single
    ensures op.Delete? ==> c.verb == DELETE && c.body.None? && c.shape == NoContent
  {
    CrudApiClientBase.CrudCall(BaseRoute, op)
  }

  /** `BulkDeleteAsync`: DELETE of the id list to `/bulk`. */
  function BulkDelete<B>(ids: B): (c: Call<B>)
    ensures c.verb == DELETE && c.body == Some(ids) && c.shape == Single
    ensures c.endpoint == Routes.Child(BaseRoute, "bulk")
  {
    TransactionRoutes.BulkDelete(BaseRoute, ids)
  }

  /** `ChangeWorkflowStatusAsync`: POST of the request to `/workflow-status`. */
  function ChangeWorkflowStatus<B>(request: B): (c: Call<B>)
    ensures c.verb == POST && c.body == Some(request) && c.shape == Single
    ensures c.endpoint == Routes.Child(BaseRoute, "workflow-status")
  {
    TransactionRoutes.ChangeWorkflowStatus(BaseRoute, request)
  }

  /** `ValidateAsync`: POST of the edit DTO to `/validate`. */
  function Validate<B>(dto: B): (c: Call<B>)
    ensures c.verb == POST && c.body == Some(dto) && c.shape == Single
    ensures c.endpoint == Routes.Child(BaseRoute, "validate")
  {
    TransactionRoutes.Validate(BaseRoute, dto)
  }

  /** The workflow transitions: shipping (pending to shipped) and delivering (shipped to delivered). */
  datatype Transition = Ship | Deliver

  function Segment(t: Transition): string {
    match t
    case Ship => "ship"
    case Deliver => "deliver"
  }

  /** `ShipAsync` and `DeliverAsync`: POST of the request to `/{id}/ship` or `/{id}/deliver`. */
  function TransitionCall<B>(id: Decimal.Long, t: Transition, request: B): (c: Call<B>)
    ensures c.verb == POST && c.body == Some(request) && c.shape == Single
    ensures Routes.ParseMember(BaseRoute, c.endpoint) == Some((id, Some(Segment(t))))
  {
    TransactionRoutes.Transition(BaseRoute, id, Segment(t), request)
  }

  /**
   * Two transitions go to the same endpoint exactly when they are the same
   * transition of the same note, and none goes to the history endpoint.
   */
  lemma TransitionsDistinct<B>(id1: Decimal.Long, t1: Transition, id2: Decimal.Long, t2: Transition, request: B)
    ensures TransitionCall(id1, t1, request).endpoint == TransitionCall(id2, t2, request).endpoint
        <==> id1 == id2 && t1 == t2
    ensures TransitionCall(id1, t1, request).endpoint != TransactionRoutes.WorkflowHistory<B>(BaseRoute, id2).endpoint
  {
    var e1 := TransitionCall(id1, t1, request).endpoint;
    var e2 := TransitionCall(id2, t2, request).endpoint;
    if e1 == e2 {
      assert Segment(t1) == Segment(t2);
    }
  }

  /** `GetWorkflowHistoryAsync`: the list at `/{id}/workflow-history`. */
  function WorkflowHistory(id: Decimal.Long): (c: Call<NoBody>)
    ensures c.verb == GET && c.body.None? && c.shape == List
    ensures Routes.ParseMember(BaseRoute, c.endpoint) == Some((id, Some("workflow-history")))
  {
    TransactionRoutes.WorkflowHistory(BaseRoute, id)
  }

  /**
   * The parameters `GetFilteredAsync` may add, in the order it adds them, each with
   * the text it would carry (`None` when its guard leaves it out).
   */
  function FilteredCandidates(
    statusCode: Option<string>, customerId: Option<string>, dateFrom: Option<string>,
    dateTo: Option<string>): seq<Candidate>
  {
    [Candidate(StatusCode, statusCode)] + [Candidate(CustomerId, customerId)] +
    [Candidate(DateFrom, dateFrom)] + [Candidate(DateTo, dateTo)]
  }

  /** The names `GetFilteredAsync` writes, in order. */
  const FilteredNames := [
    StatusCode, CustomerId, DateFrom, DateTo]

  /** The candidates of `FilteredCandidates`, spelled out as one list. */
  lemma FilteredSpelled(
    statusCode: Option<string>, customerId: Option<string>, dateFrom: Option<string>,
    dateTo: Option<string>)
    ensures FilteredCandidates(statusCode, customerId, dateFrom, dateTo) == [
      Candidate(StatusCode, statusCode), Candidate(CustomerId, customerId),
      Candidate(DateFrom, dateFrom), Candidate(DateTo, dateTo)]
  {
  }

  /** The names zipped with the values give the same spelled-out list. */
  lemma FilteredZipSpelled(
    statusCode: Option<string>, customerId: Option<string>, dateFrom: Option<string>,
    dateTo: Option<string>)
    ensures Zip(FilteredNames, [statusCode, customerId, dateFrom, dateTo]) == [
      Candidate(StatusCode, statusCode), Candidate(CustomerId, customerId),
      Candidate(DateFrom, dateFrom), Candidate(DateTo, dateTo)]
  {
    var spelled := [
      Candidate(StatusCode, statusCode), Candidate(CustomerId, customerId),
      Candidate(DateFrom, dateFrom), Candidate(DateTo, dateTo)];
    var z := Zip(FilteredNames, [statusCode, customerId, dateFrom, dateTo]);
    forall i | 0 <= i < 4 ensures z[i] == spelled[i] {
    }
  }

  /** The candidates are the names paired with the values, position by position. */
  lemma FilteredZip(
    statusCode: Option<string>, customerId: Option<string>, dateFrom: Option<string>,
    dateTo: Option<string>)
    ensures FilteredCandidates(statusCode, customerId, dateFrom, dateTo) == Zip(FilteredNames, [statusCode, customerId, dateFrom, dateTo])
  {
    FilteredSpelled(statusCode, customerId, dateFrom, dateTo);
    FilteredZipSpelled(statusCode, customerId, dateFrom, dateTo);
  }

  /** The names `GetFilteredAsync` writes are distinct and plain. */
  lemma FilteredNamesPlain()
    ensures Distinct(FilteredNames) && forall n | n in FilteredNames :: Plain(n)
  {
    IdNamesPlain();
    FilterNamesPlain();
    PagingNamesPlain();
  }

  /**
   * The names `GetFilteredAsync` writes are distinct and plain, so the query reads
   * back as its candidates whenever no value holds an `&`.
   */
  lemma FilteredReadable(
    statusCode: Option<string>, customerId: Option<string>, dateFrom: Option<string>,
    dateTo: Option<string>)
    requires NoAmpersand(statusCode)
    requires NoAmpersand(customerId)
    requires NoAmpersand(dateFrom)
    requires NoAmpersand(dateTo)
    ensures Readable(FilteredCandidates(statusCode, customerId, dateFrom, dateTo))
  {
    FilteredNamesPlain();
    var vs := [statusCode, customerId, dateFrom, dateTo];
    assert forall v | v in vs :: NoAmpersand(v);
    FilteredZip(statusCode, customerId, dateFrom, dateTo);
    ReadableZip(FilteredNames, vs);
  }

  /**
   * `GetFilteredAsync`: a GET of the list at `BaseRoute` followed by the
   * query of the filters that are set; with none set, the bare route.
   */
  method GetFilteredAsync(
    statusCode: Option<string>, customerId: Option<string>, dateFrom: Option<Dates.DateTime>,
    dateTo: Option<Dates.DateTime>)
    returns (call: Call<NoBody>)
    ensures call == GetListAsync(BaseRoute + BuildQuery(FilteredCandidates(
      EscapedValue(statusCode), EscapedValue(customerId), DateValue(dateFrom), DateValue(dateTo))))
  {
    // The candidates, spelled out in the order the steps below add them.
    ghost var cs := FilteredCandidates(
      EscapedValue(statusCode), EscapedValue(customerId), DateValue(dateFrom), DateValue(dateTo));
    assert cs == [Candidate(StatusCode, EscapedValue(statusCode))] + [Candidate(CustomerId, EscapedValue(customerId))] +
      [Candidate(DateFrom, DateValue(dateFrom))] + [Candidate(DateTo, DateValue(dateTo))];
    var queryParams: seq<string> := [];
    queryParams := AddIfNotEmpty(queryParams, StatusCode, statusCode, []);
    ghost var done := [Candidate(StatusCode, EscapedValue(statusCode))];
    queryParams := AddIfNotEmpty(queryParams, CustomerId, customerId, done);
    done := done + [Candidate(CustomerId, EscapedValue(customerId))];
    queryParams := AddDateIfHasValue(queryParams, DateFrom, dateFrom, done);
    done := done + [Candidate(DateFrom, DateValue(dateFrom))];
    queryParams := AddDateIfHasValue(queryParams, DateTo, dateTo, done);
    done := done + [Candidate(DateTo, DateValue(dateTo))];
    var queryString := JoinQuery(queryParams);
    call := GetListAsync(BaseRoute + queryString);
  }

  /**
   * The query `GetFilteredAsync` writes reads back as its arguments: each name gives
   * its candidate's text, or nothing when the guard left it out, and no other
   * name appears.
   */
  lemma FilteredReadBack(
    statusCode: Option<string>, customerId: Option<string>, dateFrom: Option<Dates.DateTime>,
    dateTo: Option<Dates.DateTime>, name: string)
    ensures var cs := FilteredCandidates(
              EscapedValue(statusCode), EscapedValue(customerId), DateValue(dateFrom),
              DateValue(dateTo));
      && (name !in Names(cs) ==> QueryValue(BuildQuery(cs), name).None?)
      && (forall i :: 0 <= i < |cs| && cs[i].name == name ==> QueryValue(BuildQuery(cs), name) == cs[i].value)
  {

    FilteredReadable(
      EscapedValue(statusCode), EscapedValue(customerId), DateValue(dateFrom), DateValue(dateTo));
    ReadBack(FilteredCandidates(
      EscapedValue(statusCode), EscapedValue(customerId), DateValue(dateFrom), DateValue(dateTo)), name);
  }

  /**
   * The parameters `GetAllPagedAsync` may add, in the order it adds them, each with
   * the text it would carry (`None` when its guard leaves it out).
   */
  function PagedCandidates(
    page: Option<string>, pageSize: Option<string>, statusCode: Option<string>,
    customerId: Option<string>, dateFrom: Option<string>, dateTo: Option<string>): seq<Candidate>
  {
    [Candidate(Page, page)] + [Candidate(PageSize, pageSize)] + [Candidate(StatusCode, statusCode)] +
    [Candidate(CustomerId, customerId)] + [Candidate(DateFrom, dateFrom)] + [Candidate(DateTo, dateTo)]
  }

  /** The names `GetAllPagedAsync` writes, in order. */
  const PagedNames := [
    Page, PageSize, StatusCode, CustomerId, DateFrom, DateTo]

  /** The candidates of `PagedCandidates`, spelled out as one list. */
  lemma PagedSpelled(
    page: Option<string>, pageSize: Option<string>, statusCode: Option<string>,
    customerId: Option<string>, dateFrom: Option<string>, dateTo: Option<string>)
    ensures PagedCandidates(page, pageSize, statusCode, customerId, dateFrom, dateTo) == [
      Candidate(Page, page), Candidate(PageSize, pageSize), Candidate(StatusCode, statusCode),
      Candidate(CustomerId, customerId), Candidate(DateFrom, dateFrom), Candidate(DateTo, dateTo)]
  {
  }

  /** The names zipped with the values give the same spelled-out list. */
  lemma PagedZipSpelled(
    page: Option<string>, pageSize: Option<string>, statusCode: Option<string>,
    customerId: Option<string>, dateFrom: Option<string>, dateTo: Option<string>)
    ensures Zip(PagedNames, [page, pageSize, statusCode, customerId, dateFrom, dateTo]) == [
      Candidate(Page, page), Candidate(PageSize, pageSize), Candidate(StatusCode, statusCode),
      Candidate(CustomerId, customerId), Candidate(DateFrom, dateFrom), Candidate(DateTo, dateTo)]
  {
    var spelled := [
      Candidate(Page, page), Candidate(PageSize, pageSize), Candidate(StatusCode, statusCode),
      Candidate(CustomerId, customerId), Candidate(DateFrom, dateFrom), Candidate(DateTo, dateTo)];
    var z := Zip(PagedNames, [page, pageSize, statusCode, customerId, dateFrom, dateTo]);
    forall i | 0 <= i < 6 ensures z[i] == spelled[i] {
    }
  }

  /** The candidates are the names paired with the values, position by position. */
  lemma PagedZip(
    page: Option<string>, pageSize: Option<string>, statusCode: Option<string>,
    customerId: Option<string>, dateFrom: Option<string>, dateTo: Option<string>)
    ensures PagedCandidates(page, pageSize, statusCode, customerId, dateFrom, dateTo) == Zip(PagedNames, [page, pageSize, statusCode, customerId, dateFrom, dateTo])
  {
    PagedSpelled(page, pageSize, statusCode, customerId, dateFrom, dateTo);
    PagedZipSpelled(page, pageSize, statusCode, customerId, dateFrom, dateTo);
  }

  /** The names `GetAllPagedAsync` writes are distinct and plain. */
  lemma PagedNamesPlain()
    ensures Distinct(PagedNames) && forall n | n in PagedNames :: Plain(n)
  {
    IdNamesPlain();
    FilterNamesPlain();
    PagingNamesPlain();
  }

  /**
   * The names `GetAllPagedAsync` writes are distinct and plain, so the query reads
   * back as its candidates whenever no value holds an `&`.
   */
  lemma PagedReadable(
    page: Option<string>, pageSize: Option<string>, statusCode: Option<string>,
    customerId: Option<string>, dateFrom: Option<string>, dateTo: Option<string>)
    requires NoAmpersand(page)
    requires NoAmpersand(pageSize)
    requires NoAmpersand(statusCode)
    requires NoAmpersand(customerId)
    requires NoAmpersand(dateFrom)
    requires NoAmpersand(dateTo)
    ensures Readable(PagedCandidates(page, pageSize, statusCode, customerId, dateFrom, dateTo))
  {
    PagedNamesPlain();
    var vs := [page, pageSize, statusCode, customerId, dateFrom, dateTo];
    assert forall v | v in vs :: NoAmpersand(v);
    PagedZip(page, pageSize, statusCode, customerId, dateFrom, dateTo);
    ReadableZip(PagedNames, vs);
  }

  /**
   * The paged `GetAllAsync` overload: a GET of one page, read as a single
   * value, at `BaseRoute` followed by `?` and the joined parameters. `page`
   * and `pageSize` always come first, so the `?` it writes unconditionally
   * is never followed by an empty query.
   */
  method GetAllPagedAsync(
    page: int, pageSize: int, statusCode: Option<string>, customerId: Option<string>,
    dateFrom: Option<Dates.DateTime>, dateTo: Option<Dates.DateTime>)
    returns (call: Call<NoBody>)
    ensures call == GetAsync(BaseRoute + BuildQuery(PagedCandidates(
      Some(Decimal.IntToString(page)), Some(Decimal.IntToString(pageSize)),
      EscapedValue(statusCode), EscapedValue(customerId), DateValue(dateFrom), DateValue(dateTo))))
  {
    // The candidates, spelled out in the order the steps below add them.
    ghost var cs := PagedCandidates(
      Some(Decimal.IntToString(page)), Some(Decimal.IntToString(pageSize)),
      EscapedValue(statusCode), EscapedValue(customerId), DateValue(dateFrom), DateValue(dateTo));
    assert cs == [Candidate(Page, Some(Decimal.IntToString(page)))] +
      [Candidate(PageSize, Some(Decimal.IntToString(pageSize)))] +
      [Candidate(StatusCode, EscapedValue(statusCode))] + [Candidate(CustomerId, EscapedValue(customerId))] +
      [Candidate(DateFrom, DateValue(dateFrom))] + [Candidate(DateTo, DateValue(dateTo))];
    var queryParams: seq<string> := [];
    queryParams := AddAlways(queryParams, Page, Decimal.IntToString(page), []);
    ghost var done := [Candidate(Page, Some(Decimal.IntToString(page)))];
    queryParams := AddAlways(queryParams, PageSize, Decimal.IntToString(pageSize), done);
    done := done + [Candidate(PageSize, Some(Decimal.IntToString(pageSize)))];
    queryParams := AddIfNotEmpty(queryParams, StatusCode, statusCode, done);
    done := done + [Candidate(StatusCode, EscapedValue(statusCode))];
    queryParams := AddIfNotEmpty(queryParams, CustomerId, customerId, done);
    done := done + [Candidate(CustomerId, EscapedValue(customerId))];
    queryParams := AddDateIfHasValue(queryParams, DateFrom, dateFrom, done);
    done := done + [Candidate(DateFrom, DateValue(dateFrom))];
    queryParams := AddDateIfHasValue(queryParams, DateTo, dateTo, done);
    done := done + [Candidate(DateTo, DateValue(dateTo))];
    var queryString := "?" + Text.Join(queryParams, '&');
    assert queryString == JoinQuery(queryParams);
    call := GetAsync(BaseRoute + queryString);
  }

  /**
   * The query `GetAllPagedAsync` writes reads back as its arguments: each name gives
   * its candidate's text, or nothing when the guard left it out, and no other
   * name appears.
   */
  lemma PagedReadBack(
    page: int, pageSize: int, statusCode: Option<string>, customerId: Option<string>,
    dateFrom: Option<Dates.DateTime>, dateTo: Option<Dates.DateTime>, name: string)
    ensures var cs := PagedCandidates(
              Some(Decimal.IntToString(page)), Some(Decimal.IntToString(pageSize)),
              EscapedValue(statusCode), EscapedValue(customerId), DateValue(dateFrom),
              DateValue(dateTo));
      && (name !in Names(cs) ==> QueryValue(BuildQuery(cs), name).None?)
      && (forall i :: 0 <= i < |cs| && cs[i].name == name ==> QueryValue(BuildQuery(cs), name) == cs[i].value)
  {
    IntHasNoAmpersand(page);
    IntHasNoAmpersand(pageSize);
    PagedReadable(
      Some(Decimal.IntToString(page)), Some(Decimal.IntToString(pageSize)),
      EscapedValue(statusCode), EscapedValue(customerId), DateValue(dateFrom), DateValue(dateTo));
    ReadBack(PagedCandidates(
      Some(Decimal.IntToString(page)), Some(Decimal.IntToString(pageSize)),
      EscapedValue(statusCode), EscapedValue(customerId), DateValue(dateFrom), DateValue(dateTo)), name);
  }
}
