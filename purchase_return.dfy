/**
 * `PurchaseReturn_ApiClient`: returns to suppliers under
 * `api/purchasing/returns`. Its CRUD operations are written out with the
 * routes of `CrudApiClientBase.CrudCall`, its collection actions are those
 * of `TransactionRoutes`; its own logic is the workflow route table, the
 * `SubmitAsync` alias, the filtered listing and a search read as one value.
 */
module PurchaseReturnClient {
  import opened Wrappers
  import opened ApiClientBase
  import opened QueryStrings
  import opened QueryParams
  import opened QueryNames
  import Decimal
  import PercentEncoding
  import Dates
  import Routes
  import TransactionRoutes
  import CrudApiClientBase

  const BaseRoute := "api/purchasing/returns"

  /**
   * `GetByIdAsync`, `GetAllAsync`, `CreateAsync`, `UpdateAsync` and
   * `DeleteAsync` (there is no by-code lookup).
   */
  function Crud<D>(op: CrudApiClientBase.CrudOp<D>): (c: Call<D>)
    requires !op.GetByCode?
    ensures CrudApiClientBase.OnRecord(op) ==> Routes.ParseMember(BaseRoute, c.endpoint) == Some((op.id, None))
    ensures op.GetAll? ==> c == Call(GET, BaseRoute, None, List)
    ensures op.GetById? ==> c.verb == GET && c.body.None? && c.shape == Single
    ensures op.Create? ==> c == Call(POST, BaseRoute, Some(op.dto), Single)
    ensures op.Update? ==> c.verb == PUT && c.body == Some(op.dto) && c.shape == Single
    ensures op.Delete? ==> c.verb == DELETE && c.body.None? && c.shape == NoContent
  {
    CrudApiClientBase.CrudCall(BaseRoute, op)
  }

  /** `BulkDeleteAsync`: DELETE of the id list to `/bulk`. */
  function BulkDelete<B>(ids: B): (c: Call<B>)
    ensures c.verb == DELETE && c.body == Some(ids) && c.shape == Single
    ensures c.endpoint == Routes.Child(BaseRoute, "bulk")
  {
    TransactionRoutes.BulkDelete(BaseRoute, ids)
  }

  /** `ChangeWorkflowStatusAsync`: POST of the request to `/workflow-status`. */
  function ChangeWorkflowStatus<B>(request: B): (c: Call<B>)
    ensures c.verb == POST && c.body == Some(request) && c.shape == Single
    ensures c.endpoint == Routes.Child(BaseRoute, "workflow-status")
  {
    TransactionRoutes.ChangeWorkflowStatus(BaseRoute, request)
  }

  /** `ValidateAsync`: POST of the edit DTO to `/validate`. */
  function Validate<B>(dto: B): (c: Call<B>)
    ensures c.verb == POST && c.body == Some(dto) && c.shape == Single
    ensures c.endpoint == Routes.Child(BaseRoute, "validate")
  {
    TransactionRoutes.Validate(BaseRoute, dto)
  }

  /** The workflow transitions, each a POST to `/{id}/{segment}`. */
  datatype Transition = SubmitForApproval | Approve | Reject | Ship | Return | RecordCredit

  function Segment(t: Transition): string {
    match t
    case SubmitForApproval => "submit"
    case Approve => "approve"
    case Reject => "reject"
    case Ship => "ship"
    case Return => "return"
    case RecordCredit => "credit"
  }

  /**
   * `SubmitForApprovalAsync`, `ApproveAsync`, `RejectAsync`, `ShipAsync`,
   * `ReturnAsync`, `RecordCreditAsync`.
   */
  function TransitionCall<B>(id: Decimal.Long, t: Transition, request: B): (c: Call<B>)
    ensures c.verb == POST && c.body == Some(request) && c.shape == Single
    ensures Routes.ParseMember(BaseRoute, c.endpoint) == Some((id, Some(Segment(t))))
  {
    TransactionRoutes.Transition(BaseRoute, id, Segment(t), request)
  }

  /**
   * `SubmitAsync`: an alias that makes the very call `SubmitForApprovalAsync`
   * makes, which no other transition of any return makes.
   */
  function Submit<B>(id: Decimal.Long, request: B): (c: Call<B>)
    ensures c == TransitionCall(id, SubmitForApproval, request)
    ensures forall other: Decimal.Long, t: Transition ::
      c.endpoint == TransitionCall(other, t, request).endpoint ==> other == id && t == SubmitForApproval
  {
    TransitionCall(id, SubmitForApproval, request)
  }

  /**
   * Two transitions go to the same endpoint exactly when they are the same
   * transition of the same return, and none goes to the history endpoint.
   */
  lemma TransitionsDistinct<B>(id1: Decimal.Long, t1: Transition, id2: Decimal.Long, t2: Transition, request: B)
    ensures TransitionCall(id1, t1, request).endpoint == TransitionCall(id2, t2, request).endpoint
        <==> id1 == id2 && t1 == t2
    ensures TransitionCall(id1, t1, request).endpoint != TransactionRoutes.WorkflowHistory<B>(BaseRoute, id2).endpoint
  {
    var e1 := TransitionCall(id1, t1, request).endpoint;
    var e2 := TransitionCall(id2, t2, request).endpoint;
    if e1 == e2 {
      assert Segment(t1) == Segment(t2);
    }
  }

  /** `GetWorkflowHistoryAsync`: the list at `/{id}/workflow-history`. */
  function WorkflowHistory(id: Decimal.Long): (c: Call<NoBody>)
    ensures c.verb == GET && c.body.None? && c.shape == List
    ensures Routes.ParseMember(BaseRoute, c.endpoint) == Some((id, Some("workflow-history")))
  {
    TransactionRoutes.WorkflowHistory(BaseRoute, id)
  }

  /**
   * `SearchAsync`: the filter POSTed to `/search` with `PostAsync`, so the
   * list comes back as one value, which may be null, and is not turned into
   * an empty list as `PostListAsync` would.
   */
  function Search<F>(filter: F): (c: Call<F>)
    ensures c.verb == POST && c.body == Some(filter) && c.shape == Single
    ensures c.endpoint == Routes.Child(BaseRoute, "search")
    ensures Routes.ParseMember(BaseRoute, c.endpoint).None?
  {
    Routes.WordIsNotMember(BaseRoute, "search");
    PostAsync(Routes.Child(BaseRoute, "search"), filter)
  }

  /**
   * The parameters `GetFilteredAsync` may add, in the order it adds them, each with
   * the text it would carry (`None` when its guard leaves it out).
   */
  function FilteredCandidates(
    statusCode: Option<string>, supplierId: Option<string>, dateFrom: Option<string>,
    dateTo: Option<string>): seq<Candidate>
  {
    [Candidate(StatusCode, statusCode)] + [Candidate(SupplierId, supplierId)] +
    [Candidate(DateFrom, dateFrom)] + [Candidate(DateTo, dateTo)]
  }

  /** The names `GetFilteredAsync` writes, in order. */
  const FilteredNames := [
    StatusCode, SupplierId, DateFrom, DateTo]

  /** The candidates of `FilteredCandidates`, spelled out as one list. */
  lemma FilteredSpelled(
    statusCode: Option<string>, supplierId: Option<string>, dateFrom: Option<string>,
    dateTo: Option<string>)
    ensures FilteredCandidates(statusCode, supplierId, dateFrom, dateTo) == [
      Candidate(StatusCode, statusCode), Candidate(SupplierId, supplierId),
      Candidate(DateFrom, dateFrom), Candidate(DateTo, dateTo)]
  {
  }

  /** The names zipped with the values give the same spelled-out list. */
  lemma FilteredZipSpelled(
    statusCode: Option<string>, supplierId: Option<string>, dateFrom: Option<string>,
    dateTo: Option<string>)
    ensures Zip(FilteredNames, [statusCode, supplierId, dateFrom, dateTo]) == [
      Candidate(StatusCode, statusCode), Candidate(SupplierId, supplierId),
      Candidate(DateFrom, dateFrom), Candidate(DateTo, dateTo)]
  {
    var spelled := [
      Candidate(StatusCode, statusCode), Candidate(SupplierId, supplierId),
      Candidate(DateFrom, dateFrom), Candidate(DateTo, dateTo)];
    var z := Zip(FilteredNames, [statusCode, supplierId, dateFrom, dateTo]);
    forall i | 0 <= i < 4 ensures z[i] == spelled[i] {
    }
  }

  /** The candidates are the names paired with the values, position by position. */
  lemma FilteredZip(
    statusCode: Option<string>, supplierId: Option<string>, dateFrom: Option<string>,
    dateTo: Option<string>)
    ensures FilteredCandidates(statusCode, supplierId, dateFrom, dateTo) == Zip(FilteredNames, [statusCode, supplierId, dateFrom, dateTo])
  {
    FilteredSpelled(statusCode, supplierId, dateFrom, dateTo);
    FilteredZipSpelled(statusCode, supplierId, dateFrom, dateTo);
  }

  /** The names `GetFilteredAsync` writes are distinct and plain. */
  lemma FilteredNamesPlain()
    ensures Distinct(FilteredNames) && forall n | n in FilteredNames :: Plain(n)
  {
    IdNamesPlain();
    FilterNamesPlain();
    PagingNamesPlain();
  }

  /**
   * The names `GetFilteredAsync` writes are distinct and plain, so the query reads
   * back as its candidates whenever no value holds an `&`.
   */
  lemma FilteredReadable(
    statusCode: Option<string>, supplierId: Option<string>, dateFrom: Option<string>,
    dateTo: Option<string>)
    requires NoAmpersand(statusCode)
    requires NoAmpersand(supplierId)
    requires NoAmpersand(dateFrom)
    requires NoAmpersand(dateTo)
    ensures Readable(FilteredCandidates(statusCode, supplierId, dateFrom, dateTo))
  {
    FilteredNamesPlain();
    var vs := [statusCode, supplierId, dateFrom, dateTo];
    assert forall v | v in vs :: NoAmpersand(v);
    FilteredZip(statusCode, supplierId, dateFrom, dateTo);
    ReadableZip(FilteredNames, vs);
  }

  /**
   * `GetFilteredAsync`: a GET of the list at `BaseRoute` followed by the
   * query of the filters that are set; with none set, the bare route.
   */
  method GetFilteredAsync(
    statusCode: Option<string>, supplierId: Option<Decimal.Long>, dateFrom: Option<Dates.DateTime>,
    dateTo: Option<Dates.DateTime>)
    returns (call: Call<NoBody>)
    ensures call == GetListAsync(BaseRoute + BuildQuery(FilteredCandidates(
      EscapedValue(statusCode), IdValue(supplierId), DateValue(dateFrom), DateValue(dateTo))))
  {
    // The candidates, spelled out in the order the steps below add them.
    ghost var cs := FilteredCandidates(
      EscapedValue(statusCode), IdValue(supplierId), DateValue(dateFrom), DateValue(dateTo));
    assert cs == [Candidate(StatusCode, EscapedValue(statusCode))] + [Candidate(SupplierId, IdValue(supplierId))] +
      [Candidate(DateFrom, DateValue(dateFrom))] + [Candidate(DateTo, DateValue(dateTo))];
    var queryParams: seq<string> := [];
    queryParams := AddIfNotEmpty(queryParams, StatusCode, statusCode, []);
    ghost var done := [Candidate(StatusCode, EscapedValue(statusCode))];
    queryParams := AddIfHasValue(queryParams, SupplierId, supplierId, done);
    done := done + [Candidate(SupplierId, IdValue(supplierId))];
    queryParams := AddDateIfHasValue(queryParams, DateFrom, dateFrom, done);
    done := done + [Candidate(DateFrom, DateValue(dateFrom))];
    queryParams := AddDateIfHasValue(queryParams, DateTo, dateTo, done);
    done := done + [Candidate(DateTo, DateValue(dateTo))];
    var queryString := JoinQuery(queryParams);
    call := GetListAsync(BaseRoute + queryString);
  }

  /**
   * The query `GetFilteredAsync` writes reads back as its arguments: each name gives
   * its candidate's text, or nothing when the guard left it out, and no other
   * name appears.
   */
  lemma FilteredReadBack(
    statusCode: Option<string>, supplierId: Option<Decimal.Long>, dateFrom: Option<Dates.DateTime>,
    dateTo: Option<Dates.DateTime>, name: string)
    ensures var cs := FilteredCandidates(
              EscapedValue(statusCode), IdValue(supplierId), DateValue(dateFrom), DateValue(dateTo));
      && (name !in Names(cs) ==> QueryValue(BuildQuery(cs), name).None?)
      && (forall i :: 0 <= i < |cs| && cs[i].name == name ==> QueryValue(BuildQuery(cs), name) == cs[i].value)
  {

    FilteredReadable(
      EscapedValue(statusCode), IdValue(supplierId), DateValue(dateFrom), DateValue(dateTo));
    ReadBack(FilteredCandidates(
      EscapedValue(statusCode), IdValue(supplierId), DateValue(dateFrom), DateValue(dateTo)), name);
  }
}
