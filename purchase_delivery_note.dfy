/**
 * `PurchaseDeliveryNote_ApiClient`: supplier delivery notes under
 * `api/purchasing/delivery-notes`. Its CRUD operations are written out with
 * the routes of `CrudApiClientBase.CrudCall`; its own logic is the filtered
 * listing, a batch submission, and receiving and posting one note, whose
 * request bodies the client assembles from its arguments.
 */
module PurchaseDeliveryNoteClient {
  import opened Wrappers
  import opened ApiClientBase
  import opened QueryStrings
  import opened QueryParams
  import opened QueryNames
  import Decimal
  import PercentEncoding
  import Dates
  import Routes
  import CrudApiClientBase

  const BaseRoute := "api/purchasing/delivery-notes"

  /**
   * `GetByIdAsync`, `GetAllAsync`, `CreateAsync`, `UpdateAsync` and
   * `DeleteAsync` (there is no by-code lookup).
   */
  function Crud<D>(op: CrudApiClientBase.CrudOp<D>): (c: Call<D>)
    requires !op.GetByCode?
    ensures CrudApiClientBase.OnRecord(op) ==> Routes.ParseMember(BaseRoute, c.endpoint) == Some((op.id, None))
    ensures op.GetAll? ==> c == Call(GET, BaseRoute, None, List)
    ensures op.GetById? ==> c.verb == GET && c.body.None? && c.shape == Single
    ensures op.Create? ==> c == Call(POST, BaseRoute, Some(op.dto), Single)
    ensures op.Update? ==> c.verb == PUT && c.body == Some(op.dto) && c.shape == Single
    ensures op.Delete? ==> c.verb == DELETE && c.body.None? && c.shape == NoContent
  {
    CrudApiClientBase.CrudCall(BaseRoute, op)
  }

  /**
   * `SubmitForApprovalAsync`: the ids POSTed to `/submit-for-approval`, an
   * endpoint of the collection that no record has; the answer is one number.
   */
  function SubmitForApproval(ids: seq<Decimal.Long>): (c: Call<seq<Decimal.Long>>)
    ensures c.verb == POST && c.body == Some(ids) && c.shape == Single
    ensures c.endpoint == Routes.Child(BaseRoute, "submit-for-approval")
    ensures Routes.ParseMember(BaseRoute, c.endpoint).None?
  {
    Routes.WordIsNotMember(BaseRoute, "submit-for-approval");
    PostAsync(Routes.Child(BaseRoute, "submit-for-approval"), ids)
  }

  /** `PurchaseDeliveryNote_Receive_DTO`; a C# `decimal` quantity is an exact `real`. */
  datatype ReceiveRequest = ReceiveRequest(
    receivedDate: Dates.DateTime,
    receivedQuantities: map<Decimal.Long, real>,
    receiptNotes: Option<string>)

  /** `PurchaseDeliveryNote_Post_DTO`. */
  datatype PostRequest = PostRequest(postDate: Dates.DateTime, comments: Option<string>)

  /**
   * `ReceiveAsync`: a POST to `/{id}/receive` whose body carries the date,
   * the quantities per line and the notes exactly as given (null notes
   * included).
   */
  function Receive(id: Decimal.Long, receivedDate: Dates.DateTime, receivedQuantities: map<Decimal.Long, real>,
                   receiptNotes: Option<string>): (c: Call<ReceiveRequest>)
    ensures c.verb == POST && c.shape == Single && c.body.Some?
    ensures Routes.ParseMember(BaseRoute, c.endpoint) == Some((id, Some("receive")))
    ensures c.body.value.receivedDate == receivedDate
    ensures c.body.value.receivedQuantities == receivedQuantities
    ensures c.body.value.receiptNotes == receiptNotes
  {
    Routes.ParseMemberActionOf(BaseRoute, id, "receive");
    PostAsync(Routes.MemberAction(BaseRoute, id, "receive"),
              ReceiveRequest(receivedDate, receivedQuantities, receiptNotes))
  }

  /**
   * `PostAsync(id, postDate, comments)`: a POST to `/{id}/post` whose body
   * carries the posting date and the comments as given.
   */
  function Post(id: Decimal.Long, postDate: Dates.DateTime, comments: Option<string>): (c: Call<PostRequest>)
    ensures c.verb == POST && c.shape == Single && c.body.Some?
    ensures Routes.ParseMember(BaseRoute, c.endpoint) == Some((id, Some("post")))
    ensures c.body.value.postDate == postDate && c.body.value.comments == comments
  {
    Routes.ParseMemberActionOf(BaseRoute, id, "post");
    PostAsync(Routes.MemberAction(BaseRoute, id, "post"), PostRequest(postDate, comments))
  }

  /**
   * Receiving and posting address different endpoints for every pair of
   * notes, each of them different from every other note's, and neither is
   * the batch submission's.
   */
  lemma WorkflowEndpointsDistinct(id1: Decimal.Long, id2: Decimal.Long, r: ReceiveRequest, p: PostRequest)
    ensures Receive(id1, r.receivedDate, r.receivedQuantities, r.receiptNotes).endpoint != Post(id2, p.postDate, p.comments).endpoint
    ensures (Receive(id1, r.receivedDate, r.receivedQuantities, r.receiptNotes).endpoint
             == Receive(id2, r.receivedDate, r.receivedQuantities, r.receiptNotes).endpoint) <==> id1 == id2
    ensures (Post(id1, p.postDate, p.comments).endpoint == Post(id2, p.postDate, p.comments).endpoint) <==> id1 == id2
    ensures Receive(id1, r.receivedDate, r.receivedQuantities, r.receiptNotes).endpoint != SubmitForApproval([]).endpoint
    ensures Post(id1, p.postDate, p.comments).endpoint != SubmitForApproval([]).endpoint
  {
    var receive := Receive(id1, r.receivedDate, r.receivedQuantities, r.receiptNotes).endpoint;
    var post := Post(id2, p.postDate, p.comments).endpoint;
    assert Routes.ParseMember(BaseRoute, receive) != Routes.ParseMember(BaseRoute, post);
  }

  /**
   * The parameters `GetFilteredAsync` may add, in the order it adds them, each with
   * the text it would carry (`None` when its guard leaves it out).
   */
  function FilteredCandidates(
    statusCode: Option<string>, supplierId: Option<string>, dateFrom: Option<string>,
    dateTo: Option<string>): seq<Candidate>
  {
    [Candidate(StatusCode, statusCode)] + [Candidate(SupplierId, supplierId)] +
    [Candidate(DateFrom, dateFrom)] + [Candidate(DateTo, dateTo)]
  }

  /** The names `GetFilteredAsync` writes, in order. */
  const FilteredNames := [
    StatusCode, SupplierId, DateFrom, DateTo]

  /** The candidates of `FilteredCandidates`, spelled out as one list. */
  lemma FilteredSpelled(
    statusCode: Option<string>, supplierId: Option<string>, dateFrom: Option<string>,
    dateTo: Option<string>)
    ensures FilteredCandidates(statusCode, supplierId, dateFrom, dateTo) == [
      Candidate(StatusCode, statusCode), Candidate(SupplierId, supplierId),
      Candidate(DateFrom, dateFrom), Candidate(DateTo, dateTo)]
  {
  }

  /** The names zipped with the values give the same spelled-out list. */
  lemma FilteredZipSpelled(
    statusCode: Option<string>, supplierId: Option<string>, dateFrom: Option<string>,
    dateTo: Option<string>)
    ensures Zip(FilteredNames, [statusCode, supplierId, dateFrom, dateTo]) == [
      Candidate(StatusCode, statusCode), Candidate(SupplierId, supplierId),
      Candidate(DateFrom, dateFrom), Candidate(DateTo, dateTo)]
  {
    var spelled := [
      Candidate(StatusCode, statusCode), Candidate(SupplierId, supplierId),
      Candidate(DateFrom, dateFrom), Candidate(DateTo, dateTo)];
    var z := Zip(FilteredNames, [statusCode, supplierId, dateFrom, dateTo]);
    forall i | 0 <= i < 4 ensures z[i] == spelled[i] {
    }
  }

  /** The candidates are the names paired with the values, position by position. */
  lemma FilteredZip(
    statusCode: Option<string>, supplierId: Option<string>, dateFrom: Option<string>,
    dateTo: Option<string>)
    ensures FilteredCandidates(statusCode, supplierId, dateFrom, dateTo) == Zip(FilteredNames, [statusCode, supplierId, dateFrom, dateTo])
  {
    FilteredSpelled(statusCode, supplierId, dateFrom, dateTo);
    FilteredZipSpelled(statusCode, supplierId, dateFrom, dateTo);
  }

  /** The names `GetFilteredAsync` writes are distinct and plain. */
  lemma FilteredNamesPlain()
    ensures Distinct(FilteredNames) && forall n | n in FilteredNames :: Plain(n)
  {
    IdNamesPlain();
    FilterNamesPlain();
    PagingNamesPlain();
  }

  /**
   * The names `GetFilteredAsync` writes are distinct and plain, so the query reads
   * back as its candidates whenever no value holds an `&`.
   */
  lemma FilteredReadable(
    statusCode: Option<string>, supplierId: Option<string>, dateFrom: Option<string>,
    dateTo: Option<string>)
    requires NoAmpersand(statusCode)
    requires NoAmpersand(supplierId)
    requires NoAmpersand(dateFrom)
    requires NoAmpersand(dateTo)
    ensures Readable(FilteredCandidates(statusCode, supplierId, dateFrom, dateTo))
  {
    FilteredNamesPlain();
    var vs := [statusCode, supplierId, dateFrom, dateTo];
    assert forall v | v in vs :: NoAmpersand(v);
    FilteredZip(statusCode, supplierId, dateFrom, dateTo);
    ReadableZip(FilteredNames, vs);
  }

  /**
   * `GetFilteredAsync`: a GET of the list at `BaseRoute` followed by the
   * query of the filters that are set; with none set, the bare route.
   */
  method GetFilteredAsync(
    statusCode: Option<string>, supplierId: Option<Decimal.Long>, dateFrom: Option<Dates.DateTime>,
    dateTo: Option<Dates.DateTime>)
    returns (call: Call<NoBody>)
    ensures call == GetListAsync(BaseRoute + BuildQuery(FilteredCandidates(
      EscapedValue(statusCode), IdValue(supplierId), DateValue(dateFrom), DateValue(dateTo))))
  {
    // The candidates, spelled out in the order the steps below add them.
    ghost var cs := FilteredCandidates(
      EscapedValue(statusCode), IdValue(supplierId), DateValue(dateFrom), DateValue(dateTo));
    assert cs == [Candidate(StatusCode, EscapedValue(statusCode))] + [Candidate(SupplierId, IdValue(supplierId))] +
      [Candidate(DateFrom, DateValue(dateFrom))] + [Candidate(DateTo, DateValue(dateTo))];
    var queryParams: seq<string> := [];
    queryParams := AddIfNotEmpty(queryParams, StatusCode, statusCode, []);
    ghost var done := [Candidate(StatusCode, EscapedValue(statusCode))];
    queryParams := AddIfHasValue(queryParams, SupplierId, supplierId, done);
    done := done + [Candidate(SupplierId, IdValue(supplierId))];
    queryParams := AddDateIfHasValue(queryParams, DateFrom, dateFrom, done);
    done := done + [Candidate(DateFrom, DateValue(dateFrom))];
    queryParams := AddDateIfHasValue(queryParams, DateTo, dateTo, done);
    done := done + [Candidate(DateTo, DateValue(dateTo))];
    var queryString := JoinQuery(queryParams);
    call := GetListAsync(BaseRoute + queryString);
  }

  /**
   * The query `GetFilteredAsync` writes reads back as its arguments: each name gives
   * its candidate's text, or nothing when the guard left it out, and no other
   * name appears.
   */
  lemma FilteredReadBack(
    statusCode: Option<string>, supplierId: Option<Decimal.Long>, dateFrom: Option<Dates.DateTime>,
    dateTo: Option<Dates.DateTime>, name: string)
    ensures var cs := FilteredCandidates(
              EscapedValue(statusCode), IdValue(supplierId), DateValue(dateFrom), DateValue(dateTo));
      && (name !in Names(cs) ==> QueryValue(BuildQuery(cs), name).None?)
      && (forall i :: 0 <= i < |cs| && cs[i].name == name ==> QueryValue(BuildQuery(cs), name) == cs[i].value)
  {

    FilteredReadable(
      EscapedValue(statusCode), IdValue(supplierId), DateValue(dateFrom), DateValue(dateTo));
    ReadBack(FilteredCandidates(
      EscapedValue(statusCode), IdValue(supplierId), DateValue(dateFrom), DateValue(dateTo)), name);
  }
}
