/**
 * `CrudApiClientBase`: the standard operations of a client over one
 * resource, each a single call of the executor on `BaseEndpoint` or on
 * `BaseEndpoint/{id}`, and `GetTestDataAsync`, which filters what the
 * (overridable) `GetAllAsync` lists.
 */
module CrudApiClientBase {
  import opened Wrappers
  import opened Results
  import opened ApiClientBase
  import Routes
  import Decimal

  /** `GetAllAsync`, `GetByIdAsync`, `GetByCodeAsync`, `CreateAsync`, `UpdateAsync` and `DeleteAsync`. */
  datatype CrudOp<D> =
    | GetAll
    | GetById(id: Decimal.Long)
    | GetByCode(code: string)
    | Create(dto: D)
    | Update(id: Decimal.Long, dto: D)
    | Delete(id: Decimal.Long)

  /** A record operation: one that addresses `BaseEndpoint/{id}`. */
  predicate OnRecord<D>(op: CrudOp<D>) {
    op.GetById? || op.Update? || op.Delete?
  }

  /**
   * The call each operation makes. Record operations address the endpoint
   * that reads back as their id; `GetAllAsync` and `CreateAsync` address the
   * collection; `GetByCodeAsync` puts the code, unescaped, after `/code/`,
   * an endpoint that never reads back as a record.
   */
  function CrudCall<D>(baseEndpoint: string, op: CrudOp<D>): (c: Call<D>)
    ensures OnRecord(op) ==> Routes.ParseMember(baseEndpoint, c.endpoint) == Some((op.id, None))
    ensures op.GetAll? ==> c == Call(GET, baseEndpoint, None, List)
    ensures op.GetById? ==> c.verb == GET && c.body.None? && c.shape == Single
    ensures op.GetByCode? ==> c.verb == GET && c.body.None? && c.shape == Single
    ensures op.GetByCode? ==> c.endpoint == Routes.Child(baseEndpoint, "code/" + op.code)
    ensures op.GetByCode? ==> Routes.ParseMember(baseEndpoint, c.endpoint).None?
    ensures op.Create? ==> c == Call(POST, baseEndpoint, Some(op.dto), Single)
    ensures op.Update? ==> c.verb == PUT && c.body == Some(op.dto) && c.shape == Single
    ensures op.Delete? ==> c.verb == DELETE && c.body.None? && c.shape == NoContent
  {
    match op
    case GetAll => GetListAsync(baseEndpoint)
    case GetById(id) =>
      Routes.ParseMemberOf(baseEndpoint, id);
      GetAsync(Routes.Member(baseEndpoint, id))
    case GetByCode(code) =>
      Routes.WordIsNotMember(baseEndpoint, "code/" + code);
      GetAsync(Routes.Child(baseEndpoint, "code/" + code))
    case Create(dto) => PostAsync(baseEndpoint, dto)
    case Update(id, dto) =>
      Routes.ParseMemberOf(baseEndpoint, id);
      PutAsync(Routes.Member(baseEndpoint, id), dto)
    case Delete(id) =>
      Routes.ParseMemberOf(baseEndpoint, id);
      DeleteAsync(Routes.Member(baseEndpoint, id))
  }

  /**
   * Reading, updating and deleting a record address one endpoint, which
   * differs for different ids and differs from the collection's and from
   * every by-code endpoint.
   */
  lemma RecordEndpoints<D>(baseEndpoint: string, id: Decimal.Long, other: Decimal.Long, code: string, dto: D)
    ensures var e := CrudCall<D>(baseEndpoint, GetById(id)).endpoint;
      && e == CrudCall<D>(baseEndpoint, Update(id, dto)).endpoint
      && e == CrudCall<D>(baseEndpoint, Delete(id)).endpoint
      && (e == CrudCall<D>(baseEndpoint, GetById(other)).endpoint <==> id == other)
      && e != CrudCall<D>(baseEndpoint, GetByCode(code)).endpoint
      && e != CrudCall<D>(baseEndpoint, GetAll).endpoint
  {
    var e := CrudCall<D>(baseEndpoint, GetById(id)).endpoint;
    var u := CrudCall<D>(baseEndpoint, Update(id, dto)).endpoint;
    var d := CrudCall<D>(baseEndpoint, Delete(id)).endpoint;
    Routes.RoutesDistinct(baseEndpoint, id, "", other, "");
    assert e == Routes.Member(baseEndpoint, id);
    assert u == Routes.Member(baseEndpoint, id);
    assert d == Routes.Member(baseEndpoint, id);
    assert CrudCall<D>(baseEndpoint, GetById(other)).endpoint == Routes.Member(baseEndpoint, other);
    assert |e| > |baseEndpoint|;
  }

  /**
   * `GetTestDataAsync`, given what `GetAllAsync` returned (the subclass's
   * override when there is one): its failure passed on by code and message,
   * or its items filtered by `FilterTestData`.
   */
  function GetTestData<T>(all: ExecResult<seq<T>>, select: T -> Option<string>, prefix: string): (r: Result<seq<T>>)
    ensures r.Success? <==> all.Success?
    ensures all.Failure? ==> r.error == Positional([CodeArg(all.error.code), TextArg(all.error.message)], None, None)
    ensures r.Success? ==> |r.value| <= |all.value|
    ensures r.Success? ==> forall i :: 0 <= i < |r.value| ==> Marked(select, prefix, r.value[i])
  {
    if all.Failure? then Propagate(all)
    else Success(FilterTestData(Some(all.value), select, prefix))
  }

  /**
   * On success, `GetTestDataAsync` keeps every test item as often as it was
   * listed, drops every other item, and keeps the listed order: the items
   * listed in two runs are filtered run by run.
   */
  lemma GetTestDataKeepsTestItems<T>(items: seq<T>, more: seq<T>, select: T -> Option<string>, prefix: string, x: T)
    ensures var r := GetTestData(Success(items), select, prefix);
      && r.Success?
      && (Marked(select, prefix, x) ==> multiset(r.value)[x] == multiset(items)[x])
      && (!Marked(select, prefix, x) ==> x !in r.value)
      && GetTestData(Success(items + more), select, prefix).value
         == r.value + GetTestData(Success(more), select, prefix).value
  {
    FilterKeepsMarked(items, select, prefix, x);
    FilterAppend(items, more, select, prefix);
  }
}
