/**
 * `StockMovement_ApiClient`: the read-only client of stock movements under
 * `api/stock/movements`. Creating, updating and deleting are refused
 * without a request; the rest are lookups, the analytics query, the history
 * endpoint whose verb depends on the filters, and the filtered search,
 * which fills a dictionary of filters.
 */
module StockMovementClient {
  import opened Wrappers
  import opened Results
  import opened ApiClientBase
  import opened QueryStrings
  import opened QueryParams
  import opened QueryNames
  import CrudApiClientBase
  import Text
  import Decimal
  import Dates
  import Routes

  const BaseRoute := "api/stock/movements"
  const Source := "StockMovement_ApiClient"

  const CreateRefused := "Stock movements cannot be created directly. They are created automatically by other stock transactions."
  const UpdateRefused := "Stock movements cannot be updated. They are immutable records created by other stock transactions."
  const DeleteRefused := "Stock movements cannot be deleted. They are immutable audit records."

  /**
   * `Result.Failure(message, ErrorCodes.ValidationError, source: ..., context: new())`:
   * the message and the code by position, this client as source, an empty context.
   */
  function Refusal<T>(message: string): Result<T> {
    Failure(Positional([TextArg(message), CodeArg(ValidationError)], Some(Source), Some(map[])))
  }

  /**
   * `GetByIdAsync` and `GetAllAsync` read as `CrudApiClientBase` does;
   * `CreateAsync`, `UpdateAsync` and `DeleteAsync` answer with a validation
   * failure from this client, with an empty context, and make no request.
   * The client has no by-code lookup.
   */
  function Crud<D, T>(op: CrudApiClientBase.CrudOp<D>): (s: Step<D, T>)
    requires !op.GetByCode?
    ensures s.Answer? <==> op.Create? || op.Update? || op.Delete?
    ensures s.Answer? ==>
      && s.result.Failure? && s.result.error.Positional?
      && |s.result.error.args| == 2 && s.result.error.args[1] == CodeArg(ValidationError)
      && s.result.error.sourceArg == Some(Source) && s.result.error.contextArg == Some(map[])
    ensures op.Create? ==> s.result == Refusal(CreateRefused)
    ensures op.Update? ==> s.result == Refusal(UpdateRefused)
    ensures op.Delete? ==> s.result == Refusal(DeleteRefused)
    ensures op.GetAll? ==> s == Send(Call(GET, BaseRoute, None, List))
    ensures op.GetById? ==> s.call.verb == GET && s.call.body.None? && s.call.shape == Single
    ensures op.GetById? ==> Routes.ParseMember(BaseRoute, s.call.endpoint) == Some((op.id, None))
  {
    match op
    case Create(_) => Answer(Refusal(CreateRefused))
    case Update(_, _) => Answer(Refusal(UpdateRefused))
    case Delete(_) => Answer(Refusal(DeleteRefused))
    case _ => Send(CrudApiClientBase.CrudCall(BaseRoute, op))
  }

  /** `SearchAsync`: the filters POSTed to `/search`, read as a list. */
  function Search<F>(filters: F): (c: Call<F>)
    ensures c.verb == POST && c.body == Some(filters) && c.shape == List
    ensures c.endpoint == Routes.Child(BaseRoute, "search")
  {
    PostListAsync(Routes.Child(BaseRoute, "search"), filters)
  }

  /**
   * `GetByProductAsync`, `GetByStockBinAsync` and `GetByBatchAsync`: the
   * list at `/product/{id}`, `/stock-bin/{id}` or `/batch/{id}`, the id
   * written as given.
   */
  datatype Criterion = Product | StockBin | Batch

  function CriterionSegment(l: Criterion): string {
    match l
    case Product => "product"
    case StockBin => "stock-bin"
    case Batch => "batch"
  }

  function GetByCriterion(l: Criterion, id: string): (c: Call<NoBody>)
    ensures c.verb == GET && c.body.None? && c.shape == List
    ensures c.endpoint == Routes.Child(BaseRoute, CriterionSegment(l) + "/" + id)
    ensures Routes.ParseMember(BaseRoute, c.endpoint).None?
  {
    Routes.WordIsNotMember(BaseRoute, CriterionSegment(l) + "/" + id);
    GetListAsync(Routes.Child(BaseRoute, CriterionSegment(l) + "/" + id))
  }

  /** The two dates of a date-range query, as written. */
  function DateRangeCandidates(fromDate: string, toDate: string): seq<Candidate> {
    [Candidate(FromDate, Some(fromDate)), Candidate(ToDate, Some(toDate))]
  }

  /** Two parameters that are both present make the query `?{n1}={v1}&{n2}={v2}`. */
  lemma TwoPresent(n1: string, v1: string, n2: string, v2: string)
    ensures var parts := RenderAll(Present([Candidate(n1, Some(v1)), Candidate(n2, Some(v2))]));
      && parts == [n1 + "=" + v1, n2 + "=" + v2]
      && Text.Join(parts, '&') == n1 + "=" + v1 + "&" + n2 + "=" + v2
      && BuildQuery([Candidate(n1, Some(v1)), Candidate(n2, Some(v2))]) == "?" + n1 + "=" + v1 + "&" + n2 + "=" + v2
  {
    var cs := [Candidate(n1, Some(v1)), Candidate(n2, Some(v2))];
    assert cs[1..][1..] == [];
    assert Present(cs) == [Param(n1, v1), Param(n2, v2)];
    var parts := RenderAll(Present(cs));
    assert parts[1..] == [n2 + "=" + v2];
  }

  /**
   * `GetByDateRangeAsync`: the list at `/date-range` with the query
   * of `fromDate` and `toDate`, each date written `yyyy-MM-dd`.
   */
  function GetByDateRange(fromDate: Dates.DateTime, toDate: Dates.DateTime): (c: Call<NoBody>)
    ensures c.verb == GET && c.body.None? && c.shape == List
    ensures c.endpoint == Routes.Child(BaseRoute, "date-range") +
      BuildQuery(DateRangeCandidates(Dates.FormatDate(fromDate.date), Dates.FormatDate(toDate.date)))
  {
    var query := DateRangeQuery(Dates.FormatDate(fromDate.date), Dates.FormatDate(toDate.date));
    GetListAsync(Routes.Child(BaseRoute, "date-range") + query)
  }

  /** `fromDate={from}&toDate={to}` after a `?`. */
  function DateRangeQuery(f: string, t: string): (q: string)
    ensures q == BuildQuery(DateRangeCandidates(f, t))
  {
    TwoPresent(FromDate, f, ToDate, t);
    "?" + FromDate + "=" + f + "&" + ToDate + "=" + t
  }

  /** The date-range query reads back as the two calendar dates. */
  lemma DateRangeReadBack(fromDate: Dates.DateTime, toDate: Dates.DateTime)
    ensures var q := BuildQuery(DateRangeCandidates(Dates.FormatDate(fromDate.date), Dates.FormatDate(toDate.date)));
      && QueryValue(q, FromDate).Some? && Dates.ParseDate(QueryValue(q, FromDate).value) == Some(fromDate.date)
      && QueryValue(q, ToDate).Some? && Dates.ParseDate(QueryValue(q, ToDate).value) == Some(toDate.date)
  {
    var f := Dates.FormatDate(fromDate.date);
    var t := Dates.FormatDate(toDate.date);
    var cs := DateRangeCandidates(f, t);
    FilterNamesPlain();
    DateHasNoAmpersand(fromDate.date);
    DateHasNoAmpersand(toDate.date);
    ReadableZip([FromDate, ToDate], [Some(f), Some(t)]);
    assert Zip([FromDate, ToDate], [Some(f), Some(t)]) == cs;
    ReadBack(cs, FromDate);
    ReadBack(cs, ToDate);
    assert cs[0].name == FromDate && cs[1].name == ToDate;
    Dates.ParseFormatDate(fromDate.date);
    Dates.ParseFormatDate(toDate.date);
  }

  /** `GetByEntityAsync`: the list at `/entity/{entityId}/{entityType}`, read back as the id and the type's name. */
  function GetByEntity(entityId: Decimal.Int, entityType: string): (c: Call<NoBody>)
    ensures c.verb == GET && c.body.None? && c.shape == List
    ensures Routes.ParseMember(Routes.Child(BaseRoute, "entity"), c.endpoint) == Some((entityId, Some(entityType)))
  {
    Routes.ParseMemberActionOf(Routes.Child(BaseRoute, "entity"), entityId, entityType);
    GetListAsync(Routes.MemberAction(Routes.Child(BaseRoute, "entity"), entityId, entityType))
  }

  /**
   * `GetHistoryAsync`: the history at `/{id}/history`, POSTing the filters
   * when there are some and a plain GET otherwise; read as a list either way.
   */
  function GetHistory<F>(stockMovementId: Decimal.Long, filters: Option<F>): (c: Call<F>)
    ensures c.verb == (if filters.Some? then POST else GET)
    ensures c.body == filters && c.shape == List
    ensures Routes.ParseMember(BaseRoute, c.endpoint) == Some((stockMovementId, Some("history")))
  {
    Routes.ParseMemberActionOf(BaseRoute, stockMovementId, "history");
    if filters.Some? then PostListAsync(Routes.MemberAction(BaseRoute, stockMovementId, "history"), filters.value)
    else GetListAsync(Routes.MemberAction(BaseRoute, stockMovementId, "history"))
  }

  /**
   * The parameters of the analytics query in order: the two dates always,
   * the product and the stock bin when neither null nor empty.
   */
  function AnalyticsCandidates(fromDate: Option<string>, toDate: Option<string>, productId: Option<string>,
                               stockBinId: Option<string>): seq<Candidate>
  {
    [Candidate(FromDate, fromDate)] + [Candidate(ToDate, toDate)] + [Candidate(ProductId, productId)] +
    [Candidate(StockBinId, stockBinId)]
  }

  /** `if (!string.IsNullOrEmpty(v)) query += $"&{name}={v}"`, on a query that already holds a parameter. */
  method AppendIfNotEmpty(query: string, name: string, v: Option<string>, ghost done: seq<Candidate>)
    returns (next: string)
    requires |Present(done)| > 0 && query == Text.Join(RenderAll(Present(done)), '&')
    ensures |Present(done + [Candidate(name, Text.NonEmpty(v))])| > 0
    ensures next == Text.Join(RenderAll(Present(done + [Candidate(name, Text.NonEmpty(v))])), '&')
  {
    next := query;
    if !Text.IsNullOrEmpty(v) {
      Text.JoinSnoc(RenderAll(Present(done)), name + "=" + v.value, '&');
      next := next + "&" + name + "=" + v.value;
    }
    Emit(done, Candidate(name, Text.NonEmpty(v)));
  }

  /**
   * `GetAnalyticsAsync`: the list at `/analytics`, its query grown one
   * `+=` at a time from the two dates; the product and the stock bin are
   * appended as given, without escaping.
   */
  method GetAnalyticsAsync(fromDate: Dates.DateTime, toDate: Dates.DateTime, productId: Option<string>,
                           stockBinId: Option<string>)
    returns (call: Call<NoBody>)
    ensures call == GetListAsync(Routes.Child(BaseRoute, "analytics") + BuildQuery(AnalyticsCandidates(
      Some(Dates.FormatDate(fromDate.date)), Some(Dates.FormatDate(toDate.date)),
      Text.NonEmpty(productId), Text.NonEmpty(stockBinId))))
  {
    var query := AnalyticsQuery(Dates.FormatDate(fromDate.date), Dates.FormatDate(toDate.date), productId, stockBinId);
    call := GetListAsync(Routes.Child(BaseRoute, "analytics") + ("?" + query));
  }

  /** The analytics query without its `?`, grown from the two formatted dates. */
  method AnalyticsQuery(f: string, t: string, productId: Option<string>, stockBinId: Option<string>)
    returns (query: string)
    ensures BuildQuery(AnalyticsCandidates(Some(f), Some(t), Text.NonEmpty(productId), Text.NonEmpty(stockBinId))) == "?" + query
  {
    ghost var cs := AnalyticsCandidates(Some(f), Some(t), Text.NonEmpty(productId), Text.NonEmpty(stockBinId));
    assert cs == [Candidate(FromDate, Some(f)), Candidate(ToDate, Some(t))] +
      [Candidate(ProductId, Text.NonEmpty(productId))] + [Candidate(StockBinId, Text.NonEmpty(stockBinId))];
    query := FromDate + "=" + f + "&" + ToDate + "=" + t;
    ghost var done := [Candidate(FromDate, Some(f)), Candidate(ToDate, Some(t))];
    TwoPresent(FromDate, f, ToDate, t);
    query := AppendIfNotEmpty(query, ProductId, productId, done);
    done := done + [Candidate(ProductId, Text.NonEmpty(productId))];
    query := AppendIfNotEmpty(query, StockBinId, stockBinId, done);
    done := done + [Candidate(StockBinId, Text.NonEmpty(stockBinId))];
    assert done == cs;
  }

  /**
   * The analytics query reads back as its arguments when the product and
   * the stock bin hold no `&` (they are not escaped): each name gives its
   * candidate's text, or nothing when the product or the stock bin is null
   * or empty, and no other name appears.
   */
  lemma AnalyticsReadBack(fromDate: Dates.DateTime, toDate: Dates.DateTime, productId: Option<string>,
                          stockBinId: Option<string>, name: string)
    requires NoAmpersand(productId) && NoAmpersand(stockBinId)
    ensures var cs := AnalyticsCandidates(
              Some(Dates.FormatDate(fromDate.date)), Some(Dates.FormatDate(toDate.date)),
              Text.NonEmpty(productId), Text.NonEmpty(stockBinId));
      && (name !in Names(cs) ==> QueryValue(BuildQuery(cs), name).None?)
      && (forall i :: 0 <= i < |cs| && cs[i].name == name ==> QueryValue(BuildQuery(cs), name) == cs[i].value)
  {
    var f := Dates.FormatDate(fromDate.date);
    var t := Dates.FormatDate(toDate.date);
    DateHasNoAmpersand(fromDate.date);
    DateHasNoAmpersand(toDate.date);
    var vs := [Some(f), Some(t), Text.NonEmpty(productId), Text.NonEmpty(stockBinId)];
    var ns := [FromDate, ToDate, ProductId, StockBinId];
    IdNamesPlain();
    FilterNamesPlain();
    ReadableZip(ns, vs);
    assert Zip(ns, vs) == AnalyticsCandidates(vs[0], vs[1], vs[2], vs[3]);
    ReadBack(Zip(ns, vs), name);
  }

  /** A value put in the search filters, boxed as `object`. */
  datatype FilterValue = LongValue(l: int) | IntValue(i: int) | DateTimeValue(d: Dates.DateTime)

  /** One filter `GetWithFiltersAsync` may add: its key, and its value when it has one. */
  datatype Entry = Entry(key: string, value: Option<FilterValue>)

  /** A `Dictionary<string, object>`, as its entries in the order they were added. */
  type Filters = seq<(string, FilterValue)>

  function Keys(fs: Filters): (ks: seq<string>)
    ensures |ks| == |fs|
    ensures forall i :: 0 <= i < |fs| ==> ks[i] == fs[i].0
  {
    seq(|fs|, i requires 0 <= i < |fs| => fs[i].0)
  }

  function EntryKeys(es: seq<Entry>): (ks: seq<string>)
    ensures |ks| == |es|
    ensures forall i :: 0 <= i < |es| ==> ks[i] == es[i].key
  {
    seq(|es|, i requires 0 <= i < |es| => es[i].key)
  }

  /** The value the dictionary holds for a key. */
  function Get(fs: Filters, key: string): Option<FilterValue>
    decreases |fs|
  {
    if |fs| == 0 then None
    else if fs[0].0 == key then Some(fs[0].1)
    else Get(fs[1..], key)
  }

  /** The entries that have a value, in order. */
  function Collect(es: seq<Entry>): (fs: Filters)
    decreases |es|
  {
    if |es| == 0 then []
    else (if es[0].value.Some? then [(es[0].key, es[0].value.value)] else []) + Collect(es[1..])
  }

  lemma {:induction false} CollectAppend(a: seq<Entry>, b: seq<Entry>)
    ensures Collect(a + b) == Collect(a) + Collect(b)
    decreases |a|
  {
    if |a| == 0 {
      assert a + b == b;
    } else {
      var head := if a[0].value.Some? then [(a[0].key, a[0].value.value)] else [];
      assert (a + b)[0] == a[0];
      assert (a + b)[1..] == a[1..] + b;
      CollectAppend(a[1..], b);
      calc {
        Collect(a + b);
        head + Collect(a[1..] + b);
        head + (Collect(a[1..]) + Collect(b));
        (head + Collect(a[1..])) + Collect(b);
        Collect(a) + Collect(b);
      }
    }
  }

  /** The dictionary holds only keys of entries it was given. */
  lemma {:induction false} CollectKeys(es: seq<Entry>, key: string)
    requires key !in EntryKeys(es)
    ensures key !in Keys(Collect(es))
    decreases |es|
  {
    if |es| > 0 {
      assert EntryKeys(es[1..]) == EntryKeys(es)[1..];
      CollectKeys(es[1..], key);
      var head := if es[0].value.Some? then [(es[0].key, es[0].value.value)] else [];
      assert Keys(Collect(es)) == Keys(head) + Keys(Collect(es[1..]));
    }
  }

  lemma GetSkip(head: Filters, rest: Filters, key: string)
    requires |head| <= 1 && forall i :: 0 <= i < |head| ==> head[i].0 != key
    ensures Get(head + rest, key) == Get(rest, key)
  {
    if |head| == 1 {
      assert (head + rest)[1..] == rest;
    } else {
      assert head + rest == rest;
    }
  }

  /**
   * With distinct keys, the dictionary holds for each key of an entry
   * exactly that entry's value (nothing when it has none) and holds no
   * other key.
   */
  lemma {:induction false} GetCollect(es: seq<Entry>, key: string)
    requires Distinct(EntryKeys(es))
    ensures key !in EntryKeys(es) ==> Get(Collect(es), key).None?
    ensures forall i :: 0 <= i < |es| && es[i].key == key ==> Get(Collect(es), key) == es[i].value
    decreases |es|
  {
    if |es| > 0 {
      assert EntryKeys(es[1..]) == EntryKeys(es)[1..];
      GetCollect(es[1..], key);
      var head := if es[0].value.Some? then [(es[0].key, es[0].value.value)] else [];
      if es[0].key != key {
        GetSkip(head, Collect(es[1..]), key);
      } else {
        forall j | 0 <= j < |es| - 1 ensures EntryKeys(es[1..])[j] != key {
          assert EntryKeys(es)[0] != EntryKeys(es)[j + 1];
        }
        if es[0].value.None? {
          assert head + Collect(es[1..]) == Collect(es[1..]);
        }
      }
    }
  }

  function LongEntry(key: string, v: Option<Decimal.Long>): (e: Entry)
    ensures e.key == key && (e.value.Some? <==> v.Some?)
  {
    Entry(key, if v.Some? then Some(LongValue(v.value)) else None)
  }

  function DateEntry(key: string, v: Option<Dates.DateTime>): (e: Entry)
    ensures e.key == key && (e.value.Some? <==> v.Some?)
  {
    Entry(key, if v.Some? then Some(DateTimeValue(v.value)) else None)
  }

  /** The filters `GetWithFiltersAsync` may add, in the order it adds them. */
  function SearchEntries(productId: Option<Decimal.Long>, warehouseId: Option<Decimal.Long>,
                         locationId: Option<Decimal.Long>, siteId: Option<Decimal.Long>,
                         dateFrom: Option<Dates.DateTime>, dateTo: Option<Dates.DateTime>,
                         page: int, pageSize: int): seq<Entry>
  {
    [LongEntry("ProductId", productId)] + [LongEntry("WarehouseId", warehouseId)] +
    [LongEntry("LocationId", locationId)] + [LongEntry("SiteId", siteId)] +
    [DateEntry("DateFrom", dateFrom)] + [DateEntry("DateTo", dateTo)] +
    [Entry("Page", Some(IntValue(page)))] + [Entry("PageSize", Some(IntValue(pageSize)))]
  }

  /**
   * `if (v.HasValue) filters.Add(key, v.Value)`, and the unconditional
   * `filters.Add(key, v)`: `Add` throws on a key that is already there,
   * so each step first shows the key is new.
   */
  method AddFilter(filters: Filters, e: Entry, ghost done: seq<Entry>) returns (next: Filters)
    requires filters == Collect(done) && e.key !in EntryKeys(done)
    ensures next == Collect(done + [e])
  {
    next := filters;
    if e.value.Some? {
      CollectKeys(done, e.key);
      assert e.key !in Keys(filters);
      next := next + [(e.key, e.value.value)];
    }
    CollectAppend(done, [e]);
    assert [e][1..] == [];
  }

  /**
   * `GetWithFiltersAsync`: fills the filters one `Add` at a time, each
   * optional value only when it has one, `Page` and `PageSize` always, and
   * POSTs them to the search endpoint; no `Add` ever meets a key twice.
   */
  method GetWithFiltersAsync(productId: Option<Decimal.Long>, warehouseId: Option<Decimal.Long>,
                             locationId: Option<Decimal.Long>, siteId: Option<Decimal.Long>,
                             dateFrom: Option<Dates.DateTime>, dateTo: Option<Dates.DateTime>,
                             page: int, pageSize: int)
    returns (call: Call<Filters>)
    ensures call == Search(Collect(SearchEntries(productId, warehouseId, locationId, siteId, dateFrom, dateTo, page, pageSize)))
  {
    var e0, e1, e2, e3 := LongEntry("ProductId", productId), LongEntry("WarehouseId", warehouseId),
                          LongEntry("LocationId", locationId), LongEntry("SiteId", siteId);
    var e4, e5 := DateEntry("DateFrom", dateFrom), DateEntry("DateTo", dateTo);
    var e6, e7 := Entry("Page", Some(IntValue(page))), Entry("PageSize", Some(IntValue(pageSize)));
    assert SearchEntries(productId, warehouseId, locationId, siteId, dateFrom, dateTo, page, pageSize)
      == [e0, e1, e2, e3, e4, e5] + [e6] + [e7];
    var filters: Filters := [];
    filters := AddFilter(filters, e0, []);
    ghost var done := [e0];
    filters := AddFilter(filters, e1, done);
    done := done + [e1];
    filters := AddFilter(filters, e2, done);
    done := done + [e2];
    filters := AddFilter(filters, e3, done);
    done := done + [e3];
    filters := AddFilter(filters, e4, done);
    done := done + [e4];
    filters := AddFilter(filters, e5, done);
    done := done + [e5];
    filters := AddFilter(filters, e6, done);
    done := done + [e6];
    filters := AddFilter(filters, e7, done);
    assert done + [e7] == [e0, e1, e2, e3, e4, e5] + [e6] + [e7];
    var searchResult := Search(filters);
    call := searchResult;
  }

  const SearchKeys := ["ProductId", "WarehouseId", "LocationId", "SiteId", "DateFrom", "DateTo", "Page", "PageSize"]

  /** The eight keys are distinct. */
  lemma SearchKeysDistinct(es: seq<Entry>)
    requires EntryKeys(es) == SearchKeys
    ensures Distinct(EntryKeys(es))
  {
  }

  /** With distinct keys, the dictionary holds each entry's value under its key. */
  lemma GetCollectAt(es: seq<Entry>, i: nat)
    requires Distinct(EntryKeys(es)) && i < |es|
    ensures Get(Collect(es), es[i].key) == es[i].value
  {
    GetCollect(es, es[i].key);
  }

  /**
   * The search filters hold each optional value under its key exactly when
   * it has one, and `Page` and `PageSize` always.
   */
  lemma SearchFiltersValues(productId: Option<Decimal.Long>, warehouseId: Option<Decimal.Long>,
                            locationId: Option<Decimal.Long>, siteId: Option<Decimal.Long>,
                            dateFrom: Option<Dates.DateTime>, dateTo: Option<Dates.DateTime>,
                            page: int, pageSize: int)
    ensures var fs := Collect(SearchEntries(productId, warehouseId, locationId, siteId, dateFrom, dateTo, page, pageSize));
      && Get(fs, "ProductId") == (if productId.Some? then Some(LongValue(productId.value)) else None)
      && Get(fs, "WarehouseId") == (if warehouseId.Some? then Some(LongValue(warehouseId.value)) else None)
      && Get(fs, "LocationId") == (if locationId.Some? then Some(LongValue(locationId.value)) else None)
      && Get(fs, "SiteId") == (if siteId.Some? then Some(LongValue(siteId.value)) else None)
      && Get(fs, "DateFrom") == (if dateFrom.Some? then Some(DateTimeValue(dateFrom.value)) else None)
      && Get(fs, "DateTo") == (if dateTo.Some? then Some(DateTimeValue(dateTo.value)) else None)
      && Get(fs, "Page") == Some(IntValue(page))
      && Get(fs, "PageSize") == Some(IntValue(pageSize))
  {
    var es := SearchEntries(productId, warehouseId, locationId, siteId, dateFrom, dateTo, page, pageSize);
    assert EntryKeys(es) == SearchKeys;
    SearchKeysDistinct(es);
    GetCollectAt(es, 0);
    GetCollectAt(es, 1);
    GetCollectAt(es, 2);
    GetCollectAt(es, 3);
    GetCollectAt(es, 4);
    GetCollectAt(es, 5);
    GetCollectAt(es, 6);
    GetCollectAt(es, 7);
  }

  /** The search filters hold no key but the eight. */
  lemma SearchFiltersOnly(productId: Option<Decimal.Long>, warehouseId: Option<Decimal.Long>,
                          locationId: Option<Decimal.Long>, siteId: Option<Decimal.Long>,
                          dateFrom: Option<Dates.DateTime>, dateTo: Option<Dates.DateTime>,
                          page: int, pageSize: int, key: string)
    requires key !in SearchKeys
    ensures Get(Collect(SearchEntries(productId, warehouseId, locationId, siteId, dateFrom, dateTo, page, pageSize)), key).None?
  {
    var es := SearchEntries(productId, warehouseId, locationId, siteId, dateFrom, dateTo, page, pageSize);
    assert EntryKeys(es) == SearchKeys;
    SearchKeysDistinct(es);
    GetCollect(es, key);
  }
}
