/**
 * The routes the transaction clients share under their `BaseRoute`:
 * collection actions (`/bulk`, `/workflow-status`, `/validate`), workflow
 * transitions (`/{id}/{action}`) and workflow history.
 */
module TransactionRoutes {
  import opened Wrappers
  import opened ApiClientBase
  import Routes
  import Decimal

  /** `BulkDeleteAsync`: DELETE with the id list as body, read as one result. */
  function BulkDelete<B>(route: string, ids: B): (c: Call<B>)
    ensures c.verb == DELETE && c.body == Some(ids) && c.shape == Single
    ensures c.endpoint == Routes.Child(route, "bulk")
  {
    DeleteWithBodyAsync(Routes.Child(route, "bulk"), ids)
  }

  /** `ChangeWorkflowStatusAsync`: POST of the request to `/workflow-status`. */
  function ChangeWorkflowStatus<B>(route: string, request: B): (c: Call<B>)
    ensures c.verb == POST && c.body == Some(request) && c.shape == Single
    ensures c.endpoint == Routes.Child(route, "workflow-status")
  {
    PostAsync(Routes.Child(route, "workflow-status"), request)
  }

  /** `ValidateAsync`: POST of the edit DTO to `/validate`. */
  function Validate<B>(route: string, dto: B): (c: Call<B>)
    ensures c.verb == POST && c.body == Some(dto) && c.shape == Single
    ensures c.endpoint == Routes.Child(route, "validate")
  {
    PostAsync(Routes.Child(route, "validate"), dto)
  }

  /** A workflow transition: POST of the request to `/{id}/{action}`. */
  function Transition<B>(route: string, id: Decimal.Long, action: string, request: B): (c: Call<B>)
    ensures c.verb == POST && c.body == Some(request) && c.shape == Single
    ensures Routes.ParseMember(route, c.endpoint) == Some((id, Some(action)))
  {
    Routes.ParseMemberActionOf(route, id, action);
    PostAsync(Routes.MemberAction(route, id, action), request)
  }

  /**
   * `GetWorkflowHistoryAsync`: the list at `/{id}/workflow-history`
   * (`Map(items => items.ToList())` keeps the items as they are).
   */
  function WorkflowHistory<B>(route: string, id: Decimal.Long): (c: Call<B>)
    ensures c.verb == GET && c.body.None? && c.shape == List
    ensures Routes.ParseMember(route, c.endpoint) == Some((id, Some("workflow-history")))
  {
    Routes.ParseMemberActionOf(route, id, "workflow-history");
    GetListAsync(Routes.MemberAction(route, id, "workflow-history"))
  }

  /**
   * The collection actions address three different endpoints, none of which
   * is a record's endpoint or one of its transition or history endpoints.
   */
  lemma CollectionRoutes<B>(route: string, id: Decimal.Long, action: string, body: B)
    ensures var bulk := BulkDelete(route, body).endpoint;
      var status := ChangeWorkflowStatus(route, body).endpoint;
      var validate := Validate(route, body).endpoint;
      && bulk != status && bulk != validate && status != validate
      && Routes.ParseMember(route, bulk).None?
      && Routes.ParseMember(route, status).None?
      && Routes.ParseMember(route, validate).None?
      && Transition(route, id, action, body).endpoint !in {bulk, status, validate}
      && WorkflowHistory<B>(route, id).endpoint !in {bulk, status, validate}
  {
    Routes.WordIsNotMember(route, "bulk");
    Routes.WordIsNotMember(route, "workflow-status");
    Routes.WordIsNotMember(route, "validate");
    var n := |route| + 1;
    assert Routes.Child(route, "bulk")[n..] == "bulk";
    assert Routes.Child(route, "workflow-status")[n..] == "workflow-status";
    assert Routes.Child(route, "validate")[n..] == "validate";
  }
}
