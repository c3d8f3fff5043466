/**
 * `AuditLogItem_ApiClient`: a read-only `CrudApiClientBase` client under
 * `api/audit-logs`. It overrides creating, updating and deleting with
 * failures that make no request, and adds lookups by entity and by user.
 */
module AuditLogItemClient {
  import opened Wrappers
  import opened Results
  import opened ApiClientBase
  import CrudApiClientBase
  import Routes
  import Decimal

  const BaseEndpoint := "api/audit-logs"

  const CreateRefused := "Audit logs are system-generated and cannot be created manually."
  const UpdateRefused := "Audit logs are immutable and cannot be modified."
  const DeleteRefused := "Audit logs are permanent records and cannot be deleted."

  /** `Result.Failure(message)`: a failure given only its message. */
  function Refusal<T>(message: string): Result<T> {
    Failure(Positional([TextArg(message)], None, None))
  }

  /**
   * The CRUD operations of the client: reads are those of
   * `CrudApiClientBase` on `BaseEndpoint`; creating, updating and deleting
   * answer with a failure and make no request, whatever the arguments.
   */
  function Crud<D, T>(op: CrudApiClientBase.CrudOp<D>): (s: Step<D, T>)
    ensures s.Answer? <==> op.Create? || op.Update? || op.Delete?
    ensures op.Create? ==> s.result == Refusal(CreateRefused)
    ensures op.Update? ==> s.result == Refusal(UpdateRefused)
    ensures op.Delete? ==> s.result == Refusal(DeleteRefused)
    ensures op.GetAll? ==> s == Send(Call(GET, BaseEndpoint, None, List))
    ensures op.GetById? ==> s.Send? && Routes.ParseMember(BaseEndpoint, s.call.endpoint) == Some((op.id, None))
    ensures op.GetById? || op.GetByCode? ==> s.Send? && s.call.verb == GET && s.call.body.None? && s.call.shape == Single
    ensures op.GetByCode? ==> s.Send? && s.call.endpoint == Routes.Child(BaseEndpoint, "code/" + op.code)
  {
    match op
    case Create(_) => Answer(Refusal(CreateRefused))
    case Update(_, _) => Answer(Refusal(UpdateRefused))
    case Delete(_) => Answer(Refusal(DeleteRefused))
    case _ => Send(CrudApiClientBase.CrudCall(BaseEndpoint, op))
  }

  /** `GetByEntityAsync`: the list at `/entity/{entityType}/{entityId}`. */
  function GetByEntity<B>(entityType: string, entityId: Decimal.Long): (c: Call<B>)
    ensures c.verb == GET && c.body.None? && c.shape == List
    ensures c.endpoint == Routes.Child(BaseEndpoint, "entity/" + entityType + "/" + Decimal.IntToString(entityId))
  {
    GetListAsync(Routes.Child(BaseEndpoint, "entity/" + entityType + "/" + Decimal.IntToString(entityId)))
  }

  /** `GetByUserAsync`: the list at `/user/{userId}`. */
  function GetByUser<B>(userId: string): (c: Call<B>)
    ensures c.verb == GET && c.body.None? && c.shape == List
    ensures c.endpoint == Routes.Child(BaseEndpoint, "user/" + userId)
  {
    GetListAsync(Routes.Child(BaseEndpoint, "user/" + userId))
  }

  /**
   * The lookups by entity, by user and by code never share an endpoint with
   * each other or with a record, whatever their arguments.
   */
  lemma LookupsDistinct<B>(entityType: string, entityId: Decimal.Long, userId: string, code: string, id: Decimal.Long)
    ensures var entity := GetByEntity<B>(entityType, entityId).endpoint;
      var user := GetByUser<B>(userId).endpoint;
      var byCode := Routes.Child(BaseEndpoint, "code/" + code);
      && entity != user && entity != byCode && user != byCode
      && Routes.ParseMember(BaseEndpoint, entity).None?
      && Routes.ParseMember(BaseEndpoint, user).None?
      && entity != Routes.Member(BaseEndpoint, id)
      && user != Routes.Member(BaseEndpoint, id)
  {
    var n := |BaseEndpoint| + 1;
    var entity := GetByEntity<B>(entityType, entityId).endpoint;
    var user := GetByUser<B>(userId).endpoint;
    var byCode := Routes.Child(BaseEndpoint, "code/" + code);
    assert entity[n] == 'e' && user[n] == 'u' && byCode[n] == 'c';
    Routes.WordIsNeitherMemberNorAction(BaseEndpoint, "entity/" + entityType + "/" + Decimal.IntToString(entityId), id, "");
    Routes.WordIsNeitherMemberNorAction(BaseEndpoint, "user/" + userId, id, "");
    Routes.WordIsNotMember(BaseEndpoint, "entity/" + entityType + "/" + Decimal.IntToString(entityId));
    Routes.WordIsNotMember(BaseEndpoint, "user/" + userId);
  }
}
