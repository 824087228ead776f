/** Properties of the controller as a whole, stated over `Handle` for every action,
    every configuration and every behaviour of the collaborators. */
module DispatchProperties {
  import opened Functional
  import opened Permissions
  import opened CrudController

  /** The permission each action asks for: list asks View, get-by-id asks Edit (not
      View), create asks Create, update asks Edit once its ids agree, and both deletes
      ask Delete. */
  lemma PermissionMapping<K, D, Q, P>(c: Settings<Q>, svc: Services<K, D, Q, P>, a: Action<K, D, Q>)
    ensures a.ListRequest? ==> Handle(c, svc, a).trace[0] == HasPermission(c, svc, c.names.view)
    ensures a.GetRequest? ==> Handle(c, svc, a).trace[0] == HasPermission(c, svc, c.names.edit)
    ensures a.PostRequest? ==> Handle(c, svc, a).trace[0] == HasPermission(c, svc, c.names.create)
    ensures a.PutRequest? && !IdMismatch(a) ==>
              Handle(c, svc, a).trace[0] == HasPermission(c, svc, c.names.edit)
    ensures a.DeleteRequest? ==> Handle(c, svc, a).trace[0] == HasPermission(c, svc, c.names.delete)
    ensures a.BulkDeleteRequest? ==> Handle(c, svc, a).trace[0] == HasPermission(c, svc, c.names.delete)
  {
  }

  /** A caller denied the action's permission gets 403 and reaches no service operation;
      the only exception is an update whose ids disagree, which is answered 400 without
      asking at all. */
  lemma DeniedReachesNoService<K, D, Q, P>(c: Settings<Q>, svc: Services<K, D, Q, P>, a: Action<K, D, Q>)
    requires !Allowed(c, svc, RequiredName(c, a))
    ensures NoServiceCall(Handle(c, svc, a).trace)
    ensures !IdMismatch(a) ==> Handle(c, svc, a).response.StatusCode() == 403
    ensures IdMismatch(a) ==> Handle(c, svc, a).response.StatusCode() == 400
  {
  }

  /** Every service call comes after the authorization query for the action's own
      permission, and only when that query succeeded. */
  lemma ServiceOnlyAfterGrant<K, D, Q, P>(c: Settings<Q>, svc: Services<K, D, Q, P>, a: Action<K, D, Q>, i: int)
    requires 0 <= i < |Handle(c, svc, a).trace|
    requires Handle(c, svc, a).trace[i].IsServiceCall()
    ensures 0 < i
    ensures Handle(c, svc, a).trace[0] == HasPermission(c, svc, RequiredName(c, a))
    ensures Allowed(c, svc, RequiredName(c, a))
  {
  }

  /** The single-model delete is issued only by the delete action, right after the lookup
      of the path id, and only on the model that lookup found. */
  lemma DeleteOnlyWhatWasFound<K, D, Q, P>(c: Settings<Q>, svc: Services<K, D, Q, P>, a: Action<K, D, Q>, i: int)
    requires 0 <= i < |Handle(c, svc, a).trace|
    requires Handle(c, svc, a).trace[i].DeleteModel?
    ensures a.DeleteRequest? && i == 2
    ensures Handle(c, svc, a).trace[1] == Find(a.id, svc.find(a.id))
    ensures svc.find(a.id) == Some(Handle(c, svc, a).trace[i].model)
  {
  }

  /** The batch delete is issued only by the bulk-delete action, right after the list
      lookup of the requested ids, and on exactly the list that lookup returned. */
  lemma BulkDeleteOnlyWhatWasListed<K, D, Q, P>(c: Settings<Q>, svc: Services<K, D, Q, P>, a: Action<K, D, Q>, i: int)
    requires 0 <= i < |Handle(c, svc, a).trace|
    requires Handle(c, svc, a).trace[i].DeleteModels?
    ensures a.BulkDeleteRequest? && i == 2
    ensures Handle(c, svc, a).trace[1] == FindList(a.ids, svc.findList(a.ids))
    ensures Handle(c, svc, a).trace[i].models == svc.findList(a.ids)
  {
  }

  /** 404 is answered exactly by the two id lookups, when permitted and the lookup has no value. */
  lemma NotFoundExactly<K, D, Q, P>(c: Settings<Q>, svc: Services<K, D, Q, P>, a: Action<K, D, Q>)
    ensures Handle(c, svc, a).response.StatusCode() == 404 <==>
              (a.GetRequest? || a.DeleteRequest?) && Allowed(c, svc, RequiredName(c, a)) && !svc.find(a.id).HasValue()
  {
  }

  /** Whether the service operation an admitted action ends with reports failure. */
  predicate ServiceFailed<K, D, Q, P>(svc: Services<K, D, Q, P>, a: Action<K, D, Q>) {
    match a
    case ListRequest(_) => false
    case GetRequest(_) => false
    case PostRequest(model) => svc.create(model).Failed()
    case PutRequest(_, model) => svc.edit(model).Failed()
    case DeleteRequest(id) => svc.find(id).HasValue() && svc.deleteModel(svc.find(id).value).Failed()
    case BulkDeleteRequest(ids) => svc.deleteModels(svc.findList(ids)).Failed()
  }

  /** 400 is answered exactly for an update with disagreeing ids, or when a permitted
      action's final service operation failed; in the latter case the response carries
      that failed result. */
  lemma BadRequestExactly<K, D, Q, P>(c: Settings<Q>, svc: Services<K, D, Q, P>, a: Action<K, D, Q>)
    ensures Handle(c, svc, a).response.StatusCode() == 400 <==>
              IdMismatch(a) || (Allowed(c, svc, RequiredName(c, a)) && ServiceFailed(svc, a))
    ensures Handle(c, svc, a).response.StatusCode() == 400 && !IdMismatch(a) ==>
              Handle(c, svc, a).response.errors.HasValue() && Handle(c, svc, a).response.errors.value.Failed()
    ensures a.PostRequest? && Handle(c, svc, a).response.StatusCode() == 400 ==>
              Handle(c, svc, a).response.errors == Some(svc.create(a.model))
    ensures a.PutRequest? && !IdMismatch(a) && Handle(c, svc, a).response.StatusCode() == 400 ==>
              Handle(c, svc, a).response.errors == Some(svc.edit(a.model))
    ensures a.DeleteRequest? && Handle(c, svc, a).response.StatusCode() == 400 ==>
              Handle(c, svc, a).response.errors == Some(svc.deleteModel(svc.find(a.id).value))
    ensures a.BulkDeleteRequest? && Handle(c, svc, a).response.StatusCode() == 400 ==>
              Handle(c, svc, a).response.errors == Some(svc.deleteModels(svc.findList(a.ids)))
  {
  }

  /** The status codes each action declares it may produce. */
  function DeclaredStatusCodes<K, D, Q>(a: Action<K, D, Q>): set<int> {
    match a
    case ListRequest(_) => {200, 403}
    case GetRequest(_) => {200, 403, 404}
    case PostRequest(_) => {201, 400, 403}
    case PutRequest(_, _) => {200, 400, 403}
    case DeleteRequest(_) => {204, 400, 403, 404}
    case BulkDeleteRequest(_) => {204, 400, 403}
  }

  /** Every response is one of the status codes its action declares. */
  lemma StatusIsDeclared<K, D, Q, P>(c: Settings<Q>, svc: Services<K, D, Q, P>, a: Action<K, D, Q>)
    ensures Handle(c, svc, a).response.StatusCode() in DeclaredStatusCodes(a)
  {
  }

  /** The success responses: a permitted list is always 200; a created model is returned
      as submitted; an updated model is returned with the path id; deletes answer 204. */
  lemma SuccessResponses<K, D, Q, P>(c: Settings<Q>, svc: Services<K, D, Q, P>, a: Action<K, D, Q>)
    ensures a.ListRequest? ==>
              (Handle(c, svc, a).response.StatusCode() == 200 <==> Allowed(c, svc, RequiredName(c, a)))
    ensures a.PostRequest? && Handle(c, svc, a).response.StatusCode() == 201 ==>
              Handle(c, svc, a).response == Created(a.model)
    ensures a.PutRequest? && Handle(c, svc, a).response.StatusCode() == 200 ==>
              Handle(c, svc, a).response.model.id == a.id
    ensures (a.DeleteRequest? || a.BulkDeleteRequest?) ==>
              (Handle(c, svc, a).response.StatusCode() == 204 <==>
                 Allowed(c, svc, RequiredName(c, a)) && !ServiceFailed(svc, a)
                 && (a.DeleteRequest? ==> svc.find(a.id).HasValue()))
  {
  }

  /** The policy queried is always the prefix followed by the permission name, so two
      actions ask the same policy exactly when they require the same permission name. */
  lemma SamePolicyIffSameName<K, D, Q, P>(c: Settings<Q>, svc: Services<K, D, Q, P>, a: Action<K, D, Q>, b: Action<K, D, Q>)
    requires !IdMismatch(a) && !IdMismatch(b)
    ensures Handle(c, svc, a).trace[0].policy == Handle(c, svc, b).trace[0].policy <==>
              RequiredName(c, a) == RequiredName(c, b)
  {
  }
}
