/** The generic CRUD controller: each HTTP action checks a named permission, calls the
    CRUD service, and translates the outcome into a response. Collaborators are
    uninterpreted functions; every action returns its response together with the trace
    of the calls it made, in order. */
module CrudController {
  import opened Functional
  import opened Permissions

  /** A master model: the write shape, keyed by `id`; `data` stands for all its other fields. */
  datatype Model<K, D> = Model(id: K, data: D)

  /** One call to a collaborator. Lookups record the answer they got, because later
      steps of the same action act on it. */
  datatype Call<K, D, Q> =
    | Authorize(policy: string, granted: bool)
    | ReadPagedList(request: Q)
    | Find(id: K, found: Maybe<Model<K, D>>)
    | FindList(ids: seq<K>, models: seq<Model<K, D>>)
    | CreateModel(model: Model<K, D>)
    | EditModel(model: Model<K, D>)
    | DeleteModel(model: Model<K, D>)
    | DeleteModels(models: seq<Model<K, D>>)
  {
    /** Every call except the authorization query goes to the CRUD service. */
    predicate IsServiceCall() {
      !Authorize?
    }
  }

  /** The collaborators: the authorization service reduced to a verdict per policy name,
      and the CRUD service operations (paged read, find, find-list, create, edit,
      delete one, delete many) as uninterpreted functions. */
  datatype Services<!K, !D, !Q, P> = Services(
    authorize: string -> bool,
    readPagedList: Q -> P,
    find: K -> Maybe<Model<K, D>>,
    findList: seq<K> -> seq<Model<K, D>>,
    create: Model<K, D> -> Result,
    edit: Model<K, D> -> Result,
    deleteModel: Model<K, D> -> Result,
    deleteModels: seq<Model<K, D>> -> Result)

  /** What a concrete controller fixes: the policy prefix, its four permission names,
      and the default-constructed paged request used when none is bound. */
  datatype Settings<Q> = Settings(policyPrefix: string, names: PermissionNames, defaultRequest: Q)

  /** The responses the controller produces. `BadRequest` carries the failed result,
      or nothing when the update's ids disagree. */
  datatype Response<K, D, P> =
    | OkPage(page: P)
    | OkModel(model: Model<K, D>)
    | Created(model: Model<K, D>)
    | NoContent
    | BadRequest(errors: Maybe<Result>)
    | Forbidden
    | NotFound
  {
    function StatusCode(): int {
      match this
      case OkPage(_) => 200
      case OkModel(_) => 200
      case Created(_) => 201
      case NoContent => 204
      case BadRequest(_) => 400
      case Forbidden => 403
      case NotFound => 404
    }
  }

  datatype Outcome<K, D, Q, P> = Outcome(response: Response<K, D, P>, trace: seq<Call<K, D, Q>>)

  /** The six actions, with the values bound from the route, query and body. A list
      request that binds to null is `None`. */
  datatype Action<K, D, Q> =
    | ListRequest(query: Maybe<Q>)
    | GetRequest(id: K)
    | PostRequest(model: Model<K, D>)
    | PutRequest(id: K, model: Model<K, D>)
    | DeleteRequest(id: K)
    | BulkDeleteRequest(ids: seq<K>)

  /** The result of the derived batch delete together with the two calls it makes. */
  datatype Deletion<K, D, Q> = Deletion(result: Result, calls: seq<Call<K, D, Q>>)

  predicate NoServiceCall<K, D, Q>(trace: seq<Call<K, D, Q>>) {
    forall i :: 0 <= i < |trace| ==> !trace[i].IsServiceCall()
  }

  function Policy<Q>(c: Settings<Q>, permissionName: string): string {
    PolicyName(c.policyPrefix, permissionName)
  }

  predicate Allowed<K, D, Q, P>(c: Settings<Q>, svc: Services<K, D, Q, P>, permissionName: string) {
    svc.authorize(Policy(c, permissionName))
  }

  /** The permission each action requires. */
  function RequiredPermission<K, D, Q>(a: Action<K, D, Q>): Permission {
    match a
    case ListRequest(_) => ViewPermission
    case GetRequest(_) => EditPermission
    case PostRequest(_) => CreatePermission
    case PutRequest(_, _) => EditPermission
    case DeleteRequest(_) => DeletePermission
    case BulkDeleteRequest(_) => DeletePermission
  }

  /** The name of the permission the action is guarded by, in a given controller. */
  function RequiredName<K, D, Q>(c: Settings<Q>, a: Action<K, D, Q>): string {
    NameOf(c.names, RequiredPermission(a))
  }

  /** The only case in which an action answers before asking for permission. */
  predicate IdMismatch<K(==), D, Q>(a: Action<K, D, Q>) {
    a.PutRequest? && a.model.id != a.id
  }

  /** `HasPermission`: one query to the authorization service for the prefixed policy. */
  function HasPermission<K, D, Q, P>(c: Settings<Q>, svc: Services<K, D, Q, P>, permissionName: string)
    : (call: Call<K, D, Q>)
    ensures call.Authorize? && call.granted == Allowed(c, svc, permissionName)
    ensures |call.policy| == |c.policyPrefix| + |permissionName|
    ensures call.policy[..|c.policyPrefix|] == c.policyPrefix
    ensures call.policy[|c.policyPrefix|..] == permissionName
  {
    Authorize(Policy(c, permissionName), Allowed(c, svc, permissionName))
  }

  /** `Get(request)`: the paged list. */
  function GetList<K, D, Q, P>(c: Settings<Q>, svc: Services<K, D, Q, P>, request: Maybe<Q>)
    : (o: Outcome<K, D, Q, P>)
    ensures |o.trace| >= 1 && o.trace[0] == HasPermission(c, svc, c.names.view)
    ensures o.response.Forbidden? <==> !Allowed(c, svc, c.names.view)
    ensures !Allowed(c, svc, c.names.view) ==> |o.trace| == 1
    ensures Allowed(c, svc, c.names.view) ==>
              var q := if request.HasValue() then request.value else c.defaultRequest;
              && o.response.StatusCode() == 200
              && o.response.OkPage?
              && o.response.page == svc.readPagedList(q)
              && o.trace[1..] == [ReadPagedList(q)]
  {
    var auth := HasPermission(c, svc, c.names.view);
    if !auth.granted then
      Outcome(Forbidden, [auth])
    else
      var q := if request.HasValue() then request.value else c.defaultRequest;
      Outcome(OkPage(svc.readPagedList(q)), [auth, ReadPagedList(q)])
  }

  /** `Get(id)`: one model, guarded by the edit permission. */
  function GetById<K, D, Q, P>(c: Settings<Q>, svc: Services<K, D, Q, P>, id: K)
    : (o: Outcome<K, D, Q, P>)
    ensures |o.trace| >= 1 && o.trace[0] == HasPermission(c, svc, c.names.edit)
    ensures o.response.Forbidden? <==> !Allowed(c, svc, c.names.edit)
    ensures !Allowed(c, svc, c.names.edit) ==> |o.trace| == 1
    ensures Allowed(c, svc, c.names.edit) ==> o.trace[1..] == [Find(id, svc.find(id))]
    ensures o.response.NotFound? <==> Allowed(c, svc, c.names.edit) && !svc.find(id).HasValue()
    ensures o.response.OkModel? <==> Allowed(c, svc, c.names.edit) && svc.find(id).HasValue()
    ensures o.response.OkModel? ==> svc.find(id) == Some(o.response.model)
  {
    var auth := HasPermission(c, svc, c.names.edit);
    if !auth.granted then
      Outcome(Forbidden, [auth])
    else
      var found := svc.find(id);
      if !found.HasValue() then
        Outcome(NotFound, [auth, Find(id, found)])
      else
        Outcome(OkModel(found.value), [auth, Find(id, found)])
  }

  /** `Post(model)`: create. */
  function Post<K, D, Q, P>(c: Settings<Q>, svc: Services<K, D, Q, P>, model: Model<K, D>)
    : (o: Outcome<K, D, Q, P>)
    ensures |o.trace| >= 1 && o.trace[0] == HasPermission(c, svc, c.names.create)
    ensures o.response.Forbidden? <==> !Allowed(c, svc, c.names.create)
    ensures !Allowed(c, svc, c.names.create) ==> |o.trace| == 1
    ensures Allowed(c, svc, c.names.create) ==> o.trace[1..] == [CreateModel(model)]
    ensures o.response.Created? <==> Allowed(c, svc, c.names.create) && !svc.create(model).Failed()
    ensures o.response.Created? ==> o.response.model == model
    ensures o.response.BadRequest? <==> Allowed(c, svc, c.names.create) && svc.create(model).Failed()
    ensures o.response.BadRequest? ==> o.response.errors == Some(svc.create(model))
  {
    var auth := HasPermission(c, svc, c.names.create);
    if !auth.granted then
      Outcome(Forbidden, [auth])
    else
      var result := svc.create(model);
      Outcome(if !result.Failed() then Created(model) else BadRequest(Some(result)), [auth, CreateModel(model)])
  }

  /** `Put(id, model)`: update; the id check comes before everything else. */
  function Put<K(==), D, Q, P>(c: Settings<Q>, svc: Services<K, D, Q, P>, id: K, model: Model<K, D>)
    : (o: Outcome<K, D, Q, P>)
    ensures model.id != id ==> o.response == BadRequest(None) && o.trace == []
    ensures model.id == id ==> |o.trace| >= 1 && o.trace[0] == HasPermission(c, svc, c.names.edit)
    ensures o.response.Forbidden? <==> model.id == id && !Allowed(c, svc, c.names.edit)
    ensures model.id == id && !Allowed(c, svc, c.names.edit) ==> |o.trace| == 1
    ensures model.id == id && Allowed(c, svc, c.names.edit) ==>
              |o.trace| == 2 && o.trace[1].EditModel? && o.trace[1].model.id == id
              && o.trace[1].model.data == model.data
    ensures o.response.OkModel? <==>
              model.id == id && Allowed(c, svc, c.names.edit) && !svc.edit(model).Failed()
    ensures o.response.OkModel? ==> o.response.model.id == id && o.response.model.data == model.data
    ensures o.response.BadRequest? <==>
              model.id != id || (Allowed(c, svc, c.names.edit) && svc.edit(model).Failed())
    ensures o.response.BadRequest? && model.id == id ==> o.response.errors == Some(svc.edit(model))
  {
    if model.id != id then
      Outcome(BadRequest(None), [])
    else
      var auth := HasPermission(c, svc, c.names.edit);
      if !auth.granted then
        Outcome(Forbidden, [auth])
      else
        var updated := model.(id := id);
        var result := svc.edit(updated);
        Outcome(if !result.Failed() then OkModel(updated) else BadRequest(Some(result)),
                [auth, EditModel(updated)])
  }

  /** `Delete(id)`: look the model up, and delete it only if it was found. */
  function Delete<K, D, Q, P>(c: Settings<Q>, svc: Services<K, D, Q, P>, id: K)
    : (o: Outcome<K, D, Q, P>)
    ensures |o.trace| >= 1 && o.trace[0] == HasPermission(c, svc, c.names.delete)
    ensures o.response.Forbidden? <==> !Allowed(c, svc, c.names.delete)
    ensures !Allowed(c, svc, c.names.delete) ==> |o.trace| == 1
    ensures o.response.NotFound? <==> Allowed(c, svc, c.names.delete) && !svc.find(id).HasValue()
    ensures !svc.find(id).HasValue() ==> forall i :: 0 <= i < |o.trace| ==> !o.trace[i].DeleteModel?
    ensures Allowed(c, svc, c.names.delete) && !svc.find(id).HasValue() ==>
              o.trace[1..] == [Find(id, svc.find(id))]
    ensures Allowed(c, svc, c.names.delete) && svc.find(id).HasValue() ==>
              o.trace[1..] == [Find(id, svc.find(id)), DeleteModel(svc.find(id).value)]
    ensures o.response.NoContent? <==>
              Allowed(c, svc, c.names.delete) && svc.find(id).HasValue()
              && !svc.deleteModel(svc.find(id).value).Failed()
    ensures o.response.BadRequest? <==>
              Allowed(c, svc, c.names.delete) && svc.find(id).HasValue()
              && svc.deleteModel(svc.find(id).value).Failed()
    ensures o.response.BadRequest? ==> o.response.errors == Some(svc.deleteModel(svc.find(id).value))
  {
    var auth := HasPermission(c, svc, c.names.delete);
    if !auth.granted then
      Outcome(Forbidden, [auth])
    else
      var found := svc.find(id);
      if !found.HasValue() then
        Outcome(NotFound, [auth, Find(id, found)])
      else
        var result := svc.deleteModel(found.value);
        Outcome(if !result.Failed() then NoContent else BadRequest(Some(result)),
                [auth, Find(id, found), DeleteModel(found.value)])
  }

  /** `DeleteAsync(ids)` as every concrete controller binds it: find the models for the
      ids, then delete exactly the list that came back. */
  function DeleteByIds<K, D, Q, P>(svc: Services<K, D, Q, P>, ids: seq<K>): (d: Deletion<K, D, Q>)
    ensures |d.calls| == 2
    ensures d.calls[0].FindList? && d.calls[0].ids == ids && d.calls[0].models == svc.findList(ids)
    ensures d.calls[1] == DeleteModels(d.calls[0].models)
    ensures d.result == svc.deleteModels(d.calls[0].models)
  {
    var models := svc.findList(ids);
    Deletion(svc.deleteModels(models), [FindList(ids, models), DeleteModels(models)])
  }

  /** `BulkDelete(ids)`. */
  function BulkDelete<K, D, Q, P>(c: Settings<Q>, svc: Services<K, D, Q, P>, ids: seq<K>)
    : (o: Outcome<K, D, Q, P>)
    ensures |o.trace| >= 1 && o.trace[0] == HasPermission(c, svc, c.names.delete)
    ensures o.response.Forbidden? <==> !Allowed(c, svc, c.names.delete)
    ensures !Allowed(c, svc, c.names.delete) ==> |o.trace| == 1
    ensures Allowed(c, svc, c.names.delete) ==>
              |o.trace| == 3 && o.trace[1] == FindList(ids, svc.findList(ids))
              && o.trace[2] == DeleteModels(o.trace[1].models)
    ensures o.response.NoContent? <==>
              Allowed(c, svc, c.names.delete) && !svc.deleteModels(svc.findList(ids)).Failed()
    ensures o.response.BadRequest? <==>
              Allowed(c, svc, c.names.delete) && svc.deleteModels(svc.findList(ids)).Failed()
    ensures o.response.BadRequest? ==> o.response.errors == Some(svc.deleteModels(svc.findList(ids)))
  {
    var auth := HasPermission(c, svc, c.names.delete);
    if !auth.granted then
      Outcome(Forbidden, [auth])
    else
      var d := DeleteByIds(svc, ids);
      Outcome(if !d.result.Failed() then NoContent else BadRequest(Some(d.result)), [auth] + d.calls)
  }

  /** The controller as a whole: route an action to its handler. */
  function Handle<K(==), D, Q, P>(c: Settings<Q>, svc: Services<K, D, Q, P>, a: Action<K, D, Q>)
    : (o: Outcome<K, D, Q, P>)
    ensures IdMismatch(a) ==> o.response.StatusCode() == 400 && o.trace == []
    ensures !IdMismatch(a) ==>
              |o.trace| >= 1 && o.trace[0] == HasPermission(c, svc, RequiredName(c, a))
    ensures o.response.StatusCode() == 403 <==>
              !IdMismatch(a) && !Allowed(c, svc, RequiredName(c, a))
    ensures o.response.Forbidden? ==> NoServiceCall(o.trace)
  {
    match a
    case ListRequest(query) => GetList(c, svc, query)
    case GetRequest(id) => GetById(c, svc, id)
    case PostRequest(model) => Post(c, svc, model)
    case PutRequest(id, model) => Put(c, svc, id, model)
    case DeleteRequest(id) => Delete(c, svc, id)
    case BulkDeleteRequest(ids) => BulkDelete(c, svc, ids)
  }
}
