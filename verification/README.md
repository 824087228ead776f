# DNTFrameworkCore CRUD controller — a Dafny model

This project models the generic CRUD controller of DNTFrameworkCore's web layer
(`CrudControllerBase` and the three `CrudController` subclasses). Each HTTP action:

1. asks the authorization service whether the caller satisfies the policy
   `PolicyPrefix + <permission name>`;
2. calls one or two operations of the CRUD service;
3. translates the outcome into a response: 200, 201, 204, 400, 403 or 404.

The authorization service and the CRUD service are uninterpreted functions gathered in a
`Services` value. Every action is a pure function that returns its response and the
trace of the calls it made, in order. Lookups are recorded together with their answers.
The permission check, the id check in `Put` and the "delete only what the lookup
returned" rules can then be stated about the trace.

Files and modules:

- `Functional.dfy` (`Functional`): `Maybe` (`HasValue`/`Value`) and `Result` (`Failed`).
  These are the only parts of the framework's result wrappers that the controller uses.
- `Permissions.dfy` (`Permissions`): the four permissions, the names a controller gives
  them, and the policy name queried for each.
- `CrudController.dfy` (`CrudController`): models, calls, collaborators, responses, the
  six actions, `HasPermission`, the subclasses' batch-delete binding (`DeleteByIds`) and
  the dispatcher `Handle`.
- `CallProtocol.dfy` (`CallProtocol`): an automaton over traces that defines the legal
  call order independently of the handlers, facts about its runs, and the proof that
  every action follows it.
- `DispatchProperties.dfy` (`DispatchProperties`): properties of `Handle` over all
  actions. These cover the permission mapping, denial, 404 and 400 conditions, declared
  status codes, success responses, and what the deletes act on. They follow from the
  per-action contracts, so their bodies are empty.

The three subclasses delegate each abstract operation except the batch delete to the
same `ICrudService` method, one line each. They are modelled once: the `Services` fields are that binding, and
`DeleteByIds` is their shared `DeleteAsync(ids)`, which finds the models and then deletes
that list.

`Post` answers `Created("", model)` and `Put` answers `Ok(model)`: the 201 or 200 body is the
same object that was passed to the create or edit service, not a value the service
returns. Models are values here, so the body is the model as it was before the call (see
"## Left out").

## Model

| member | source | states |
|---|---|---|
| Permissions.PolicyName | src/DNTFrameworkCore.Web/API/CrudController.cs:283 | the policy name is the prefix followed by the permission name, unchanged: its length is the sum, and it splits back into the two parts |
| Permissions.PolicyNameInjective | src/DNTFrameworkCore.Web/API/CrudController.cs:283 | for one prefix, two permission names give the same policy exactly when the names are equal |
| CrudController.HasPermission | src/DNTFrameworkCore.Web/API/CrudController.cs:281-286 | one authorization query for the prefixed policy; the verdict is the oracle's answer for that policy |
| CrudController.GetList | src/DNTFrameworkCore.Web/API/CrudController.cs:192-204 | asks the View permission first; 403 exactly when it is denied, with no service call; otherwise always 200 with the page from exactly one paged read, which gets the bound request or the default one when none was bound |
| CrudController.GetById | src/DNTFrameworkCore.Web/API/CrudController.cs:206-219 | asks the Edit permission, not View; 403 exactly when denied, with no service call; otherwise one lookup; 404 exactly when it has no value, else 200 with the value found |
| CrudController.Post | src/DNTFrameworkCore.Web/API/CrudController.cs:221-231 | asks the Create permission; 403 exactly when denied, with no service call; otherwise one create call; 201 with the submitted model exactly when the result did not fail, 400 carrying the result exactly when it failed |
| CrudController.Put | src/DNTFrameworkCore.Web/API/CrudController.cs:233-247 | disagreeing ids give 400 with no call at all, not even the permission query; otherwise asks Edit; 403 exactly when denied; otherwise one edit call on the model with the path id; 200 with that model when the result did not fail, 400 carrying the result when it failed |
| CrudController.Delete | src/DNTFrameworkCore.Web/API/CrudController.cs:249-263 | asks the Delete permission; 403 exactly when denied, with no service call; 404 exactly when permitted and the lookup has no value, the lookup of the path id then being the only service call and no model deleted; otherwise it deletes the found model, 204 when that does not fail and 400 carrying that delete's result when it does |
| CrudController.DeleteByIds | src/DNTFrameworkCore.Web/API/CrudController.cs:60-65 | exactly two calls in order: the list lookup of the ids, then the batch delete of precisely the list it returned; the result is that delete's result |
| CrudController.BulkDelete | src/DNTFrameworkCore.Web/API/CrudController.cs:265-279 | asks the Delete permission; 403 exactly when denied, with no service call; otherwise exactly the two calls of the batch delete; 204 exactly when it did not fail, 400 carrying the batch delete's own result exactly when it did |
| CrudController.Handle | src/DNTFrameworkCore.Web/API/CrudController.cs:192-279 | any action other than a mismatched update opens with the query for its required permission; 403 exactly when that is denied; a 403 never comes with a service call; a mismatched update is 400 with an empty trace |
| CallProtocol.AuthorizationFirst | src/DNTFrameworkCore.Web/API/CrudController.cs:198-276 | in any legal run the first call is the authorization query, every later call is a service call, and a refused query ends the run |
| CallProtocol.DeletesOnlyFound | src/DNTFrameworkCore.Web/API/CrudController.cs:258-261 | in any legal run a single-model delete comes right after a lookup that found exactly that model |
| CallProtocol.DeletesOnlyListed | src/DNTFrameworkCore.Web/API/CrudController.cs:63-64 | in any legal run a batch delete comes right after a list lookup that returned exactly that list |
| CallProtocol.HandleFollowsProtocol | src/DNTFrameworkCore.Web/API/CrudController.cs:192-279 | the trace of every action, under any collaborators, is a legal run of the protocol |
| DispatchProperties.PermissionMapping | src/DNTFrameworkCore.Web/API/CrudController.cs:198-271 | the first call of each action is the query for its permission name: list asks View, get-by-id asks Edit (not View), create asks Create, an update with agreeing ids asks Edit, delete and bulk delete ask Delete |
| DispatchProperties.DeniedReachesNoService | src/DNTFrameworkCore.Web/API/CrudController.cs:198-274 | a denied caller reaches no service operation and gets 403, except a mismatched update, which gets 400 |
| DispatchProperties.ServiceOnlyAfterGrant | src/DNTFrameworkCore.Web/API/CrudController.cs:198-276 | every service call comes after the query for the action's own permission, and only when that query was granted |
| DispatchProperties.DeleteOnlyWhatWasFound | src/DNTFrameworkCore.Web/API/CrudController.cs:256-261 | only the delete action issues a single-model delete; it comes third, after the lookup of the path id, and acts on the model that lookup found |
| DispatchProperties.BulkDeleteOnlyWhatWasListed | src/DNTFrameworkCore.Web/API/CrudController.cs:63-64 | only bulk delete issues a batch delete; it comes third, after the list lookup of the requested ids, and acts on exactly the returned list |
| DispatchProperties.NotFoundExactly | src/DNTFrameworkCore.Web/API/CrudController.cs:214-259 | 404 exactly for a permitted get-by-id or delete whose lookup has no value |
| DispatchProperties.BadRequestExactly | src/DNTFrameworkCore.Web/API/CrudController.cs:229-278 | 400 exactly for a mismatched update or when a permitted action's final service result failed; in the latter case the response carries that action's own result: the create, edit, single delete or batch delete result |
| DispatchProperties.StatusIsDeclared | src/DNTFrameworkCore.Web/API/CrudController.cs:192-268 | every response code is among those the action declares with its response-type attributes |
| DispatchProperties.SuccessResponses | src/DNTFrameworkCore.Web/API/CrudController.cs:198-278 | a list is 200 exactly when permitted; 201 carries the submitted model; an update's 200 carries the path id; the deletes answer 204 exactly when permitted, found and not failed |
| DispatchProperties.SamePolicyIffSameName | src/DNTFrameworkCore.Web/API/CrudController.cs:283 | two actions query the same policy exactly when they require the same permission name |

## Left out

- Routing, model binding (`[FromQuery]`, `[BindRequired]`), `[Authorize]`, `[ApiController]` and the response-type attributes are framework plumbing. The declared codes appear only as `DeclaredStatusCodes`.
- The authorization service's policy evaluation and the dependency-injection lookup in `HasPermission` become a boolean oracle over policy names (`Services.authorize`).
- `PermissionConstant.PolicyPrefix` is not part of this model. Its value is a `Settings` field, so every property holds for any prefix.
- `BadRequest(Result)` copies the result into `ModelState` before answering. That serialisation is not part of this model; the response is "400 carrying the result".
- `async`/`Task` and `CancellationToken` forwarding are left out. The calls are modelled as sequential and the token as absent.
- `ICrudService` implementations, persistence and validation are uninterpreted functions. Each returns one fixed answer per argument, so state changes made by a service call cannot be seen by a later call in the same action.
- Null `model` bodies are left out; bound models are assumed present. `Post` never dereferences its model: a null one goes to the create service unchanged and, if that does not fail, is answered 201 with a null body. `Put` reads `model.Id`, so a null model, or a reference-typed key whose `model.Id` is null, throws there.
- Exceptions thrown by collaborators propagate out of every action unhandled in the source: the authorization service (for instance on an unknown policy), the service lookup in `HasPermission`, and every CRUD service call. In the model every call returns.
- `Forbid()` yields 403 only when the authentication scheme's forbid handler answers 403; cookie authentication redirects instead. `Response.StatusCode` fixes `Forbidden` at 403.
- Models are values, not references. The source passes the bound model object to `CreateAsync` and `EditAsync` and then returns that same object, so anything the service writes into it (a generated `Id`, a concurrency token) appears in the 201 or 200 body. In the model `create` and `edit` cannot change their argument, and the 201 or 200 carries the model as it was before the call.
- Key comparison in `Put` uses `IEquatable<TKey>.Equals`. The model uses Dafny equality on keys, assuming `Equals` is an equivalence consistent with identity.
- The role-validator tests, the shared localizer, and the task and user-claim entities are not modelled. They are tests of code outside this model, a forwarding wrapper, and plain entity shapes.
- Permissions.PolicyNameInjective: holds for non-null permission names only. In C# concatenating the prefix with a null name gives the prefix alone, the same policy as the empty name; names are modelled as non-null strings.
