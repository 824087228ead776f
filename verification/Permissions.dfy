/** Permission names and the policy names the controller asks the authorization service about. */
module Permissions {

  /** The four permissions a CRUD controller distinguishes. */
  datatype Permission = ViewPermission | CreatePermission | EditPermission | DeletePermission

  /** The names a concrete controller gives its four permissions
      (`ViewPermissionName`, `CreatePermissionName`, `EditPermissionName`, `DeletePermissionName`). */
  datatype PermissionNames = PermissionNames(view: string, create: string, edit: string, delete: string)

  function NameOf(names: PermissionNames, p: Permission): string {
    match p
    case ViewPermission => names.view
    case CreatePermission => names.create
    case EditPermission => names.edit
    case DeletePermission => names.delete
  }

  /** The policy queried for a permission: the fixed policy prefix, then the permission name unchanged. */
  function PolicyName(prefix: string, permissionName: string): (policy: string)
    ensures |policy| == |prefix| + |permissionName|
    ensures policy[..|prefix|] == prefix
    ensures policy[|prefix|..] == permissionName
  {
    prefix + permissionName
  }

  /** Under one prefix, distinct permission names are never conflated into one policy. */
  lemma PolicyNameInjective(prefix: string, a: string, b: string)
    ensures PolicyName(prefix, a) == PolicyName(prefix, b) <==> a == b
  {
  }
}
