/** Permission predicates of the facade. With RBAC disabled each one answers true
    without asking any resolver; otherwise each returns the answer of the
    resolver the backend selects, unchanged. */
module PermissionChecks {
  import opened RbacTypes

  /** Type-level check, answered by the resolver for `permissionType`. */
  function UserHasPermission(rbacEnabled: bool, backend: Backend, user: User, permissionType: string)
    : (granted: bool)
    ensures !rbacEnabled ==> granted
    ensures rbacEnabled ==>
      (granted <==> backend.resolverForPermissionType(permissionType).hasPermission(user, permissionType))
  {
    if !rbacEnabled then true
    else
      var resolver := backend.resolverForPermissionType(permissionType);
      resolver.hasPermission(user, permissionType)
  }

  /** Instance-level check on a resource that is about to be created. */
  function UserHasResourceApiPermission(
    rbacEnabled: bool, backend: Backend, user: User, resourceApi: Resource, permissionType: string)
    : (granted: bool)
    ensures !rbacEnabled ==> granted
    ensures rbacEnabled ==>
      (granted <==> backend.resolverForPermissionType(permissionType)
                      .hasResourceApiPermission(user, resourceApi, permissionType))
  {
    if !rbacEnabled then true
    else
      var resolver := backend.resolverForPermissionType(permissionType);
      resolver.hasResourceApiPermission(user, resourceApi, permissionType)
  }

  /** Instance-level check on a persisted resource. */
  function UserHasResourceDbPermission(
    rbacEnabled: bool, backend: Backend, user: User, resourceDb: Resource, permissionType: string)
    : (granted: bool)
    ensures !rbacEnabled ==> granted
    ensures rbacEnabled ==>
      (granted <==> backend.resolverForPermissionType(permissionType)
                      .hasResourceDbPermission(user, resourceDb, permissionType))
  {
    if !rbacEnabled then true
    else
      var resolver := backend.resolverForPermissionType(permissionType);
      resolver.hasResourceDbPermission(user, resourceDb, permissionType)
  }

  /** Whether the caller may use the trigger of a rule, as the rule resolver
      decides it. */
  function UserHasRuleTriggerPermission(rbacEnabled: bool, backend: Backend, user: User, trigger: Trigger)
    : (granted: bool)
    ensures !rbacEnabled ==> granted
    ensures rbacEnabled ==> (granted <==> backend.ruleTriggerPermission(user, trigger))
  {
    !rbacEnabled || backend.ruleTriggerPermission(user, trigger)
  }

  /** The action a rule's action check is made against: the installed action
      with that reference, else a placeholder built from the reference. */
  function ActionForRef(catalog: ActionCatalog, actionRef: string): Resource {
    match catalog.actionByRef(actionRef)
    case Some(actionDb) => actionDb
    case None => catalog.placeholderFor(actionRef)
  }

  /** Whether the caller may execute the action a rule references. The action
      resolver is asked for execute permission whether or not the action is
      installed. */
  function UserHasRuleActionPermission(
    rbacEnabled: bool, backend: Backend, catalog: ActionCatalog, user: User, actionRef: string)
    : (granted: bool)
    ensures !rbacEnabled ==> granted
    ensures rbacEnabled && catalog.actionByRef(actionRef).Some? ==>
      (granted <==> backend.resolverForResourceType(ResourceTypeAction)
                      .hasResourceDbPermission(user, catalog.actionByRef(actionRef).value, ActionExecute))
    ensures rbacEnabled && catalog.actionByRef(actionRef).None? ==>
      (granted <==> backend.resolverForResourceType(ResourceTypeAction)
                      .hasResourceDbPermission(user, catalog.placeholderFor(actionRef), ActionExecute))
  {
    if !rbacEnabled then true
    else
      var actionDb := ActionForRef(catalog, actionRef);
      var resolver := backend.resolverForResourceType(ResourceTypeAction);
      resolver.hasResourceDbPermission(user, actionDb, ActionExecute)
  }
}
