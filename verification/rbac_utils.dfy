/** The assertion wrappers of the facade. Each turns a predicate into `Ok` or a
    typed denial carrying the fixed message or the context of the failed check. */
module RbacUtils {
  import opened RbacTypes
  import opened Outcomes
  import opened RoleChecks
  import opened PermissionChecks

  function AssertUserIsAdmin(rbacEnabled: bool, user: User): (outcome: Outcome)
    ensures outcome.Ok? <==> UserIsAdmin(rbacEnabled, user)
    ensures outcome.Denied? ==> outcome.error == AccessDeniedError(AdminRequiredMessage, user.name)
  {
    if !UserIsAdmin(rbacEnabled, user) then Denied(AccessDeniedError(AdminRequiredMessage, user.name))
    else Ok
  }

  function AssertUserIsSystemAdmin(rbacEnabled: bool, user: User): (outcome: Outcome)
    ensures outcome.Ok? <==> UserIsSystemAdmin(rbacEnabled, user)
    ensures outcome.Denied? ==> outcome.error == AccessDeniedError(SystemAdminRequiredMessage, user.name)
  {
    if !UserIsSystemAdmin(rbacEnabled, user) then
      Denied(AccessDeniedError(SystemAdminRequiredMessage, user.name))
    else Ok
  }

  /** Passes for administrators and for a caller naming itself as the owner of
      the resource; an absent owner name never counts as the caller's own. */
  function AssertUserIsAdminOrOperatingOnOwnResource(rbacEnabled: bool, user: User, owner: Option<string>)
    : (outcome: Outcome)
    ensures !rbacEnabled ==> outcome.Ok?
    ensures rbacEnabled ==>
      (outcome.Denied? <==> !UserIsAdmin(rbacEnabled, user) && (owner.None? || owner.value != user.name))
    ensures outcome.Denied? ==> outcome.error == AccessDeniedError(AdminOrSelfRequiredMessage, user.name)
  {
    if !rbacEnabled then Ok
    else
      var isAdmin := UserIsAdmin(rbacEnabled, user);
      var isSelf := owner.Some? && user.name == owner.value;
      if !isAdmin && !isSelf then Denied(AccessDeniedError(AdminOrSelfRequiredMessage, user.name))
      else Ok
  }

  function AssertUserHasPermission(rbacEnabled: bool, backend: Backend, user: User, permissionType: string)
    : (outcome: Outcome)
    ensures outcome.Ok? <==> UserHasPermission(rbacEnabled, backend, user, permissionType)
    ensures outcome.Denied? ==> outcome.error == ResourceTypeAccessDeniedError(user.name, permissionType)
  {
    if !UserHasPermission(rbacEnabled, backend, user, permissionType) then
      Denied(ResourceTypeAccessDeniedError(user.name, permissionType))
    else Ok
  }

  function AssertUserHasResourceApiPermission(
    rbacEnabled: bool, backend: Backend, user: User, resourceApi: Resource, permissionType: string)
    : (outcome: Outcome)
    ensures outcome.Ok? <==> UserHasResourceApiPermission(rbacEnabled, backend, user, resourceApi, permissionType)
    ensures outcome.Denied? ==>
      outcome.error == ResourceAccessDeniedError(user.name, resourceApi, permissionType)
  {
    if !UserHasResourceApiPermission(rbacEnabled, backend, user, resourceApi, permissionType) then
      Denied(ResourceAccessDeniedError(user.name, resourceApi, permissionType))
    else Ok
  }

  function AssertUserHasResourceDbPermission(
    rbacEnabled: bool, backend: Backend, user: User, resourceDb: Resource, permissionType: string)
    : (outcome: Outcome)
    ensures outcome.Ok? <==> UserHasResourceDbPermission(rbacEnabled, backend, user, resourceDb, permissionType)
    ensures outcome.Denied? ==>
      outcome.error == ResourceAccessDeniedError(user.name, resourceDb, permissionType)
  {
    if !UserHasResourceDbPermission(rbacEnabled, backend, user, resourceDb, permissionType) then
      Denied(ResourceAccessDeniedError(user.name, resourceDb, permissionType))
    else Ok
  }

  /** Creating a rule needs webhook permission on its trigger and execute
      permission on its action, checked in that order: a trigger failure is
      reported even when the action check would fail too. */
  function AssertUserHasRuleTriggerAndActionPermission(
    rbacEnabled: bool, backend: Backend, catalog: ActionCatalog, user: User, rule: RuleApi)
    : (outcome: Outcome)
    ensures !rbacEnabled ==> outcome.Ok?
    ensures outcome.Ok? <==>
      UserHasRuleTriggerPermission(rbacEnabled, backend, user, rule.trigger)
      && UserHasRuleActionPermission(rbacEnabled, backend, catalog, user, rule.actionRef)
    ensures !UserHasRuleTriggerPermission(rbacEnabled, backend, user, rule.trigger) ==>
      outcome == Denied(AccessDeniedError(TriggerDeniedMessage(user.name, rule.trigger.triggerType), user.name))
    ensures UserHasRuleTriggerPermission(rbacEnabled, backend, user, rule.trigger)
            && !UserHasRuleActionPermission(rbacEnabled, backend, catalog, user, rule.actionRef) ==>
      outcome == Denied(AccessDeniedError(ActionDeniedMessage(user.name, rule.actionRef), user.name))
  {
    if !rbacEnabled then Ok
    else
      var triggerType := rule.trigger.triggerType;
      var actionRef := rule.actionRef;
      if !UserHasRuleTriggerPermission(rbacEnabled, backend, user, rule.trigger) then
        Denied(AccessDeniedError(TriggerDeniedMessage(user.name, triggerType), user.name))
      else if !UserHasRuleActionPermission(rbacEnabled, backend, catalog, user, actionRef) then
        Denied(AccessDeniedError(ActionDeniedMessage(user.name, actionRef), user.name))
      else Ok
  }

  /** Guard for the `user` query parameter: only an administrator may name a
      user other than itself, and with `requireRbac` not even an administrator
      while RBAC is disabled. An absent parameter differs from every name. */
  function AssertUserIsAdminIfUserQueryParamIsProvided(
    rbacEnabled: bool, user: User, queryUser: Option<string>, requireRbac: bool)
    : (outcome: Outcome)
    ensures queryUser == Some(user.name) ==> outcome.Ok?
    ensures queryUser != Some(user.name) && requireRbac && !rbacEnabled ==>
      outcome == Denied(AccessDeniedError(UserParamNeedsRbacMessage, user.name))
    ensures queryUser != Some(user.name) && !(requireRbac && !rbacEnabled) ==>
      (outcome.Ok? <==> UserIsAdmin(rbacEnabled, user))
    ensures queryUser != Some(user.name) && !(requireRbac && !rbacEnabled) && outcome.Denied? ==>
      outcome.error == AccessDeniedError(UserParamNeedsAdminMessage, user.name)
  {
    var isAdmin := UserIsAdmin(rbacEnabled, user);
    if queryUser != Some(user.name) then
      if requireRbac && !rbacEnabled then Denied(AccessDeniedError(UserParamNeedsRbacMessage, user.name))
      else if !isAdmin then Denied(AccessDeniedError(UserParamNeedsAdminMessage, user.name))
      else Ok
    else Ok
  }
}
