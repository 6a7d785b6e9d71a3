/** Properties relating several calls of the facade: the RBAC flag as a global
    bypass, the role hierarchy, independence from role order, and the order in
    which the composite and query-parameter checks report denials. */
module RbacProperties {
  import opened RbacTypes
  import opened Outcomes
  import opened RoleChecks
  import opened PermissionChecks
  import opened RbacUtils

  /** With RBAC disabled every predicate but `UserHasSystemRole` holds and every
      assertion passes, except the query-parameter guard in its strict form. */
  lemma DisabledFlagBypassesEverything(
    backend: Backend, catalog: ActionCatalog, user: User, role: string, permissionType: string,
    resource: Resource, rule: RuleApi, owner: Option<string>, queryUser: Option<string>)
    ensures UserHasRole(false, user, role) && UserIsSystemAdmin(false, user) && UserIsAdmin(false, user)
    ensures UserHasPermission(false, backend, user, permissionType)
    ensures UserHasResourceApiPermission(false, backend, user, resource, permissionType)
    ensures UserHasResourceDbPermission(false, backend, user, resource, permissionType)
    ensures UserHasRuleTriggerPermission(false, backend, user, rule.trigger)
    ensures UserHasRuleActionPermission(false, backend, catalog, user, rule.actionRef)
    ensures AssertUserIsAdmin(false, user).Ok? && AssertUserIsSystemAdmin(false, user).Ok?
    ensures AssertUserIsAdminOrOperatingOnOwnResource(false, user, owner).Ok?
    ensures AssertUserHasPermission(false, backend, user, permissionType).Ok?
    ensures AssertUserHasResourceApiPermission(false, backend, user, resource, permissionType).Ok?
    ensures AssertUserHasResourceDbPermission(false, backend, user, resource, permissionType).Ok?
    ensures AssertUserHasRuleTriggerAndActionPermission(false, backend, catalog, user, rule).Ok?
    ensures AssertUserIsAdminIfUserQueryParamIsProvided(false, user, queryUser, false).Ok?
  {
  }

  /** With RBAC disabled the permission predicates give the same answer for any
      two backends: no resolver is consulted. */
  lemma DisabledFlagIgnoresResolvers(
    backend1: Backend, backend2: Backend, catalog1: ActionCatalog, catalog2: ActionCatalog,
    user: User, permissionType: string, resource: Resource, rule: RuleApi)
    ensures UserHasPermission(false, backend1, user, permissionType)
            == UserHasPermission(false, backend2, user, permissionType)
    ensures UserHasResourceApiPermission(false, backend1, user, resource, permissionType)
            == UserHasResourceApiPermission(false, backend2, user, resource, permissionType)
    ensures UserHasResourceDbPermission(false, backend1, user, resource, permissionType)
            == UserHasResourceDbPermission(false, backend2, user, resource, permissionType)
    ensures UserHasRuleTriggerPermission(false, backend1, user, rule.trigger)
            == UserHasRuleTriggerPermission(false, backend2, user, rule.trigger)
    ensures UserHasRuleActionPermission(false, backend1, catalog1, user, rule.actionRef)
            == UserHasRuleActionPermission(false, backend2, catalog2, user, rule.actionRef)
    ensures AssertUserHasRuleTriggerAndActionPermission(false, backend1, catalog1, user, rule)
            == AssertUserHasRuleTriggerAndActionPermission(false, backend2, catalog2, user, rule)
  {
  }

  /** The action check sees the catalog only through the action it resolves the
      reference to: two catalogs that resolve the reference to the same action,
      installed or placeholder, give the same answer. */
  lemma ActionCheckDependsOnlyOnResolvedAction(
    backend: Backend, catalog1: ActionCatalog, catalog2: ActionCatalog, user: User, actionRef: string)
    requires ActionForRef(catalog1, actionRef) == ActionForRef(catalog2, actionRef)
    ensures UserHasRuleActionPermission(true, backend, catalog1, user, actionRef)
            == UserHasRuleActionPermission(true, backend, catalog2, user, actionRef)
  {
  }

  /** A system administrator is an administrator, and passes every check an
      administrator passes. */
  lemma SystemAdminIsAdmin(rbacEnabled: bool, user: User)
    requires UserIsSystemAdmin(rbacEnabled, user)
    ensures UserIsAdmin(rbacEnabled, user)
    ensures AssertUserIsAdmin(rbacEnabled, user).Ok?
  {
  }

  /** Holding only the admin role makes a user an administrator but not a system
      administrator; holding no role makes it neither. */
  lemma RoleHierarchyExamples(name: string)
    ensures UserIsAdmin(true, User(name, [Admin])) && !UserIsSystemAdmin(true, User(name, [Admin]))
    ensures AssertUserIsSystemAdmin(true, User(name, [Admin]))
            == Denied(AccessDeniedError(SystemAdminRequiredMessage, name))
    ensures !UserIsAdmin(true, User(name, [])) && !UserIsSystemAdmin(true, User(name, []))
    ensures AssertUserIsAdmin(true, User(name, [])) == Denied(AccessDeniedError(AdminRequiredMessage, name))
    ensures AssertUserIsSystemAdmin(true, User(name, []))
            == Denied(AccessDeniedError(SystemAdminRequiredMessage, name))
  {
  }

  /** With RBAC enabled every administrator holds a system role; the converse
      fails for an observer. */
  lemma AdminHoldsSystemRole(user: User)
    requires UserIsAdmin(true, user)
    ensures UserHasSystemRole(user)
  {
  }

  /** With RBAC enabled, a user whose only role is `observer` holds a system
      role but is not an administrator. */
  lemma ObserverIsNotAdmin(name: string)
    ensures UserHasSystemRole(User(name, [Observer])) && !UserIsAdmin(true, User(name, [Observer]))
  {
  }

  /** `UserHasSystemRole` ignores the RBAC flag: with RBAC disabled a user with
      no roles is an administrator but holds no system role. */
  lemma SystemRoleIgnoresFlag(name: string)
    ensures UserIsAdmin(false, User(name, [])) && !UserHasSystemRole(User(name, []))
  {
  }

  /** Only the set of role names matters, not their order or repetition. */
  lemma RoleOrderIrrelevant(rbacEnabled: bool, user1: User, user2: User, role: string)
    requires forall r :: r in user1.roleNames <==> r in user2.roleNames
    ensures UserHasRole(rbacEnabled, user1, role) == UserHasRole(rbacEnabled, user2, role)
    ensures UserIsSystemAdmin(rbacEnabled, user1) == UserIsSystemAdmin(rbacEnabled, user2)
    ensures UserIsAdmin(rbacEnabled, user1) == UserIsAdmin(rbacEnabled, user2)
    ensures UserHasSystemRole(user1) == UserHasSystemRole(user2)
  {
  }

  /** Assigning more roles never takes a role-based permission away. */
  lemma MoreRolesNeverRevoke(rbacEnabled: bool, user1: User, user2: User, role: string)
    requires forall r :: r in user1.roleNames ==> r in user2.roleNames
    ensures UserHasRole(rbacEnabled, user1, role) ==> UserHasRole(rbacEnabled, user2, role)
    ensures UserIsSystemAdmin(rbacEnabled, user1) ==> UserIsSystemAdmin(rbacEnabled, user2)
    ensures UserIsAdmin(rbacEnabled, user1) ==> UserIsAdmin(rbacEnabled, user2)
    ensures UserHasSystemRole(user1) ==> UserHasSystemRole(user2)
    ensures AssertUserIsAdmin(rbacEnabled, user1).Ok? ==> AssertUserIsAdmin(rbacEnabled, user2).Ok?
    ensures AssertUserIsSystemAdmin(rbacEnabled, user1).Ok? ==> AssertUserIsSystemAdmin(rbacEnabled, user2).Ok?
  {
  }

  /** For one caller name, more roles never turn a passing admin-or-self guard
      or query-parameter guard into a denial. */
  lemma MoreRolesNeverRevokeGuards(
    rbacEnabled: bool, user1: User, user2: User, owner: Option<string>, queryUser: Option<string>,
    requireRbac: bool)
    requires user1.name == user2.name
    requires forall r :: r in user1.roleNames ==> r in user2.roleNames
    ensures AssertUserIsAdminOrOperatingOnOwnResource(rbacEnabled, user1, owner).Ok?
            ==> AssertUserIsAdminOrOperatingOnOwnResource(rbacEnabled, user2, owner).Ok?
    ensures AssertUserIsAdminIfUserQueryParamIsProvided(rbacEnabled, user1, queryUser, requireRbac).Ok?
            ==> AssertUserIsAdminIfUserQueryParamIsProvided(rbacEnabled, user2, queryUser, requireRbac).Ok?
  {
  }

  /** An administrator passes every administrator guard; only the strict
      query-parameter guard with RBAC disabled can still refuse it. */
  lemma AdminPassesAdminGuards(
    rbacEnabled: bool, user: User, owner: Option<string>, queryUser: Option<string>, requireRbac: bool)
    requires UserIsAdmin(rbacEnabled, user)
    ensures AssertUserIsAdmin(rbacEnabled, user).Ok?
    ensures AssertUserIsAdminOrOperatingOnOwnResource(rbacEnabled, user, owner).Ok?
    ensures AssertUserIsAdminIfUserQueryParamIsProvided(rbacEnabled, user, queryUser, requireRbac).Ok?
            <==> (queryUser == Some(user.name) || !requireRbac || rbacEnabled)
  {
  }

  /** The `requireRbac` test comes before the administrator test: with RBAC
      disabled every caller, administrator or not, is refused with the
      RBAC-required message when it names another user. */
  lemma RequireRbacPrecedesAdmin(user: User, queryUser: Option<string>)
    requires queryUser != Some(user.name)
    ensures UserIsAdmin(false, user)
    ensures AssertUserIsAdminIfUserQueryParamIsProvided(false, user, queryUser, true)
            == Denied(AccessDeniedError(UserParamNeedsRbacMessage, user.name))
  {
  }

  /** An absent `user` parameter is treated like a different user: with RBAC
      enabled a non-administrator is refused. */
  lemma AbsentQueryUserNeedsAdmin(user: User, requireRbac: bool)
    requires !UserIsAdmin(true, user)
    ensures AssertUserIsAdminIfUserQueryParamIsProvided(true, user, None, requireRbac)
            == Denied(AccessDeniedError(UserParamNeedsAdminMessage, user.name))
  {
  }

  /** Once the trigger check fails, neither the action catalog nor the action
      resolver can change the outcome of the composite rule check. */
  lemma TriggerCheckedBeforeAction(
    backend1: Backend, backend2: Backend, catalog1: ActionCatalog, catalog2: ActionCatalog,
    user: User, rule: RuleApi)
    requires !backend1.ruleTriggerPermission(user, rule.trigger)
    requires !backend2.ruleTriggerPermission(user, rule.trigger)
    ensures AssertUserHasRuleTriggerAndActionPermission(true, backend1, catalog1, user, rule)
            == AssertUserHasRuleTriggerAndActionPermission(true, backend2, catalog2, user, rule)
            == Denied(AccessDeniedError(TriggerDeniedMessage(user.name, rule.trigger.triggerType), user.name))
  {
  }

  /** A denial of the composite rule check names the trigger exactly when the
      trigger check failed, and names the action otherwise. */
  lemma RuleDenialNamesFailedCheck(rbacEnabled: bool, backend: Backend, catalog: ActionCatalog, user: User, rule: RuleApi)
    requires AssertUserHasRuleTriggerAndActionPermission(rbacEnabled, backend, catalog, user, rule).Denied?
    ensures var message := AssertUserHasRuleTriggerAndActionPermission(rbacEnabled, backend, catalog, user, rule).error.message;
            && (message == TriggerDeniedMessage(user.name, rule.trigger.triggerType)
                <==> !UserHasRuleTriggerPermission(rbacEnabled, backend, user, rule.trigger))
            && (message == ActionDeniedMessage(user.name, rule.actionRef)
                <==> !UserHasRuleActionPermission(rbacEnabled, backend, catalog, user, rule.actionRef)
                     && UserHasRuleTriggerPermission(rbacEnabled, backend, user, rule.trigger))
  {
    RuleMessagesDistinct(user.name, rule.trigger.triggerType, rule.actionRef);
  }
}
