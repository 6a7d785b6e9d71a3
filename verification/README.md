# RBAC policy facade of st2-rbac-backend, in Dafny

This project models `RBACUtils`. It is the policy facade through which StackStorm's API layer asks authorization questions. The facade has four parts:

- **Role predicates.** `user_has_role`, `user_is_system_admin`, `user_is_admin` and `user_has_system_role` test membership in the caller's role names. The global `rbac.enable` flag gates all of them except `user_has_system_role`.
- **Permission predicates.** These hand type-level and instance-level questions to the resolver that the RBAC backend selects. With RBAC disabled they answer true without asking any resolver.
- **Assertion wrappers.** Each one turns a predicate into an access-denied error. The error is `AccessDeniedError`, `ResourceTypeAccessDeniedError` or `ResourceAccessDeniedError`.
- **Composite guards.** These are the admin-or-self guard, the `user=` query-parameter guard with its optional `require_rbac` strictness, and the rule check. The rule check tests webhook permission on the trigger before execute permission on the action.

Every operation is a pure function over explicit inputs:

- the RBAC flag, as `rbacEnabled`;
- the caller, as `User(name, roleNames)`, where `roleNames` are the names of the roles the role service reports;
- the backend's resolvers, as function-typed fields of `Backend`;
- the action lookup, as `ActionCatalog`.

An assertion that would raise returns `Denied(error)`. The error carries the exception's constructor arguments, with the user's name in place of the `user_db` object.

Modules:

- `RbacTypes`: the caller, resources, rule triggers, resolvers and backend.
- `Outcomes`: the denial errors and their messages.
- `RoleChecks`: the role predicates.
- `PermissionChecks`: the resolver-backed predicates.
- `RbacUtils`: the `assert_*` wrappers.
- `RbacProperties`: lemmas that relate several calls.

## Model

| member | source | states |
|---|---|---|
| RoleChecks.ContainsRole | st2rbac_backend/utils.py:239-242 | The scan of the role-name list finds `role` exactly when some position holds it, i.e. when `role in user_role_names`. |
| RoleChecks.UserHasRole | st2rbac_backend/utils.py:224-242 | With RBAC disabled, every role counts as held. With RBAC enabled, a role is held exactly when its name is among the caller's role names. |
| RoleChecks.UserIsSystemAdmin | st2rbac_backend/utils.py:212-221 | The caller is a system administrator exactly when RBAC is disabled or `system_admin` is among its role names. |
| RoleChecks.UserIsAdmin | st2rbac_backend/utils.py:191-209 | The caller is an administrator exactly when it is a system administrator or holds `admin`. Every system administrator is an administrator. |
| RoleChecks.UserHasSystemRole | st2rbac_backend/utils.py:245-262 | True exactly when some role name is `system_admin`, `admin` or `observer`. The RBAC flag plays no part. |
| PermissionChecks.UserHasPermission | st2rbac_backend/utils.py:265-277 | True when RBAC is disabled. Otherwise, the unchanged answer of the resolver selected for the permission type. |
| PermissionChecks.UserHasResourceApiPermission | st2rbac_backend/utils.py:280-294 | True when RBAC is disabled. Otherwise, the selected resolver's unchanged answer for the API resource. |
| PermissionChecks.UserHasResourceDbPermission | st2rbac_backend/utils.py:297-311 | True when RBAC is disabled. Otherwise, the selected resolver's unchanged answer for the persisted resource. |
| PermissionChecks.UserHasRuleTriggerPermission | st2rbac_backend/utils.py:314-331 | True when RBAC is disabled. Otherwise, the rule resolver's trigger check. |
| PermissionChecks.UserHasRuleActionPermission | st2rbac_backend/utils.py:334-361 | True when RBAC is disabled. Otherwise, the action resolver's answer for `action_execute`. It asks about the installed action when one exists and about the placeholder built from the reference when none does. |
| RbacUtils.AssertUserIsAdmin | st2rbac_backend/utils.py:42-51 | Passes exactly when the caller is an administrator. Otherwise denies with "Administrator access required". |
| RbacUtils.AssertUserIsSystemAdmin | st2rbac_backend/utils.py:54-63 | Passes exactly when the caller is a system administrator. Otherwise denies with "System Administrator access required". |
| RbacUtils.AssertUserIsAdminOrOperatingOnOwnResource | st2rbac_backend/utils.py:66-80 | Never denies with RBAC disabled. Otherwise, denies exactly when the caller is not an administrator and the owner name is absent or differs from the caller's name. The denial message is "Administrator or self access required". |
| RbacUtils.AssertUserHasPermission | st2rbac_backend/utils.py:83-94 | Passes exactly when the type-level predicate holds. Otherwise denies with `ResourceTypeAccessDeniedError(user, permission type)`. |
| RbacUtils.AssertUserHasResourceApiPermission | st2rbac_backend/utils.py:97-110 | Passes exactly when the API-resource predicate holds. Otherwise denies with `ResourceAccessDeniedError(user, resource, permission type)`. |
| RbacUtils.AssertUserHasResourceDbPermission | st2rbac_backend/utils.py:113-126 | Passes exactly when the persisted-resource predicate holds. Otherwise denies with `ResourceAccessDeniedError(user, resource, permission type)`. |
| RbacUtils.AssertUserHasRuleTriggerAndActionPermission | st2rbac_backend/utils.py:129-169 | Passes with RBAC disabled. Otherwise it passes exactly when both the trigger check and the action check pass. A failed trigger check yields the `webhook_create` message whatever the action check would say. Only after the trigger passes does a failed action check yield the `action_execute` message. |
| RbacUtils.AssertUserIsAdminIfUserQueryParamIsProvided | st2rbac_backend/utils.py:172-187 | Passes when the parameter equals the caller's name. Otherwise, `require_rbac` with RBAC disabled denies with the "when RBAC is enabled" message. In every remaining case the guard passes exactly when the caller is an administrator, else it denies with the admins-only message. |
| Outcomes.RuleMessagesDistinct | st2rbac_backend/utils.py:149-166 | For one user, the trigger denial message never equals the action denial message. |
| RbacProperties.DisabledFlagBypassesEverything | st2rbac_backend/utils.py:71-342 | With RBAC disabled, every predicate except `user_has_system_role` holds. Every assertion passes, except the query-parameter guard in its strict form. |
| RbacProperties.DisabledFlagIgnoresResolvers | st2rbac_backend/utils.py:269-342 | With RBAC disabled, the three permission predicates, the trigger and action predicates and the rule check give the same answer for any two backends and action catalogs. |
| RbacProperties.ActionCheckDependsOnlyOnResolvedAction | st2rbac_backend/utils.py:344-356 | With RBAC enabled, two action catalogs that resolve a reference to the same action, installed or placeholder, give the same answer to the action check. |
| RbacProperties.SystemAdminIsAdmin | st2rbac_backend/utils.py:201-203 | A system administrator is an administrator and passes the administrator assertion. |
| RbacProperties.RoleHierarchyExamples | tests/unit/test_rbac_utils.py:59-90 | With RBAC enabled, a holder of only `admin` is an administrator but not a system administrator. A user with no roles is neither, and both assertions deny that user with their fixed messages. |
| RbacProperties.AdminHoldsSystemRole | st2rbac_backend/utils.py:255-260 | With RBAC enabled, every administrator holds a system role. |
| RbacProperties.ObserverIsNotAdmin | st2rbac_backend/utils.py:255-260 | With RBAC enabled, a user whose only role is `observer` holds a system role but is not an administrator. |
| RbacProperties.SystemRoleIgnoresFlag | st2rbac_backend/utils.py:252-262 | With RBAC disabled, a user with no roles is an administrator yet holds no system role. |
| RbacProperties.RoleOrderIrrelevant | st2rbac_backend/utils.py:239-242 | Two callers with the same set of role names get the same answer from every role predicate, whatever the order or repetition. |
| RbacProperties.MoreRolesNeverRevoke | st2rbac_backend/utils.py:239-242 | Adding roles never turns a true role predicate false, and never turns a passing `assert_user_is_admin` or `assert_user_is_system_admin` into a denial. |
| RbacProperties.MoreRolesNeverRevokeGuards | st2rbac_backend/utils.py:66-187 | For one caller name, adding roles never turns a passing admin-or-self guard or query-parameter guard into a denial. |
| RbacProperties.AdminPassesAdminGuards | st2rbac_backend/utils.py:177-187 | An administrator passes the administrator guard and the admin-or-self guard. It passes the query-parameter guard exactly when the parameter is its own name, or `require_rbac` is off, or RBAC is enabled. |
| RbacProperties.RequireRbacPrecedesAdmin | st2rbac_backend/utils.py:180-183 | With RBAC disabled, every caller is an administrator. Even so, the strict guard denies a caller naming another user, with the "when RBAC is enabled" message. |
| RbacProperties.AbsentQueryUserNeedsAdmin | st2rbac_backend/utils.py:180-187 | An absent `user` parameter is unequal to every name. With RBAC enabled, a non-administrator is therefore denied with the admins-only message. |
| RbacProperties.TriggerCheckedBeforeAction | st2rbac_backend/utils.py:144-154 | With RBAC enabled, a failed trigger check fixes the outcome to the trigger denial. No action catalog or action resolver can change it. |
| RbacProperties.RuleDenialNamesFailedCheck | st2rbac_backend/utils.py:148-167 | A denial of the rule check carries the trigger message exactly when the trigger check failed. It carries the action message exactly when the trigger check passed and the action check failed. |

## Left out

- The per-resource resolvers (`st2rbac_backend.resolvers`) and the backend that selects them are not part of this model. Each resolver is an arbitrary function supplied in `Backend`, so every property above holds for every resolver implementation that returns normally.
- Exceptions raised by outside calls are not modelled. `utils.py` catches nothing, so a failure of `get_roles_for_user` (lines 239 and 252), `get_rbac_backend()`, a resolver lookup (lines 273-275, 288-290, 305-307, 322-323, 352-353) or a resolver itself ends the facade call with that exception, not with `Denied`. The model treats every such call as total.
- Repeated role reads are not modelled. Each role predicate queries the role store anew, and `user_is_admin` queries it up to twice (through lines 201 and 205). The model reads one `User.roleNames` snapshot, so it assumes the role assignments do not change during one facade call.
- The remote group-to-role syncer, the role service's database queries and `insert_system_roles` are left out. The facade only reads the role names the service returns, and these are passed in as `User.roleNames`.
- The global configuration object is replaced by the explicit `rbacEnabled` parameter.
- `get_action_by_ref` and `ResourceReference.from_string_reference` are supplied as `ActionCatalog`. The error `from_string_reference` raises for a reference without a pack separator is not modelled, because `placeholderFor` is total.
- The `KeyError` raised when a rule's trigger lacks `type` or its action lacks `ref` is not modelled. `RuleApi` always carries both, as the rule API schema requires them.
- The texts of `ResourceTypeAccessDeniedError` and `ResourceAccessDeniedError` are composed by the exception classes, which are not part of this model. The model records their constructor arguments: the user's name, the permission type and the resource.
- The `assert isinstance(role, str)` check in `user_has_role` is enforced by the `string` type.
- The Python functions return `True` on some success paths and `None` on others. The model maps both to `Ok`.
- The order of evaluation inside `user_is_admin` (system administrator first, then `admin`) cannot be observed in a pure model. Only its result is stated.
