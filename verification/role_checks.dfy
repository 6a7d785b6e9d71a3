/** Role-membership predicates of the facade. All of them look only at the names
    of the caller's roles; all but `UserHasSystemRole` answer true whenever RBAC
    is disabled. */
module RoleChecks {
  import opened RbacTypes

  /** Names of the three reserved system roles. */
  const SystemAdmin: string := "system_admin"
  const Admin: string := "admin"
  const Observer: string := "observer"

  /** Linear scan of a role-name list for one name. */
  function ContainsRole(roleNames: seq<string>, role: string): (found: bool)
    ensures found <==> role in roleNames
    ensures found <==> exists i :: 0 <= i < |roleNames| && roleNames[i] == role
  {
    if |roleNames| == 0 then false
    else roleNames[0] == role || ContainsRole(roleNames[1..], role)
  }

  /** Whether the caller holds `role`; every role counts as held when RBAC is
      disabled. */
  function UserHasRole(rbacEnabled: bool, user: User, role: string): (held: bool)
    ensures !rbacEnabled ==> held
    ensures rbacEnabled ==> (held <==> role in user.roleNames)
  {
    if !rbacEnabled then true
    else ContainsRole(user.roleNames, role)
  }

  function UserIsSystemAdmin(rbacEnabled: bool, user: User): (isSystemAdmin: bool)
    ensures isSystemAdmin <==> !rbacEnabled || SystemAdmin in user.roleNames
  {
    UserHasRole(rbacEnabled, user, SystemAdmin)
  }

  /** Administrator means system administrator or holder of the admin role;
      the system-administrator test comes first. */
  function UserIsAdmin(rbacEnabled: bool, user: User): (isAdmin: bool)
    ensures UserIsSystemAdmin(rbacEnabled, user) ==> isAdmin
    ensures isAdmin <==> UserIsSystemAdmin(rbacEnabled, user) || UserHasRole(rbacEnabled, user, Admin)
    ensures isAdmin <==> !rbacEnabled || SystemAdmin in user.roleNames || Admin in user.roleNames
  {
    UserIsSystemAdmin(rbacEnabled, user) || UserHasRole(rbacEnabled, user, Admin)
  }

  /** Whether the caller holds any of the three system roles. Unlike the other
      predicates this one does not consult the RBAC flag. */
  function UserHasSystemRole(user: User): (hasSystemRole: bool)
    ensures hasSystemRole <==> exists i :: 0 <= i < |user.roleNames| && IsSystemRole(user.roleNames[i])
  {
    || ContainsRole(user.roleNames, SystemAdmin)
    || ContainsRole(user.roleNames, Admin)
    || ContainsRole(user.roleNames, Observer)
  }

  predicate IsSystemRole(role: string) {
    role == SystemAdmin || role == Admin || role == Observer
  }
}
