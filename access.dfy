/** The role table: which roles each of the two applications admits. */
module Access {
  import opened AuthTypes
  import AuthUser

  datatype AppName = SuperadminApp | WorkspaceApp

  const SUPERADMIN_APP_ROLES: seq<Role> := [SUPERADMIN]
  const WORKSPACE_APP_ROLES: seq<Role> := [SUPERADMIN, WORKSPACE_ADMIN, CUSTOMER]

  /** `APP_ROLES[app]` / `getAllowedRolesForApp`. */
  function AllowedRolesForApp(app: AppName): (roles: seq<Role>)
    ensures app == SuperadminApp ==> roles == ["superadmin"]
    ensures app == WorkspaceApp ==> roles == ["superadmin", "workspace_admin", "customer"]
  {
    match app
    case SuperadminApp => SUPERADMIN_APP_ROLES
    case WorkspaceApp => WORKSPACE_APP_ROLES
  }

  predicate CanAccessApp(role: Role, app: AppName) {
    AuthUser.IsRoleAllowed(role, AllowedRolesForApp(app))
  }

  /** `canAccessApp(r, a)` holds exactly when `r` is in `getAllowedRolesForApp(a)`. */
  lemma CanAccessAppIff(role: Role, app: AppName)
    ensures CanAccessApp(role, app) <==> role in AllowedRolesForApp(app)
  {
  }

  /** The superadmin application admits exactly one role. */
  lemma SuperadminAppAdmitsOnlySuperadmin(role: Role)
    ensures CanAccessApp(role, SuperadminApp) <==> role == "superadmin"
  {
  }

  /** The workspace application admits exactly the three known roles, superadmin included. */
  lemma WorkspaceAppAdmits(role: Role)
    ensures CanAccessApp(role, WorkspaceApp)
      <==> role == "superadmin" || role == "workspace_admin" || role == "customer"
  {
  }

  /** The full matrix for the three known roles. */
  lemma AccessMatrix()
    ensures !CanAccessApp("workspace_admin", SuperadminApp) && CanAccessApp("workspace_admin", WorkspaceApp)
    ensures !CanAccessApp("customer", SuperadminApp) && CanAccessApp("customer", WorkspaceApp)
    ensures CanAccessApp("superadmin", SuperadminApp) && CanAccessApp("superadmin", WorkspaceApp)
  {
  }

  /** Only unrecognised role strings are refused by the workspace application. */
  lemma WorkspaceRefusesOnlyUnknown(role: Role)
    requires !CanAccessApp(role, WorkspaceApp)
    ensures role != SUPERADMIN && role != WORKSPACE_ADMIN && role != CUSTOMER
  {
  }

  /** Both allowed-role lists are free of duplicates. */
  lemma AllowedRolesDistinct(app: AppName)
    ensures var rs := AllowedRolesForApp(app);
      forall i, j :: 0 <= i < j < |rs| ==> rs[i] != rs[j]
  {
  }
}
