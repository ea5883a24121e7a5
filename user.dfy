/** Resolving the current user and reading its role and workspace. */
module AuthUser {
  import opened Base
  import opened AuthTypes
  import AuthClient

  /** `getCurrentUser` as a function of what `auth.getUser()` resolved to. */
  function GetCurrentUser(p: ProviderResult): (r: Option<User>)
    ensures p.errored ==> r.None?
    ensures p.user.None? ==> r.None?
    ensures r.None? <==> (p.errored || p.user.None?)
    ensures r.Some? ==> r == AuthClient.MapProviderUser(p.user)
  {
    if p.errored || p.user.None? then None else AuthClient.MapProviderUser(p.user)
  }

  /** An error and a missing user look the same to every caller. */
  lemma ErrorIndistinguishableFromAbsent(u: ProviderUser)
    ensures GetCurrentUser(ProviderResult(true, Some(u))) == GetCurrentUser(ProviderResult(false, None))
  {
  }

  function GetRole(user: User): (r: Role)
    ensures r == user.role
  {
    user.role
  }

  function GetWorkspaceId(user: User): (r: Option<int>)
    ensures r == user.workspaceId
  {
    user.workspaceId
  }

  /** `isRoleAllowed`: `allowedRoles.includes(role)`. */
  function IsRoleAllowed(role: Role, allowedRoles: seq<Role>): (b: bool)
    ensures b <==> role in allowedRoles
    ensures allowedRoles == [] ==> !b
  {
    if allowedRoles == [] then false
    else allowedRoles[0] == role || IsRoleAllowed(role, allowedRoles[1..])
  }
}
