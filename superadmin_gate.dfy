/**
 * `requireSuperadmin()`, written out identically at the top of both
 * superadmin action files: resolve the caller, refuse anyone who is not a
 * superadmin.
 */
module SuperadminGate {
  import opened Base
  import opened AuthTypes
  import Access

  const UNAUTHORIZED: string := "Unauthorized"
  const SUPERADMIN_ONLY: string := "Only superadmin can perform this action."

  /** `requireSuperadmin()` over what `getCurrentUser` resolved to. */
  function RequireSuperadmin(caller: Option<User>): (r: Result<User>)
    ensures caller.None? ==> r == Failure("Unauthorized")
    ensures caller.Some? && caller.value.role != SUPERADMIN ==> r == Failure("Only superadmin can perform this action.")
    ensures r.Success? <==> caller.Some? && caller.value.role == SUPERADMIN
    ensures r.Success? ==> r.value == caller.value
  {
    if caller.None? then Failure(UNAUTHORIZED)
    else if caller.value.role != SUPERADMIN then Failure(SUPERADMIN_ONLY)
    else Success(caller.value)
  }

  /** The gate admits exactly the callers the superadmin application admits. */
  lemma GateMatchesAccessTable(caller: Option<User>)
    ensures RequireSuperadmin(caller).Success? <==>
      caller.Some? && Access.CanAccessApp(caller.value.role, Access.SuperadminApp)
  {
    if caller.Some? {
      Access.SuperadminAppAdmitsOnlySuperadmin(caller.value.role);
    }
  }
}
