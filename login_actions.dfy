/**
 * The workspace application's `signIn` server action: the credential check,
 * the provider's password sign-in, and the two post-sign-in refusals that
 * end the fresh session again.
 */
module LoginActions {
  import opened Base
  import opened Text
  import opened AuthTypes
  import Access
  import AuthClient
  import WorkspaceGuard
  import Selection
  import RouteResponse

  const CREDENTIALS_REQUIRED: string := "Email and password are required."
  const NO_ACCESS: string := "You don't have access to this app. Workspace users only."
  const DEACTIVATED: string := "Your account is deactivated, please contact administrator."

  /** `!email || !password` fails: the e-mail is trimmed, the password is not. */
  predicate CredentialsPresent(email: Option<string>, password: Option<string>) {
    email.Some? && Trim(email.value) != "" && password.Some? && password.value != ""
  }

  /** The calls `signIn` makes on the provider's session. */
  datatype AuthCall = SignInWithPassword(email: string, password: string) | SignOut

  /** The provider session the server action signs into and out of. */
  class AuthSession {
    var user: Option<ProviderUser>
    var calls: seq<AuthCall>

    constructor ()
      ensures user.None? && calls == []
    {
      user := None;
      calls := [];
    }
  }

  /** Whether the mapped user passes the role check of `signIn`. */
  predicate RoleAdmitted(u: Option<ProviderUser>) {
    var mapped := AuthClient.MapProviderUser(u);
    mapped.Some? && Access.CanAccessApp(mapped.value.role, Access.WorkspaceApp)
  }

  /**
   * `signIn(formData)`. `attempt` is what `signInWithPassword` answers: its
   * error message, or its `data.user`. `ownedDisabled` is
   * `workspace?.disabled` of the lookup by owner `user_id` (`None` when no
   * single row came back). The result is the `error` field, `None` for `{}`.
   */
  method SignIn(session: AuthSession, email: Option<string>, password: Option<string>,
                attempt: Result<Option<ProviderUser>>, ownedDisabled: Option<bool>) returns (r: Option<string>)
    modifies session
    ensures !CredentialsPresent(email, password) ==>
      r == Some(CREDENTIALS_REQUIRED) && session.calls == old(session.calls) && session.user == old(session.user)
    ensures CredentialsPresent(email, password) && attempt.Failure? ==>
      r == Some(attempt.error) && session.user == old(session.user)
      && session.calls == old(session.calls) + [SignInWithPassword(Trim(email.value), password.value)]
    ensures CredentialsPresent(email, password) && attempt.Success? && !RoleAdmitted(attempt.value) ==>
      r == Some(NO_ACCESS) && session.user.None?
      && session.calls == old(session.calls) + [SignInWithPassword(Trim(email.value), password.value), SignOut]
    ensures CredentialsPresent(email, password) && attempt.Success? && RoleAdmitted(attempt.value)
            && ownedDisabled == Some(true) ==>
      r == Some(DEACTIVATED) && session.user.None?
      && session.calls == old(session.calls) + [SignInWithPassword(Trim(email.value), password.value), SignOut]
    ensures r.None? <==>
      (CredentialsPresent(email, password) && attempt.Success? && RoleAdmitted(attempt.value) && ownedDisabled != Some(true))
    ensures r.None? ==>
      session.user == attempt.value
      && session.calls == old(session.calls) + [SignInWithPassword(Trim(email.value), password.value)]
  {
    if !CredentialsPresent(email, password) {
      return Some(CREDENTIALS_REQUIRED);
    }
    var e := Trim(email.value);
    session.calls := session.calls + [SignInWithPassword(e, password.value)];
    if attempt.Failure? {
      return Some(attempt.error);
    }
    session.user := attempt.value;
    ghost var signedIn := session.calls;
    assert signedIn + [SignOut] == old(session.calls) + [SignInWithPassword(e, password.value), SignOut];
    r := Admit(session, attempt.value, ownedDisabled);
  }

  /**
   * The two refusals after a successful password sign-in: the role check,
   * then the disabled-workspace lookup. Each refusal signs the fresh
   * session out again.
   */
  method Admit(session: AuthSession, u: Option<ProviderUser>, ownedDisabled: Option<bool>) returns (r: Option<string>)
    modifies session
    ensures !RoleAdmitted(u) ==>
      r == Some(NO_ACCESS) && session.user.None? && session.calls == old(session.calls) + [SignOut]
    ensures RoleAdmitted(u) && ownedDisabled == Some(true) ==>
      r == Some(DEACTIVATED) && session.user.None? && session.calls == old(session.calls) + [SignOut]
    ensures r.None? <==> RoleAdmitted(u) && ownedDisabled != Some(true)
    ensures r.None? ==> session.user == old(session.user) && session.calls == old(session.calls)
  {
    if !RoleAdmitted(u) {
      session.calls := session.calls + [SignOut];
      session.user := None;
      return Some(NO_ACCESS);
    }
    if ownedDisabled == Some(true) {
      session.calls := session.calls + [SignOut];
      session.user := None;
      return Some(DEACTIVATED);
    }
    return None;
  }

  /** The role check here and the workspace guard's agree: exactly the three known roles pass. */
  lemma RoleCheckMatchesGuard(u: ProviderUser)
    ensures RoleAdmitted(Some(u)) <==>
      AuthClient.MapProviderUser(Some(u)).value.role in {"superadmin", "workspace_admin", "customer"}
  {
    Access.WorkspaceAppAdmits(AuthClient.MapProviderUser(Some(u)).value.role);
  }

  /**
   * A user `signIn` admits, other than a superadmin, is authorised by the
   * workspace guard on every path but the login page, given the same
   * disabled-workspace lookup.
   */
  lemma AdmittedMemberPassesGuard(u: ProviderUser, ownedDisabled: Option<bool>, path: string,
                                  cookie: Option<string>)
    requires RoleAdmitted(Some(u)) && ownedDisabled != Some(true)
    requires AuthClient.MapProviderUser(Some(u)).value.role != SUPERADMIN
    requires path != "/login"
    ensures WorkspaceGuard.Decide(WorkspaceGuard.Facts(path, true, AuthClient.MapProviderUser(Some(u)), cookie, ownedDisabled))
      == RouteResponse.PassThrough
  {
  }

  /**
   * Unlike the guard, `signIn` runs the disabled-workspace lookup for a
   * superadmin too: a superadmin who is the recorded owner of a single
   * disabled workspace (as `createWorkspace` makes its creator) is refused
   * here, while the guard would let the same session through with a selection.
   */
  lemma SuperadminOwnerRefusedAtSignIn(u: ProviderUser, path: string, cookie: Option<string>)
    requires AuthClient.MetaOf(u).role == Some(SUPERADMIN)
    requires path != "/login" && !WorkspaceGuard.Bypassed(path) && path != WorkspaceGuard.SET_SELECTION_PATH
    requires Selection.ParseSelection(cookie).Some?
    ensures RoleAdmitted(Some(u))
    ensures WorkspaceGuard.Decide(WorkspaceGuard.Facts(path, true, AuthClient.MapProviderUser(Some(u)), cookie, Some(true)))
      == RouteResponse.PassThrough
  {
    Access.AccessMatrix();
  }
}
