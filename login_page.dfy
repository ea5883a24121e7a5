/**
 * The workspace login page: the message shown for the `error` query
 * parameter the guard redirects with, and the submit handler around the
 * `signIn` server action.
 */
module LoginPage {
  import opened Base
  import opened Text
  import LoginActions
  import WorkspaceGuard

  const NO_WORKSPACE_MESSAGE: string := "Open a workspace from the Superadmin app first."
  const INVALID_REASON: string := "invalid"
  const LOGIN_FAILED: string := "Login failed"
  const HOME: string := "/"

  /**
   * The message the page's effect sets for `?error=err`, or `None` when it
   * sets none (no parameter, or an empty one). `decode` is `decodeURIComponent`.
   */
  function ReasonMessage(err: Option<string>, decode: string -> string): (m: Option<string>)
    ensures err == Some("deactivated") ==> m == Some(LoginActions.DEACTIVATED)
    ensures err == Some("superadmin_no_workspace") ==> m == Some("Open a workspace from the Superadmin app first.")
    ensures err == Some("invalid") ==> m == Some("Email and password are required.")
    ensures err.None? || err == Some("") ==> m.None?
    ensures err.Some? && err.value !in {"", "deactivated", "superadmin_no_workspace", "invalid"} ==>
      m == Some(decode(err.value))
  {
    match err
    case None => None
    case Some(e) =>
      if e == WorkspaceGuard.DEACTIVATED_REASON then Some(LoginActions.DEACTIVATED)
      else if e == WorkspaceGuard.NO_WORKSPACE_REASON then Some(NO_WORKSPACE_MESSAGE)
      else if e == INVALID_REASON then Some(LoginActions.CREDENTIALS_REQUIRED)
      else if e == "" then None
      else Some(decode(e))
  }

  /** Each reason the workspace guard redirects with has its own fixed message; the deactivated one is `signIn`'s own. */
  lemma GuardReasonsHaveMessages(decode: string -> string)
    ensures ReasonMessage(Some(WorkspaceGuard.DEACTIVATED_REASON), decode) == Some(LoginActions.DEACTIVATED)
    ensures ReasonMessage(Some(WorkspaceGuard.NO_WORKSPACE_REASON), decode) == Some(NO_WORKSPACE_MESSAGE)
  {
  }

  /** What the awaited server action did: returned its `error` field, or threw. */
  datatype SubmitOutcome = Returned(error: Option<string>) | Threw

  /** The form's state: the shown error, the loading flag and where the window was sent. */
  class LoginForm {
    var error: Option<string>
    var loading: bool
    var location: Option<string>

    constructor ()
      ensures error.None? && !loading && location.None?
    {
      error := None;
      loading := false;
      location := None;
    }

    /**
     * The effect on `[searchParams, client]`. Returns whether it asked the
     * provider to sign out (only for `deactivated`, and only with a client).
     */
    method ShowReason(err: Option<string>, hasClient: bool, decode: string -> string) returns (signedOut: bool)
      modifies this
      ensures ReasonMessage(err, decode).Some? ==> error == ReasonMessage(err, decode)
      ensures ReasonMessage(err, decode).None? ==> error == old(error)
      ensures signedOut <==> err == Some("deactivated") && hasClient
      ensures loading == old(loading) && location == old(location)
    {
      var m := ReasonMessage(err, decode);
      if m.Some? {
        error := m;
      }
      signedOut := err == Some(WorkspaceGuard.DEACTIVATED_REASON) && hasClient;
    }

    /**
     * `handleSubmit(e)`. The server action is called exactly when the same
     * credential check `signIn` makes passes; `outcome` is what it did.
     * Returns whether the action was called.
     */
    method Submit(email: Option<string>, password: Option<string>, outcome: SubmitOutcome) returns (called: bool)
      modifies this
      ensures called <==> LoginActions.CredentialsPresent(email, password)
      ensures !called ==>
        error == Some("Email and password are required.") && loading == old(loading) && location == old(location)
      ensures called ==> !loading
      ensures called && outcome.Threw? ==> error == Some("Login failed") && location == old(location)
      ensures called && outcome.Returned? && outcome.error.Some? && outcome.error.value != "" ==>
        error == outcome.error && location == old(location)
      ensures called && outcome.Returned? && (outcome.error.None? || outcome.error == Some("")) ==>
        error.None? && location == Some("/")
    {
      error := None;
      if !LoginActions.CredentialsPresent(email, password) {
        error := Some(LoginActions.CREDENTIALS_REQUIRED);
        return false;
      }
      loading := true;
      if outcome.Threw? {
        error := Some(LOGIN_FAILED);
      } else if outcome.error.Some? && outcome.error.value != "" {
        error := outcome.error;
      } else {
        location := Some(HOME);
      }
      loading := false;
      return true;
    }
  }
}
